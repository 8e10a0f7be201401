/** The journal as an object (x402/journal.go): the file, and in memory the entries, the index of their
    ids and the published marks. */
module JournalFile {
  import opened Common
  import opened Gateway
  import opened Journal

  /** The entries without a published mark, in journal order. */
  function Backlog(entries: seq<Entry>, published: set<EntryId>): seq<Entry> {
    if entries == [] then []
    else Backlog(Init(entries), published) + if Last(entries).id in published then [] else [Last(entries)]
  }

  lemma {:induction false} ReplayIsFromBlank(codec: Codec, b: seq<Byte>)
    ensures Replay(codec, b) == ReplayFrom(Blank, codec, b)
  {
    hide ReplayFrom;
  }

  class FileJournal {
    const codec: Codec
    var file: seq<Byte>
    var entries: seq<Entry>
    var index: map<EntryId, nat>
    var published: set<EntryId>

    function View(): Book
      reads this
    {
      Book(entries, published)
    }

    /** The index leads from each id to its entry. */
    ghost predicate Valid()
      reads this
    {
      && (forall id :: id in index ==> index[id] < |entries| && entries[index[id]].id == id)
      && (forall i :: 0 <= i < |entries| ==> entries[i].id in index)
    }

    lemma {:induction false} IndexFinds(id: EntryId)
      requires Valid()
      ensures id in index <==> HasId(entries, id)
    {}

    /** Open the file and replay it. */
    constructor (codec: Codec, bytes: seq<Byte>)
      ensures Valid() && this.codec == codec && file == bytes
      ensures View() == Replay(codec, bytes)
    {
      this.codec, file, entries, index, published := codec, bytes, [], map[], {};
      new;
      ReplayAll();
    }

    method ReplayAll()
      requires Valid() && View() == Blank
      modifies this`entries, this`index, this`published
      ensures Valid() && View() == Replay(codec, file)
    {
      hide ApplyLine, DropReturn, Replay, ReplayFrom, Cut;
      ghost var goal := Replay(codec, file);
      ReplayIsFromBlank(codec, file);
      var pos := 0;
      assert file[0..] == file;
      while pos < |file|
        invariant 0 <= pos <= |file|
        invariant Valid()
        invariant ReplayFrom(View(), codec, file[pos..]) == goal
      {
        var rest := file[pos..];
        var i := Cut(rest);
        ReplayOne(View(), codec, rest);
        if i >= LINE_LIMIT {
          return;
        }
        ReplayLine(DropReturn(rest[..i]));
        if i == |rest| {
          return;
        }
        assert rest[i + 1..] == file[pos + i + 1..];
        pos := pos + i + 1;
      }
      assert file[pos..] == [];
      EmptyReplay(View(), codec);
    }

    method ReplayLine(line: seq<Byte>)
      requires Valid()
      modifies this`entries, this`index, this`published
      ensures Valid() && View() == ApplyLine(old(View()), codec, line)
    {
      if line == [] {
        return;
      }
      match codec.dec(line) {
        case None =>
        case Some(MarkRec(id)) => published := published + {id};
        case Some(EntryRec(e)) => RecordEntry(e);
      }
    }

    /** Ignores a duplicate id. */
    method RecordEntry(e: Entry)
      requires Valid()
      modifies this`entries, this`index
      ensures Valid() && entries == AppendEntry(old(entries), e, true)
    {
      IndexFinds(e.id);
      if e.id in index {
        return;
      }
      index := index[e.id := |entries|];
      entries := entries + [e];
    }

    /** One line at the end of the file, unless the id is known or the write fails. */
    method Append(e: Entry, written: bool) returns (ok: bool)
      requires Valid()
      modifies this`file, this`entries, this`index
      ensures Valid() && View() == Perform(old(View()), AppendOp(e, written))
      ensures file == old(file) + FileOf(codec, Writes(old(View()), AppendOp(e, written)))
      ensures ok <==> HasId(entries, e.id)
    {
      IndexFinds(e.id);
      OneLine(codec, EntryRec(e));
      ConcatEmpty(file);
      if e.id in index {
        return true;
      }
      if !written {
        return false;
      }
      file := file + LineOf(codec, EntryRec(e));
      RecordEntry(e);
      HasIdLast(old(entries), e);
      return true;
    }

    method MarkPublished(id: EntryId, written: bool) returns (ok: bool)
      requires Valid()
      modifies this`file, this`published
      ensures Valid() && View() == Perform(old(View()), MarkOp(id, written))
      ensures file == old(file) + FileOf(codec, Writes(old(View()), MarkOp(id, written)))
      ensures ok <==> id in published
    {
      OneLine(codec, MarkRec(id));
      ConcatEmpty(file);
      if id in published {
        return true;
      }
      if !written {
        return false;
      }
      file := file + LineOf(codec, MarkRec(id));
      published := published + {id};
      return true;
    }

    method Unpublished() returns (out: seq<Entry>)
      ensures out == Backlog(entries, published)
    {
      out := [];
      var i := 0;
      while i < |entries|
        invariant 0 <= i <= |entries|
        invariant out == Backlog(entries[..i], published)
      {
        InitOfTake(entries, i + 1);
        if entries[i].id !in published {
          out := out + [entries[i]];
        }
        i := i + 1;
      }
      assert entries[..i] == entries;
    }
  }

  lemma {:induction false} OneLine(codec: Codec, r: Rec)
    ensures FileOf(codec, [r]) == LineOf(codec, r) && FileOf(codec, []) == []
  {
    assert Init([r]) == [];
    ConcatEmpty(LineOf(codec, r));
  }
}
