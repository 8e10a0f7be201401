/** The settlement journal (x402/journal.go): an append-only file of lines, replayed on open. The line
    codec is a parameter; what the journal needs of it is stated per record. */
module Journal {
  import opened Common
  import opened Gateway

  type Byte = b: nat | b < 256

  const NEWLINE: Byte := 10
  const RETURN: Byte := 13

  /** A line this long stops the replay. */
  const LINE_LIMIT: nat := 4 * 1024 * 1024

  datatype Rec = EntryRec(e: Entry) | MarkRec(id: EntryId)

  datatype Codec = Codec(enc: Rec -> seq<Byte>, dec: seq<Byte> -> Option<Rec>)

  /** What the journal knows in memory: the entries in order and the ids marked as published. */
  datatype Book = Book(entries: seq<Entry>, published: set<EntryId>)

  const Blank: Book := Book([], {})

  // ---- Replay ----

  /** The position of the first newline, or the length. */
  function Cut(b: seq<Byte>): (i: nat)
    ensures i <= |b|
    ensures i < |b| ==> b[i] == NEWLINE
    ensures forall j :: 0 <= j < i ==> b[j] != NEWLINE
  {
    if b == [] || b[0] == NEWLINE then 0 else 1 + Cut(b[1..])
  }

  function DropReturn(line: seq<Byte>): seq<Byte> {
    if line != [] && Last(line) == RETURN then Init(line) else line
  }

  function Apply(book: Book, r: Rec): Book {
    match r
    case EntryRec(e) => book.(entries := AppendEntry(book.entries, e, true))
    case MarkRec(id) => book.(published := book.published + {id})
  }

  /** Empty and unparsable lines are skipped. */
  function ApplyLine(book: Book, codec: Codec, line: seq<Byte>): Book {
    if line == [] then book
    else match codec.dec(line) case None => book case Some(r) => Apply(book, r)
  }

  /** Line by line from the start; a last line without a newline still counts. */
  function ReplayFrom(book: Book, codec: Codec, b: seq<Byte>): Book
    decreases |b|
  {
    if b == [] then book
    else
      var i := Cut(b);
      if i >= LINE_LIMIT then book
      else
        var book' := ApplyLine(book, codec, DropReturn(b[..i]));
        if i == |b| then book' else ReplayFrom(book', codec, b[i + 1..])
  }

  function Replay(codec: Codec, b: seq<Byte>): Book { ReplayFrom(Blank, codec, b) }

  // ---- What is written ----

  function LineOf(codec: Codec, r: Rec): seq<Byte> { codec.enc(r) + [NEWLINE] }

  function FileOf(codec: Codec, recs: seq<Rec>): seq<Byte> {
    if recs == [] then [] else FileOf(codec, Init(recs)) + LineOf(codec, Last(recs))
  }

  function BookOf(recs: seq<Rec>): Book {
    if recs == [] then Blank else Apply(BookOf(Init(recs)), Last(recs))
  }

  /** A call of Append or MarkPublished, and whether its write succeeds; one that fails leaves
      nothing in the file. */
  datatype Op = AppendOp(e: Entry, ok: bool) | MarkOp(id: EntryId, ok: bool)

  /** Both calls are idempotent on the id. */
  function Writes(book: Book, op: Op): seq<Rec> {
    match op
    case AppendOp(e, ok) => if ok && !HasId(book.entries, e.id) then [EntryRec(e)] else []
    case MarkOp(id, ok) => if ok && id !in book.published then [MarkRec(id)] else []
  }

  function Perform(book: Book, op: Op): Book {
    match op
    case AppendOp(e, ok) => book.(entries := AppendEntry(book.entries, e, ok))
    case MarkOp(id, ok) => if ok then book.(published := book.published + {id}) else book
  }

  function Live(ops: seq<Op>): Book {
    if ops == [] then Blank else Perform(Live(Init(ops)), Last(ops))
  }

  function Written(ops: seq<Op>): seq<Rec> {
    if ops == [] then [] else Written(Init(ops)) + Writes(Live(Init(ops)), Last(ops))
  }

  // ---- What a codec must do for a record ----

  ghost predicate Clean(line: seq<Byte>) {
    forall i :: 0 <= i < |line| ==> line[i] != NEWLINE && line[i] != RETURN
  }

  /** It round-trips, its line is clean and not too long, and no shorter part of it parses. */
  ghost predicate Good(codec: Codec, r: Rec) {
    && codec.dec(codec.enc(r)) == Some(r)
    && 0 < |codec.enc(r)| < LINE_LIMIT
    && Clean(codec.enc(r))
    && forall i :: 0 <= i < |codec.enc(r)| ==> codec.dec(codec.enc(r)[..i]) == None
  }

  ghost predicate AllGood(codec: Codec, recs: seq<Rec>) {
    forall i :: 0 <= i < |recs| ==> Good(codec, recs[i])
  }

  // ---- Scanning ----

  lemma {:induction false} CutLine(line: seq<Byte>, rest: seq<Byte>)
    requires Clean(line)
    ensures Cut(line + [NEWLINE] + rest) == |line|
  {
    var b := line + [NEWLINE] + rest;
    assert forall j :: 0 <= j < |line| ==> b[j] == line[j];
    assert b[|line|] == NEWLINE;
  }

  lemma {:induction false} CutTail(tail: seq<Byte>)
    requires Clean(tail)
    ensures Cut(tail) == |tail| && DropReturn(tail) == tail
  {
    assert tail != [] ==> Last(tail) == tail[|tail| - 1];
  }

  /** Reading one line: an overlong one stops, the last one ends, any other is followed by the rest. */
  lemma {:induction false} ReplayOne(book: Book, codec: Codec, b: seq<Byte>)
    requires b != []
    ensures var i := Cut(b);
            var book' := ApplyLine(book, codec, DropReturn(b[..i]));
            ReplayFrom(book, codec, b) ==
              if i >= LINE_LIMIT then book
              else if i == |b| then book'
              else ReplayFrom(book', codec, b[i + 1..])
  {
    hide ApplyLine, DropReturn;
  }

  /** One whole line is read as its record. */
  lemma {:induction false} ReplayLine(book: Book, codec: Codec, r: Rec, rest: seq<Byte>)
    requires Good(codec, r)
    ensures ReplayFrom(book, codec, LineOf(codec, r) + rest) == ReplayFrom(Apply(book, r), codec, rest)
  {
    hide Apply, Cut;
    var line := codec.enc(r);
    var b := line + [NEWLINE] + rest;
    assert LineOf(codec, r) + rest == b;
    CutLine(line, rest);
    CutTail(line);
    assert b[..|line|] == line && b[|line| + 1..] == rest;
  }

  /** A line without its newline at the end of the file: read if it is whole, else skipped. */
  lemma {:induction false} ReplayTail(book: Book, codec: Codec, r: Rec, n: nat)
    requires Good(codec, r) && n <= |codec.enc(r)|
    ensures ReplayFrom(book, codec, codec.enc(r)[..n]) == if n == |codec.enc(r)| then Apply(book, r) else book
  {
    hide Apply, Cut;
    var tail := codec.enc(r)[..n];
    assert Clean(tail);
    CutTail(tail);
    assert tail[..|tail|] == tail;
    if n == |codec.enc(r)| {
      assert tail == codec.enc(r);
    }
  }

  // ---- Files from the front ----

  lemma {:induction false} FileFront(codec: Codec, recs: seq<Rec>)
    requires recs != []
    ensures FileOf(codec, recs) == LineOf(codec, recs[0]) + FileOf(codec, recs[1..])
  {
    if |recs| == 1 {
      ConcatEmpty(LineOf(codec, recs[0]));
      assert Init(recs) == [] && recs[1..] == [];
    } else {
      FileFront(codec, Init(recs));
      assert Init(recs)[0] == recs[0] && Init(recs)[1..] == Init(recs[1..]) && Last(recs[1..]) == Last(recs);
      ConcatAssoc(LineOf(codec, recs[0]), FileOf(codec, Init(recs)[1..]), LineOf(codec, Last(recs)));
    }
  }

  /** The entries and marks of a list of records, on top of a book. */
  function ApplyAll(book: Book, recs: seq<Rec>): Book
    decreases |recs|
  {
    if recs == [] then book else ApplyAll(Apply(book, recs[0]), recs[1..])
  }

  lemma {:induction false} ApplyAllSnoc(book: Book, recs: seq<Rec>, r: Rec)
    ensures ApplyAll(book, recs + [r]) == Apply(ApplyAll(book, recs), r)
    decreases |recs|
  {
    hide Apply;
    if recs == [] {
      ConcatEmpty([r]);
      assert [r][1..] == [];
    } else {
      assert (recs + [r])[0] == recs[0] && (recs + [r])[1..] == recs[1..] + [r];
      ApplyAllSnoc(Apply(book, recs[0]), recs[1..], r);
    }
  }

  lemma {:induction false} BookIsApplied(recs: seq<Rec>)
    ensures BookOf(recs) == ApplyAll(Blank, recs)
  {
    hide Apply;
    if recs != [] {
      BookIsApplied(Init(recs));
      assert Init(recs) + [Last(recs)] == recs;
      ApplyAllSnoc(Blank, Init(recs), Last(recs));
    }
  }

  /** How many records are whole in the first n bytes: the newline of the last one may be missing. */
  function Whole(codec: Codec, recs: seq<Rec>, n: nat): (k: nat)
    ensures k <= |recs|
    decreases |recs|
  {
    if recs == [] || n < |codec.enc(recs[0])| then 0
    else if n <= |codec.enc(recs[0])| then 1
    else 1 + Whole(codec, recs[1..], n - |codec.enc(recs[0])| - 1)
  }

  /** Replaying any byte prefix of the file reads exactly the records that are whole in it. */
  lemma {:induction false} ReplayPrefix(book: Book, codec: Codec, recs: seq<Rec>, n: nat)
    requires AllGood(codec, recs) && n <= |FileOf(codec, recs)|
    ensures ReplayFrom(book, codec, FileOf(codec, recs)[..n]) == ApplyAll(book, recs[..Whole(codec, recs, n)])
    decreases |recs|
  {
    hide Apply, Good, ReplayFrom, FileOf;
    if recs == [] {
      EmptyReplay(book, codec);
      EmptyFile(codec);
    } else {
      var r, rest := recs[0], recs[1..];
      assert Good(codec, r);
      assert AllGood(codec, rest) by {
        assert forall i :: 0 <= i < |rest| ==> rest[i] == recs[i + 1];
      }
      FileFront(codec, recs);
      var size := |codec.enc(r)|;
      if n <= size {
        assert FileOf(codec, recs)[..n] == codec.enc(r)[..n];
        ReplayTail(book, codec, r, n);
        WholeFirst(book, codec, recs, n);
      } else {
        var m := n - size - 1;
        assert FileOf(codec, recs)[..n] == LineOf(codec, r) + FileOf(codec, rest)[..m];
        ReplayLine(book, codec, r, FileOf(codec, rest)[..m]);
        ReplayPrefix(Apply(book, r), codec, rest, m);
        assert recs[..1 + Whole(codec, rest, m)][1..] == rest[..Whole(codec, rest, m)];
      }
    }
  }

  lemma {:induction false} EmptyReplay(book: Book, codec: Codec)
    ensures ReplayFrom(book, codec, []) == book
  {}

  lemma {:induction false} EmptyFile(codec: Codec)
    ensures FileOf(codec, []) == []
  {}

  lemma {:induction false} WholeFirst(book: Book, codec: Codec, recs: seq<Rec>, n: nat)
    requires recs != [] && n <= |codec.enc(recs[0])|
    ensures ApplyAll(book, recs[..Whole(codec, recs, n)]) ==
              if n == |codec.enc(recs[0])| then Apply(book, recs[0]) else book
  {
    hide Apply;
    assert recs[..0] == [] && recs[..1] == [recs[0]] && [recs[0]][1..] == [];
  }

  // ---- The longest prefix of operations ----

  /** Operations that write nothing change nothing. */
  lemma {:induction false} LiveIsWritten(ops: seq<Op>)
    ensures Live(ops) == BookOf(Written(ops))
  {
    if ops != [] {
      LiveIsWritten(Init(ops));
      var w := Written(Init(ops));
      ConcatEmpty(w);
      if Writes(Live(Init(ops)), Last(ops)) != [] {
        InitOfSnoc(w, Writes(Live(Init(ops)), Last(ops))[0]);
      }
    }
  }

  /** Record k-1 is whole in n bytes exactly when the file up to it, without its newline, fits. */
  lemma {:induction false} WholeIffFits(codec: Codec, recs: seq<Rec>, n: nat, k: nat)
    requires k <= |recs|
    ensures k <= Whole(codec, recs, n) <==> |FileOf(codec, recs[..k])| <= n + 1
    decreases |recs|
  {
    if k == 0 {
      assert recs[..0] == [];
    } else {
      FileFront(codec, recs[..k]);
      assert recs[..k][0] == recs[0] && recs[..k][1..] == recs[1..][..k - 1];
      var size := |codec.enc(recs[0])|;
      if n > size {
        WholeIffFits(codec, recs[1..], n - size - 1, k - 1);
      } else {
        FileGrows(codec, recs[..k][1..]);
      }
    }
  }

  lemma {:induction false} FileGrows(codec: Codec, recs: seq<Rec>)
    ensures |FileOf(codec, recs)| >= |recs|
  {
    if recs != [] {
      FileGrows(codec, Init(recs));
    }
  }

  /** How many operations have all their records whole in the first n bytes. */
  function Survivors(codec: Codec, ops: seq<Op>, n: nat): (k: nat)
    ensures k <= |ops|
  {
    if ops == [] || |FileOf(codec, Written(ops))| <= n + 1 then |ops| else Survivors(codec, Init(ops), n)
  }

  lemma {:induction false} WrittenPrefix(ops: seq<Op>, k: nat)
    requires k <= |ops|
    ensures |Written(ops[..k])| <= |Written(ops)| && Written(ops)[..|Written(ops[..k])|] == Written(ops[..k])
  {
    hide Writes, Live;
    if k == |ops| {
      assert ops[..k] == ops;
    } else {
      WrittenPrefix(Init(ops), k);
      assert Init(ops)[..k] == ops[..k];
      assert Written(Init(ops)) <= Written(ops);
    }
  }

  lemma {:induction false} FilePrefix(codec: Codec, recs: seq<Rec>, k: nat)
    requires k <= |recs|
    ensures |FileOf(codec, recs[..k])| <= |FileOf(codec, recs)|
  {
    if k == |recs| {
      assert recs[..k] == recs;
    } else {
      FilePrefix(codec, Init(recs), k);
      assert Init(recs)[..k] == recs[..k];
    }
  }

  /** They are the longest such prefix. */
  lemma {:induction false} SurvivorsLongest(codec: Codec, ops: seq<Op>, n: nat, k: nat)
    requires k <= |ops|
    ensures k <= Survivors(codec, ops, n) <==> |FileOf(codec, Written(ops[..k]))| <= n + 1
  {
    hide FileOf, Written;
    assert ops[..|ops|] == ops;
    if ops == [] {
      EmptyFile(codec);
      assert Written([]) == [] by { WrittenNone(); }
    } else if |FileOf(codec, Written(ops))| <= n + 1 {
      WrittenPrefix(ops, k);
      FilePrefix(codec, Written(ops), |Written(ops[..k])|);
    } else if k < |ops| {
      assert Init(ops)[..k] == ops[..k];
      SurvivorsLongest(codec, Init(ops), n, k);
    }
  }

  lemma {:induction false} WrittenNone()
    ensures Written([]) == []
  {}

  /** The records whole in a cut are those the surviving operations wrote. */
  lemma {:induction false} WholeIsSurvivors(codec: Codec, ops: seq<Op>, n: nat)
    ensures var k := Survivors(codec, ops, n);
            Written(ops)[..Whole(codec, Written(ops), n)] == Written(ops[..k])
  {
    hide FileOf, Written, Whole, Survivors;
    var k := Survivors(codec, ops, n);
    var recs := Written(ops);
    var whole := Whole(codec, recs, n);
    SurvivorsLongest(codec, ops, n, k);
    WrittenPrefix(ops, k);
    WholeIffFits(codec, recs, n, |Written(ops[..k])|);
    if k < |ops| {
      SurvivorsLongest(codec, ops, n, k + 1);
      WrittenPrefix(ops, k + 1);
      WrittenStep(ops, k);
      WholeIffFits(codec, recs, n, |Written(ops[..k + 1])|);
    } else {
      assert ops[..k] == ops;
    }
  }

  lemma {:induction false} WrittenStep(ops: seq<Op>, k: nat)
    requires k < |ops|
    ensures |Written(ops[..k])| <= |Written(ops[..k + 1])| <= |Written(ops[..k])| + 1
  {
    hide Live;
    InitOfTake(ops, k + 1);
  }

  /** For any sequence of operations and any cut of the file to a byte prefix, opening the journal
      rebuilds exactly the entries and the published marks of the longest prefix of the operations
      whose records are whole in the file. */
  lemma {:induction false} OpenAfterCut(codec: Codec, ops: seq<Op>, n: nat)
    requires AllGood(codec, Written(ops)) && n <= |FileOf(codec, Written(ops))|
    ensures Replay(codec, FileOf(codec, Written(ops))[..n]) == Live(ops[..Survivors(codec, ops, n)])
  {
    hide FileOf, Written, Whole, Survivors, Live, ReplayFrom;
    ReplayPrefix(Blank, codec, Written(ops), n);
    WholeIsSurvivors(codec, ops, n);
    var k := Survivors(codec, ops, n);
    LiveIsWritten(ops[..k]);
    BookIsApplied(Written(ops[..k]));
  }

  /** Without a crash nothing is lost. */
  lemma {:induction false} OpenWhole(codec: Codec, recs: seq<Rec>)
    requires AllGood(codec, recs)
    ensures Replay(codec, FileOf(codec, recs)) == BookOf(recs)
  {
    hide FileOf, ReplayFrom, Whole;
    var n := |FileOf(codec, recs)|;
    assert FileOf(codec, recs)[..n] == FileOf(codec, recs);
    ReplayPrefix(Blank, codec, recs, n);
    assert recs[..|recs|] == recs;
    WholeIffFits(codec, recs, n, |recs|);
    BookIsApplied(recs);
  }

  // ---- The append after a torn tail ----

  /** A line that starts with a piece of another line does not parse. */
  ghost predicate Unglued(codec: Codec, a: Rec, b: Rec) {
    forall i :: 0 < i <= |codec.enc(a)| ==> codec.dec(codec.enc(a)[..i] + codec.enc(b)) == None
  }

  /** The file ends between two lines. */
  predicate AtBoundary(b: seq<Byte>) { b == [] || Last(b) == NEWLINE }

  /** The piece of a line that a cut leaves at the end of the file. */
  function Torn(codec: Codec, recs: seq<Rec>, n: nat): (torn: Option<(nat, nat)>)
    decreases |recs|
  {
    if recs == [] || n == 0 then None
    else if n <= |codec.enc(recs[0])| then Some((0, n))
    else
      match Torn(codec, recs[1..], n - |codec.enc(recs[0])| - 1)
      case None => None
      case Some(t) => Some((t.0 + 1, t.1))
  }

  /** The whole lines of a cut, and the piece after them. */
  lemma {:induction false} CutParts(codec: Codec, recs: seq<Rec>, n: nat)
    requires AllGood(codec, recs) && n <= |FileOf(codec, recs)|
    ensures var cut := FileOf(codec, recs)[..n];
            match Torn(codec, recs, n)
            case None => AtBoundary(cut) && exists k :: 0 <= k <= |recs| && cut == FileOf(codec, recs[..k])
            case Some(t) =>
              && t.0 < |recs| && 0 < t.1 <= |codec.enc(recs[t.0])| && !AtBoundary(cut)
              && cut == FileOf(codec, recs[..t.0]) + codec.enc(recs[t.0])[..t.1]
    decreases |recs|
  {
    hide FileOf, Good, AtBoundary;
    var cut := FileOf(codec, recs)[..n];
    EmptyFile(codec);
    assert recs[..0] == [];
    BoundaryCases();
    if n == 0 || recs == [] {
      assert cut == FileOf(codec, recs[..0]);
    } else {
      var r, rest := recs[0], recs[1..];
      assert Good(codec, r);
      FileFront(codec, recs);
      var size := |codec.enc(r)|;
      if n <= size {
        assert cut == codec.enc(r)[..n];
        ConcatEmpty(cut);
        GoodPieceEnds(codec, r, n);
      } else {
        assert AllGood(codec, rest) by {
          assert forall i :: 0 <= i < |rest| ==> rest[i] == recs[i + 1];
        }
        CutPartsNext(codec, recs, n);
      }
    }
  }

  lemma {:induction false} BoundaryCases()
    ensures AtBoundary([])
  {}

  lemma {:induction false} GoodPieceEnds(codec: Codec, r: Rec, n: nat)
    requires Good(codec, r) && 0 < n <= |codec.enc(r)|
    ensures !AtBoundary(codec.enc(r)[..n])
  {
    assert codec.enc(r)[..n][n - 1] == codec.enc(r)[n - 1] != NEWLINE;
  }

  lemma {:induction false} CutPartsNext(codec: Codec, recs: seq<Rec>, n: nat)
    requires AllGood(codec, recs) && recs != [] && |codec.enc(recs[0])| < n <= |FileOf(codec, recs)|
    requires AllGood(codec, recs[1..])
    ensures var cut := FileOf(codec, recs)[..n];
            match Torn(codec, recs, n)
            case None => AtBoundary(cut) && exists k :: 0 <= k <= |recs| && cut == FileOf(codec, recs[..k])
            case Some(t) =>
              && t.0 < |recs| && 0 < t.1 <= |codec.enc(recs[t.0])| && !AtBoundary(cut)
              && cut == FileOf(codec, recs[..t.0]) + codec.enc(recs[t.0])[..t.1]
    decreases |recs|, 0
  {
    hide FileOf, Good, AtBoundary;
    var r, rest := recs[0], recs[1..];
    var m := n - |codec.enc(r)| - 1;
    FileFront(codec, recs);
    CutParts(codec, rest, m);
    var cut, tail := FileOf(codec, recs)[..n], FileOf(codec, rest)[..m];
    assert cut == LineOf(codec, r) + tail;
    BoundaryAfterLine(codec, r, tail);
    match Torn(codec, rest, m)
    case None =>
      var k :| 0 <= k <= |rest| && tail == FileOf(codec, rest[..k]);
      FileFront(codec, recs[..k + 1]);
      assert recs[..k + 1][1..] == rest[..k];
      assert cut == FileOf(codec, recs[..k + 1]);
    case Some(t) =>
      FileFront(codec, recs[..t.0 + 1]);
      assert recs[..t.0 + 1][1..] == rest[..t.0];
      ConcatAssoc(LineOf(codec, r), FileOf(codec, rest[..t.0]), codec.enc(rest[t.0])[..t.1]);
  }

  lemma {:induction false} BoundaryAfterLine(codec: Codec, r: Rec, tail: seq<Byte>)
    ensures AtBoundary(LineOf(codec, r) + tail) <==> AtBoundary(tail)
  {
    if tail == [] {
      ConcatEmpty(LineOf(codec, r));
    } else {
      InitOfConcat(LineOf(codec, r), tail);
    }
  }

  lemma {:induction false} ReplayConcat(book: Book, codec: Codec, recs: seq<Rec>, tail: seq<Byte>)
    requires AllGood(codec, recs)
    ensures ReplayFrom(book, codec, FileOf(codec, recs) + tail) == ReplayFrom(ApplyAll(book, recs), codec, tail)
    decreases |recs|
  {
    hide Apply, Good, ReplayFrom, FileOf;
    if recs == [] {
      EmptyFile(codec);
      ConcatEmpty(tail);
    } else {
      assert Good(codec, recs[0]);
      var rest := recs[1..];
      assert AllGood(codec, rest) by {
        assert forall i :: 0 <= i < |rest| ==> rest[i] == recs[i + 1];
      }
      FileFront(codec, recs);
      ConcatAssoc(LineOf(codec, recs[0]), FileOf(codec, rest), tail);
      ReplayLine(book, codec, recs[0], FileOf(codec, rest) + tail);
      ReplayConcat(Apply(book, recs[0]), codec, rest, tail);
    }
  }

  /** A line glued to a torn one is skipped, and with it the record it carried. */
  lemma {:induction false} GluedLine(book: Book, codec: Codec, a: Rec, r: Rec, i: nat)
    requires Good(codec, a) && Good(codec, r) && Unglued(codec, a, r) && 0 < i <= |codec.enc(a)|
    ensures ReplayFrom(book, codec, codec.enc(a)[..i] + LineOf(codec, r)) == book
  {
    hide Cut;
    var line := codec.enc(a)[..i] + codec.enc(r);
    var b := line + [NEWLINE];
    assert codec.enc(a)[..i] + LineOf(codec, r) == b;
    assert Clean(line);
    ConcatEmpty(b);
    CutLine(line, []);
    CutTail(line);
    assert b[..|line|] == line && b[|line| + 1..] == [];
  }

  lemma {:induction false} HasIdLast(journal: seq<Entry>, e: Entry)
    ensures HasId(AppendEntry(journal, e, true), e.id)
  {
    if !HasId(journal, e.id) {
      assert (journal + [e])[|journal|] == e;
    }
  }

  /** Reopening after a crash and appending one more entry: a later open finds that entry exactly when
      the crash left the file between two lines. Otherwise the entry continues the torn line, and the
      glued line is skipped, together with a record that lacked only its newline. */
  lemma {:induction false} AppendAfterCutStandsIff(codec: Codec, recs: seq<Rec>, n: nat, e: Entry)
    requires AllGood(codec, recs) && Good(codec, EntryRec(e)) && n <= |FileOf(codec, recs)|
    requires forall i :: 0 <= i < |recs| ==> Unglued(codec, recs[i], EntryRec(e))
    requires !HasId(Replay(codec, FileOf(codec, recs)[..n]).entries, e.id)
    ensures var cut := FileOf(codec, recs)[..n];
            HasId(Replay(codec, cut + LineOf(codec, EntryRec(e))).entries, e.id) <==> AtBoundary(cut)
  {
    hide FileOf, ReplayFrom, Good, Unglued, AtBoundary, HasId, LineOf, Whole, AppendEntry;
    var cut := FileOf(codec, recs)[..n];
    var r := EntryRec(e);
    CutParts(codec, recs, n);
    match Torn(codec, recs, n)
    case None =>
      var k :| 0 <= k <= |recs| && cut == FileOf(codec, recs[..k]);
      assert AllGood(codec, recs[..k]);
      ReplayConcat(Blank, codec, recs[..k], LineOf(codec, r));
      ConcatEmpty(LineOf(codec, r));
      ReplayLine(ApplyAll(Blank, recs[..k]), codec, r, []);
      EmptyReplay(Apply(ApplyAll(Blank, recs[..k]), r), codec);
      HasIdLast(ApplyAll(Blank, recs[..k]).entries, e);
    case Some(t) =>
      var whole, piece := recs[..t.0], codec.enc(recs[t.0])[..t.1];
      assert AllGood(codec, whole);
      ConcatAssoc(FileOf(codec, whole), piece, LineOf(codec, r));
      ReplayConcat(Blank, codec, whole, piece + LineOf(codec, r));
      GluedLine(ApplyAll(Blank, whole), codec, recs[t.0], r, t.1);
      ReplayConcat(Blank, codec, whole, piece);
      ReplayTail(ApplyAll(Blank, whole), codec, recs[t.0], t.1);
      if HasId(ApplyAll(Blank, whole).entries, e.id) {
        EntriesStay(ApplyAll(Blank, whole), recs[t.0], e.id);
        assert false;
      }
  }

  lemma {:induction false} EntriesStay(book: Book, r: Rec, id: EntryId)
    requires HasId(book.entries, id)
    ensures HasId(Apply(book, r).entries, id)
  {
    var i :| 0 <= i < |book.entries| && book.entries[i].id == id;
    assert Apply(book, r).entries[i].id == id;
  }
}
