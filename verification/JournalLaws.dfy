/** What a replay reads from a file that holds more than whole lines (x402/journal.go): returns before the
    newlines, empty and unparsable lines in between, and a line too long to read. */
module JournalLaws {
  import opened Common
  import opened Gateway
  import opened Journal

  /** A line of a file: a record, with or without a return before the newline, or anything that is no
      record. */
  datatype Piece = Whole(r: Rec, return_: bool) | Junk(line: seq<Byte>)

  function Bytes(codec: Codec, piece: Piece): seq<Byte> {
    match piece
    case Whole(r, cr) => codec.enc(r) + (if cr then [RETURN] else [])
    case Junk(line) => line
  }

  ghost predicate OneLine(line: seq<Byte>) { NEWLINE !in line && |line| < LINE_LIMIT }

  /** A record is readable alone; junk is empty or does not parse, with or without its return. */
  ghost predicate Fair(codec: Codec, piece: Piece) {
    && OneLine(Bytes(codec, piece))
    && match piece
       case Whole(r, _) => codec.enc(r) != [] && Clean(codec.enc(r)) && codec.dec(codec.enc(r)) == Some(r)
       case Junk(line) =>
         forall text :: text == line || text + [RETURN] == line ==> text == [] || codec.dec(text) == None
  }

  ghost predicate AllFair(codec: Codec, pieces: seq<Piece>) {
    forall piece :: piece in pieces ==> Fair(codec, piece)
  }

  function FileWith(codec: Codec, pieces: seq<Piece>): seq<Byte>
    decreases |pieces|
  {
    if pieces == [] then [] else Bytes(codec, pieces[0]) + [NEWLINE] + FileWith(codec, pieces[1..])
  }

  /** The records among the lines, in order. */
  function RecordsIn(pieces: seq<Piece>): seq<Rec>
    decreases |pieces|
  {
    if pieces == [] then []
    else (if pieces[0].Whole? then [pieces[0].r] else []) + RecordsIn(pieces[1..])
  }

  lemma {:induction false} CutOneLine(line: seq<Byte>, rest: seq<Byte>)
    requires NEWLINE !in line
    ensures Cut(line + [NEWLINE] + rest) == |line|
  {
    var b := line + [NEWLINE] + rest;
    assert forall j :: 0 <= j < |line| ==> b[j] == line[j];
    assert b[|line|] == NEWLINE;
  }

  /** One line, read. */
  lemma {:induction false} ReadsPiece(book: Book, codec: Codec, piece: Piece)
    requires Fair(codec, piece)
    ensures ApplyLine(book, codec, DropReturn(Bytes(codec, piece))) ==
              if piece.Whole? then Apply(book, piece.r) else book
  {
    hide Apply;
    var line := Bytes(codec, piece);
    match piece
    case Whole(r, cr) =>
      if cr {
        InitOfSnoc(codec.enc(r), RETURN);
      } else {
        ConcatEmpty(codec.enc(r));
        assert Last(line) == codec.enc(r)[|codec.enc(r)| - 1];
      }
    case Junk(_) =>
      if line != [] && Last(line) == RETURN {
        assert Init(line) + [RETURN] == line;
      }
  }

  lemma {:induction false} ReadsFrom(book: Book, codec: Codec, pieces: seq<Piece>, tail: seq<Byte>)
    requires AllFair(codec, pieces)
    ensures ReplayFrom(book, codec, FileWith(codec, pieces) + tail) ==
              ReplayFrom(ApplyAll(book, RecordsIn(pieces)), codec, tail)
    decreases |pieces|
  {
    hide Apply, ReplayFrom, Cut, DropReturn, ApplyLine;
    if pieces == [] {
      ConcatEmpty(tail);
    } else {
      var line, rest := Bytes(codec, pieces[0]), FileWith(codec, pieces[1..]) + tail;
      assert pieces[0] in pieces && AllFair(codec, pieces[1..]);
      var b := FileWith(codec, pieces) + tail;
      assert b == line + [NEWLINE] + rest;
      CutOneLine(line, rest);
      ReplayOne(book, codec, b);
      assert b[..|line|] == line && b[|line| + 1..] == rest;
      ReadsPiece(book, codec, pieces[0]);
      var book' := if pieces[0].Whole? then Apply(book, pieces[0].r) else book;
      ReadsFrom(book', codec, pieces[1..], tail);
      AppliesFirst(book, pieces);
    }
  }

  lemma {:induction false} AppliesFirst(book: Book, pieces: seq<Piece>)
    requires pieces != []
    ensures ApplyAll(book, RecordsIn(pieces)) ==
              ApplyAll(if pieces[0].Whole? then Apply(book, pieces[0].r) else book, RecordsIn(pieces[1..]))
  {
    hide Apply;
    var rest := RecordsIn(pieces[1..]);
    if pieces[0].Whole? {
      assert RecordsIn(pieces)[0] == pieces[0].r && RecordsIn(pieces)[1..] == rest;
    } else {
      ConcatEmpty(rest);
    }
  }

  /** Replay reads exactly the records, whatever empty or unparsable lines stand between them and whichever
      lines end in a return. */
  lemma {:induction false} ReplayReadsTheRecords(codec: Codec, pieces: seq<Piece>)
    requires AllFair(codec, pieces)
    ensures Replay(codec, FileWith(codec, pieces)) == BookOf(RecordsIn(pieces))
  {
    hide Apply, ReplayFrom;
    ReadsFrom(Blank, codec, pieces, []);
    ConcatEmpty(FileWith(codec, pieces));
    EmptyReplay(ApplyAll(Blank, RecordsIn(pieces)), codec);
    BookIsApplied(RecordsIn(pieces));
  }

  /** A line of the limit or longer ends the replay: nothing of it and nothing after it is read. */
  lemma {:induction false} OverlongLineEndsIt(codec: Codec, pieces: seq<Piece>, line: seq<Byte>, after: seq<Byte>)
    requires AllFair(codec, pieces) && NEWLINE !in line && |line| >= LINE_LIMIT
    ensures Replay(codec, FileWith(codec, pieces) + (line + after)) == BookOf(RecordsIn(pieces))
  {
    hide Apply, ReplayFrom, ApplyLine, DropReturn;
    ReadsFrom(Blank, codec, pieces, line + after);
    BookIsApplied(RecordsIn(pieces));
    CutAfter(line, after);
    ReplayOne(ApplyAll(Blank, RecordsIn(pieces)), codec, line + after);
  }

  lemma {:induction false} CutAfter(line: seq<Byte>, after: seq<Byte>)
    requires NEWLINE !in line
    ensures Cut(line + after) >= |line|
  {
    var b := line + after;
    assert forall j :: 0 <= j < |line| ==> b[j] == line[j];
  }

  // ---- One line for each id ----

  /** The id a call is about, and whether it is a mark. */
  function TopicOf(op: Op): (bool, EntryId) {
    match op case AppendOp(e, _) => (false, e.id) case MarkOp(id, _) => (true, id)
  }

  predicate NewIn(ops: seq<Op>, i: nat)
    requires i < |ops|
  {
    ops[i].ok && forall j :: 0 <= j < i && ops[j].ok ==> TopicOf(ops[j]) != TopicOf(ops[i])
  }

  /** The lines that calls write, by the first successful call on each id alone. */
  function FirstCalls(ops: seq<Op>, n: nat): seq<Rec>
    requires n <= |ops|
  {
    if n == 0 then []
    else
      FirstCalls(ops, n - 1) +
      if !NewIn(ops, n - 1) then []
      else match ops[n - 1] case AppendOp(e, _) => [EntryRec(e)] case MarkOp(id, _) => [MarkRec(id)]
  }

  predicate Known(book: Book, topic: (bool, EntryId)) {
    if topic.0 then topic.1 in book.published else HasId(book.entries, topic.1)
  }

  /** The journal knows an id exactly when a call on it has succeeded. */
  lemma {:induction false} KnownIff(ops: seq<Op>, topic: (bool, EntryId))
    ensures Known(Live(ops), topic) <==> exists j :: 0 <= j < |ops| && ops[j].ok && TopicOf(ops[j]) == topic
  {
    if ops != [] {
      KnownIff(Init(ops), topic);
      KnownAfter(Live(Init(ops)), Last(ops), topic);
      assert forall j :: 0 <= j < |Init(ops)| ==> Init(ops)[j] == ops[j];
      hide Known, Live;
      if Last(ops).ok && TopicOf(Last(ops)) == topic {
        assert ops[|ops| - 1].ok;
      }
    }
  }

  lemma {:induction false} KnownAfter(book: Book, op: Op, topic: (bool, EntryId))
    ensures Known(Journal.Perform(book, op), topic) <==> Known(book, topic) || (op.ok && TopicOf(op) == topic)
  {
    if op.AppendOp? && op.ok && !HasId(book.entries, op.e.id) {
      var after := book.entries + [op.e];
      assert after[|book.entries|] == op.e;
      assert forall i :: 0 <= i < |book.entries| ==> after[i] == book.entries[i];
    }
  }

  /** Whatever is called, the file gets one line for each entry and one for each mark, from the first call on
      its id that succeeds, and nothing else. */
  lemma {:induction false} OneLineForEach(ops: seq<Op>, n: nat)
    requires n <= |ops|
    ensures Written(ops[..n]) == FirstCalls(ops, n)
  {
    if n > 0 {
      OneLineForEach(ops, n - 1);
      InitOfTake(ops, n);
      KnownIff(ops[..n - 1], TopicOf(ops[n - 1]));
      assert forall j :: 0 <= j < n - 1 ==> ops[..n - 1][j] == ops[j];
      WritesIff(Live(ops[..n - 1]), ops[n - 1]);
      hide Known, Live, Writes;
    }
  }

  lemma {:induction false} WritesIff(book: Book, op: Op)
    ensures Writes(book, op) ==
              if !op.ok || Known(book, TopicOf(op)) then []
              else match op case AppendOp(e, _) => [EntryRec(e)] case MarkOp(id, _) => [MarkRec(id)]
  {}
}
