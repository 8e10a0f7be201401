/** A line codec for any finite table of records: what the journal asks of its codec can be met. */
module TableCodec {
  import opened Common
  import opened Gateway
  import opened Journal

  const OPEN_BRACE: Byte := 123
  const CLOSE_BRACE: Byte := 125
  const ZERO: Byte := 48

  function Zeros(k: nat): (z: seq<Byte>)
    ensures |z| == k && forall i :: 0 <= i < k ==> z[i] == ZERO
  {
    if k == 0 then [] else Zeros(k - 1) + [ZERO]
  }

  function IndexOf(table: seq<Rec>, r: Rec): (i: nat)
    requires r in table
    ensures i < |table| && table[i] == r
  {
    if table[0] == r then 0 else 1 + IndexOf(table[1..], r)
  }

  /** Braces around as many zeros as the record's place in the table. */
  function Encode(table: seq<Rec>, r: Rec): seq<Byte> {
    if r in table then [OPEN_BRACE] + Zeros(IndexOf(table, r)) + [CLOSE_BRACE] else []
  }

  function Decode(table: seq<Rec>, b: seq<Byte>): Option<Rec> {
    if 2 <= |b| <= |table| + 1 && b[0] == OPEN_BRACE && Last(b) == CLOSE_BRACE
       && forall i :: 0 < i < |b| - 1 ==> b[i] == ZERO
    then Some(table[|b| - 2]) else None
  }

  function CodecOf(table: seq<Rec>): Codec {
    Codec(r => Encode(table, r), b => Decode(table, b))
  }

  /** Every record of the table is good, and no line glued to another parses. */
  lemma {:induction false} TableCodecIsGood(table: seq<Rec>, a: Rec, b: Rec)
    requires |table| < LINE_LIMIT - 2 && a in table && b in table
    ensures Good(CodecOf(table), a) && Unglued(CodecOf(table), a, b)
  {
    var codec := CodecOf(table);
    var line := Encode(table, a);
    assert line[0] == OPEN_BRACE && line[|line| - 1] == CLOSE_BRACE;
    assert forall i :: 0 < i < |line| - 1 ==> line[i] == ZERO;
    assert Decode(table, line) == Some(a);
    forall i | 0 <= i < |line|
      ensures Decode(table, line[..i]) == None
    {
      if i >= 2 {
        assert Last(line[..i]) == line[i - 1] == ZERO;
      }
    }
    forall i | 0 < i <= |line|
      ensures Decode(table, line[..i] + Encode(table, b)) == None
    {
      var glued := line[..i] + Encode(table, b);
      assert glued[i] == OPEN_BRACE;
    }
  }

  /** A journal of one entry loses its last byte in a crash. It still reads as whole, but the next
      entry appended to it is lost, and takes the first one along. */
  lemma {:induction false} TornNewlineLosesBoth()
    ensures var a, b := Entry(OfTx(1), SettlementBody(1, 5, 0)), Entry(OfTx(2), SettlementBody(1, 5, 0));
            var codec := CodecOf([EntryRec(a), EntryRec(b)]);
            var cut := Init(FileOf(codec, [EntryRec(a)]));
            && Good(codec, EntryRec(a)) && Good(codec, EntryRec(b))
            && Replay(codec, cut) == Book([a], {})
            && Replay(codec, cut + LineOf(codec, EntryRec(b))) == Blank
  {
    var a, b := Entry(OfTx(1), SettlementBody(1, 5, 0)), Entry(OfTx(2), SettlementBody(1, 5, 0));
    var table := [EntryRec(a), EntryRec(b)];
    var codec := CodecOf(table);
    assert a in [a, b] && b in [a, b] && EntryRec(a) == table[0] && EntryRec(b) == table[1];
    TableCodecIsGood(table, EntryRec(a), EntryRec(b));
    TableCodecIsGood(table, EntryRec(b), EntryRec(a));
    hide Encode, Decode, CodecOf, ReplayFrom, Good, Unglued;
    var line := codec.enc(EntryRec(a));
    assert |line| > 0 by {
      GoodLine(codec, EntryRec(a));
    }
    assert Init(FileOf(codec, [EntryRec(a)])) == line == line[..|line|] by {
      assert Init([EntryRec(a)]) == [];
      ConcatEmpty(LineOf(codec, EntryRec(a)));
      InitOfSnoc(line, NEWLINE);
    }
    ReplayTail(Blank, codec, EntryRec(a), |line|);
    assert [] + [a] == [a];
    GluedLine(Blank, codec, EntryRec(a), EntryRec(b), |line|);
  }

  lemma {:induction false} GoodLine(codec: Codec, r: Rec)
    requires Good(codec, r)
    ensures |codec.enc(r)| > 0
  {}
}
