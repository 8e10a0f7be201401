/** Publishing the journal (x402/outbox.go): in journal order, at least once, with any pattern of
    failures, appends in between, and crashes between lines. */
module Outbox {
  import opened Common
  import opened Gateway
  import opened Journal
  import opened JournalFile

  /** The entries of one pass still to publish; `sent` says that the first one has been, and waits
      for its mark. */
  datatype Pass = Pass(todo: seq<Entry>, sent: bool)

  /** The file, what the journal knows, what the sink has received, and the pass under way. */
  datatype OutState = OutState(file: seq<Byte>, book: Book, stream: seq<Entry>, pass: Option<Pass>)

  datatype Step =
    | Appending(e: Entry, ok: bool)
    | StartPass
    | Publishing(ok: bool)
    | Marking(ok: bool)
    | Crash

  const Fresh: OutState := OutState([], Blank, [], None)

  function Perform(s: OutState, codec: Codec, op: Op): OutState {
    s.(file := s.file + FileOf(codec, Writes(s.book, op)), book := Journal.Perform(s.book, op))
  }

  /** A step that cannot happen changes nothing. A crash forgets the pass and replays the file. */
  function Advance(s: OutState, codec: Codec, step: Step): OutState {
    match step
    case Appending(e, ok) => Perform(s, codec, AppendOp(e, ok))
    case StartPass =>
      if s.pass.Some? && s.pass.value.todo != [] then s
      else s.(pass := Some(Pass(Backlog(s.book.entries, s.book.published), false)))
    case Publishing(ok) =>
      if s.pass.None? || s.pass.value.todo == [] || s.pass.value.sent then s
      else if !ok then s.(pass := None)
      else s.(stream := s.stream + [s.pass.value.todo[0]], pass := Some(s.pass.value.(sent := true)))
    case Marking(ok) =>
      if s.pass.None? || s.pass.value.todo == [] || !s.pass.value.sent then s
      else if !ok then s.(pass := None)
      else
        Perform(s, codec, MarkOp(s.pass.value.todo[0].id, true)).(pass := Some(Pass(s.pass.value.todo[1..], false)))
    case Crash => s.(book := Replay(codec, s.file), pass := None)
  }

  function Run(codec: Codec, steps: seq<Step>): OutState {
    if steps == [] then Fresh else Advance(Run(codec, Init(steps)), codec, Last(steps))
  }

  /** What a consumer that drops repeated ids makes of the stream. */
  function Deduped(stream: seq<Entry>): seq<Entry> {
    if stream == [] then [] else AppendEntry(Deduped(Init(stream)), Last(stream), true)
  }

  // ---- The invariant ----

  predicate DistinctIds(entries: seq<Entry>) {
    forall i, j :: 0 <= i < j < |entries| ==> entries[i].id != entries[j].id
  }

  /** The ids of the first m entries. */
  function Ids(entries: seq<Entry>, m: nat): set<EntryId>
    requires m <= |entries|
  {
    set i | 0 <= i < m :: entries[i].id
  }

  /** The sink has seen the marked entries and at most the next one, in order. */
  predicate Delivered(stream: seq<Entry>, entries: seq<Entry>, m: nat, next: bool)
    requires m <= |entries|
  {
    if next then m < |entries| && Deduped(stream) == entries[..m + 1]
    else Deduped(stream) == entries[..m]
  }

  ghost predicate PassOk(pass: Pass, entries: seq<Entry>, m: nat)
    requires m <= |entries|
  {
    exists c :: m <= c <= |entries| && pass.todo == entries[m..c]
  }

  /** The first m entries are marked, and next says whether the sink already has the one after. */
  ghost predicate InvAt(s: OutState, m: nat, next: bool) {
    && m <= |s.book.entries|
    && DistinctIds(s.book.entries)
    && s.book.published == Ids(s.book.entries, m)
    && Delivered(s.stream, s.book.entries, m, next)
    && (s.pass.Some? ==> PassOk(s.pass.value, s.book.entries, m))
    && (s.pass.Some? && s.pass.value.todo != [] && s.pass.value.sent ==> next)
  }

  /** The file is what was written, whole lines only. */
  ghost predicate FileOk(s: OutState, codec: Codec, recs: seq<Rec>) {
    s.file == FileOf(codec, recs) && s.book == BookOf(recs)
  }

  // ---- Proofs ----

  /** Leaving out the last entry, when it has no mark. */
  lemma {:induction false} MarksOfInit(entries: seq<Entry>, m: nat)
    requires m < |entries| && DistinctIds(entries)
    ensures DistinctIds(Init(entries)) && m <= |Init(entries)| && Ids(Init(entries), m) == Ids(entries, m)
    ensures Last(entries).id !in Ids(entries, m)
    ensures Init(entries)[m..] + [Last(entries)] == entries[m..]
  {}

  lemma {:induction false} BacklogIsRest(entries: seq<Entry>, m: nat)
    requires m <= |entries| && DistinctIds(entries)
    ensures Backlog(entries, Ids(entries, m)) == entries[m..]
    decreases |entries|
  {
    if m == |entries| {
      NoBacklog(entries, Ids(entries, m), |entries|);
      assert entries[..|entries|] == entries;
    } else {
      MarksOfInit(entries, m);
      hide Ids, DistinctIds;
      BacklogIsRest(Init(entries), m);
    }
  }

  lemma {:induction false} NoBacklog(entries: seq<Entry>, published: set<EntryId>, k: nat)
    requires k <= |entries| && forall i :: 0 <= i < k ==> entries[i].id in published
    ensures Backlog(entries[..k], published) == []
  {
    if k > 0 {
      InitOfTake(entries, k);
      NoBacklog(entries, published, k - 1);
    }
  }

  lemma {:induction false} AppendKeeps(s: OutState, codec: Codec, m: nat, next: bool, e: Entry, ok: bool)
    requires InvAt(s, m, next)
    ensures InvAt(Advance(s, codec, Appending(e, ok)), m, next)
  {
    hide FileOf, Writes, Deduped;
    var entries := s.book.entries;
    var entries' := AppendEntry(entries, e, ok);
    assert entries <= entries';
    assert entries'[..m] == entries[..m];
    assert next ==> entries'[..m + 1] == entries[..m + 1];
    assert Ids(entries', m) == Ids(entries, m);
    if s.pass.Some? {
      var c :| m <= c <= |entries| && s.pass.value.todo == entries[m..c];
      assert entries'[m..c] == entries[m..c];
    }
  }

  lemma {:induction false} StartKeeps(s: OutState, codec: Codec, m: nat, next: bool)
    requires InvAt(s, m, next)
    ensures InvAt(Advance(s, codec, StartPass), m, next)
  {
    hide Deduped, Backlog, Delivered;
    BacklogIsRest(s.book.entries, m);
    assert s.book.entries[m..] == s.book.entries[m..|s.book.entries|];
  }

  /** Whatever is published is the first entry without a mark. */
  lemma {:induction false} FirstOfPass(s: OutState, m: nat, next: bool)
    requires InvAt(s, m, next) && s.pass.Some? && s.pass.value.todo != []
    ensures m < |s.book.entries| && s.pass.value.todo[0] == s.book.entries[m]
    ensures PassOk(Pass(s.pass.value.todo[1..], false), s.book.entries, m + 1)
  {
    hide Delivered, DistinctIds;
    var entries := s.book.entries;
    var c :| m <= c <= |entries| && s.pass.value.todo == entries[m..c];
    assert entries[m..c][1..] == entries[m + 1..c];
  }

  lemma {:induction false} DedupeNext(stream: seq<Entry>, entries: seq<Entry>, m: nat, next: bool)
    requires m < |entries| && DistinctIds(entries) && Delivered(stream, entries, m, next)
    ensures Delivered(stream + [entries[m]], entries, m, true)
  {
    var e := entries[m];
    InitOfSnoc(stream, e);
    var d := Deduped(stream);
    assert Deduped(stream + [e]) == AppendEntry(d, e, true);
    if next {
      assert d[m].id == e.id;
    } else {
      assert !HasId(d, e.id);
      assert d + [e] == entries[..m + 1];
    }
  }

  lemma {:induction false} PublishKeeps(s: OutState, codec: Codec, m: nat, next: bool, ok: bool) returns (next': bool)
    requires InvAt(s, m, next)
    ensures InvAt(Advance(s, codec, Publishing(ok)), m, next')
  {
    hide Deduped, Delivered, DistinctIds, Ids;
    next' := next;
    if ok && s.pass.Some? && s.pass.value.todo != [] && !s.pass.value.sent {
      FirstOfPass(s, m, next);
      DedupeNext(s.stream, s.book.entries, m, next);
      next' := true;
    }
  }

  lemma {:induction false} MarkKeeps(s: OutState, codec: Codec, m: nat, next: bool, ok: bool)
      returns (m': nat, next': bool)
    requires InvAt(s, m, next)
    ensures InvAt(Advance(s, codec, Marking(ok)), m', next')
    ensures m' == if ok && s.pass.Some? && s.pass.value.todo != [] && s.pass.value.sent then m + 1 else m
  {
    hide Deduped, FileOf, Writes, DistinctIds;
    m', next' := m, next;
    if ok && s.pass.Some? && s.pass.value.todo != [] && s.pass.value.sent {
      FirstOfPass(s, m, next);
      assert Ids(s.book.entries, m + 1) == Ids(s.book.entries, m) + {s.book.entries[m].id};
      m', next' := m + 1, false;
    }
  }

  lemma {:induction false} PerformKeepsFile(s: OutState, codec: Codec, recs: seq<Rec>, op: Op) returns (recs': seq<Rec>)
    requires FileOk(s, codec, recs)
    ensures FileOk(Perform(s, codec, op), codec, recs')
    ensures recs' == recs + Writes(s.book, op)
  {
    hide LineOf, AppendEntry, HasId;
    recs' := recs + Writes(s.book, op);
    ConcatEmpty(recs);
    ConcatEmpty(s.file);
    if Writes(s.book, op) == [] {
      QuietOp(s.book, op);
    } else {
      var r := Writes(s.book, op)[0];
      OneLine(codec, r);
      InitOfSnoc(recs, r);
      WritingOp(s.book, op);
    }
  }

  lemma {:induction false} QuietOp(book: Book, op: Op)
    requires Writes(book, op) == []
    ensures Journal.Perform(book, op) == book
  {
    assert op.MarkOp? && op.ok ==> book.published + {op.id} == book.published;
  }

  lemma {:induction false} WritingOp(book: Book, op: Op)
    requires Writes(book, op) != []
    ensures Writes(book, op) == [Writes(book, op)[0]]
    ensures Journal.Perform(book, op) == Apply(book, Writes(book, op)[0])
  {}

  /** The codec can write an entry and its mark. */
  ghost predicate Writable(codec: Codec, e: Entry) { Good(codec, EntryRec(e)) && Good(codec, MarkRec(e.id)) }

  ghost predicate AllWritable(codec: Codec, entries: seq<Entry>) {
    forall i :: 0 <= i < |entries| ==> Writable(codec, entries[i])
  }

  ghost predicate Usable(codec: Codec, steps: seq<Step>) {
    forall i :: 0 <= i < |steps| && steps[i].Appending? ==> Writable(codec, steps[i].e)
  }

  ghost predicate Stored(s: OutState, codec: Codec, recs: seq<Rec>) {
    FileOk(s, codec, recs) && AllGood(codec, recs) && AllWritable(codec, s.book.entries)
  }

  lemma {:induction false} PerformStored(s: OutState, codec: Codec, recs: seq<Rec>, op: Op) returns (recs': seq<Rec>)
    requires Stored(s, codec, recs)
    requires match op case AppendOp(e, _) => Writable(codec, e) case MarkOp(id, _) => Good(codec, MarkRec(id))
    ensures Stored(Perform(s, codec, op), codec, recs')
  {
    hide FileOf, BookOf, Good, HasId;
    recs' := PerformKeepsFile(s, codec, recs, op);
  }

  /** A crash between lines loses nothing that was completed. */
  lemma {:induction false} CrashKeeps(s: OutState, codec: Codec, recs: seq<Rec>)
    requires Stored(s, codec, recs)
    ensures Advance(s, codec, Crash) == s.(pass := None)
  {
    hide FileOf, BookOf, Good, ReplayFrom;
    OpenWhole(codec, recs);
  }

  lemma {:induction false} StepStored(s: OutState, codec: Codec, recs: seq<Rec>, m: nat, next: bool, step: Step)
      returns (recs': seq<Rec>)
    requires Stored(s, codec, recs) && InvAt(s, m, next)
    requires step.Appending? ==> Writable(codec, step.e)
    ensures Stored(Advance(s, codec, step), codec, recs')
  {
    hide FileOf, BookOf, Good, Delivered, DistinctIds, Ids, AllGood;
    recs' := recs;
    match step
    case Appending(e, ok) => recs' := PerformStored(s, codec, recs, AppendOp(e, ok));
    case Marking(ok) =>
      if ok && s.pass.Some? && s.pass.value.todo != [] && s.pass.value.sent {
        FirstOfPass(s, m, next);
        assert Writable(codec, s.book.entries[m]);
        recs' := PerformStored(s, codec, recs, MarkOp(s.pass.value.todo[0].id, true));
      }
    case Crash => CrashKeeps(s, codec, recs);
    case _ =>
  }

  lemma {:induction false} StepKeeps(s: OutState, codec: Codec, recs: seq<Rec>, m: nat, next: bool, step: Step)
      returns (m': nat, next': bool)
    requires Stored(s, codec, recs) && InvAt(s, m, next)
    ensures InvAt(Advance(s, codec, step), m', next')
  {
    hide FileOf, Good, Stored, Delivered, DistinctIds, Ids;
    m', next' := m, next;
    match step
    case Appending(e, ok) => AppendKeeps(s, codec, m, next, e, ok);
    case StartPass => StartKeeps(s, codec, m, next);
    case Publishing(ok) => next' := PublishKeeps(s, codec, m, next, ok);
    case Marking(ok) => m', next' := MarkKeeps(s, codec, m, next, ok);
    case Crash => CrashKeeps(s, codec, recs);
  }

  lemma {:induction false} UsableInit(codec: Codec, steps: seq<Step>)
    requires Usable(codec, steps) && steps != []
    ensures Usable(codec, Init(steps)) && (Last(steps).Appending? ==> Writable(codec, Last(steps).e))
  {
    hide Writable;
    assert forall i :: 0 <= i < |Init(steps)| ==> Init(steps)[i] == steps[i];
  }

  lemma {:induction false} RunKeeps(codec: Codec, steps: seq<Step>) returns (recs: seq<Rec>, m: nat, next: bool)
    requires Usable(codec, steps)
    ensures Stored(Run(codec, steps), codec, recs) && InvAt(Run(codec, steps), m, next)
  {
    if steps == [] {
      recs, m, next := [], 0, false;
    } else {
      hide Usable, Stored, InvAt, Advance;
      UsableInit(codec, steps);
      recs, m, next := RunKeeps(codec, Init(steps));
      ghost var s := Run(codec, Init(steps));
      ghost var m', next' := StepKeeps(s, codec, recs, m, next, Last(steps));
      recs := StepStored(s, codec, recs, m, next, Last(steps));
      m, next := m', next';
    }
  }

  // ---- Results ----

  /** What the run looks like from outside: the marked entries are the first m in journal order, and
      the stream without repeats is those, or those and one more. */
  ghost predicate InOrder(s: OutState, m: nat) {
    && m <= |s.book.entries|
    && s.book.published == Ids(s.book.entries, m)
    && (Deduped(s.stream) == s.book.entries[..m]
        || (m < |s.book.entries| && Deduped(s.stream) == s.book.entries[..m + 1]))
  }

  /** Over any run of appends, passes with any sink and marker failures, and crashes between lines:
      publishing follows journal order without gaps. */
  lemma {:induction false} PublishedInOrder(codec: Codec, steps: seq<Step>)
    requires Usable(codec, steps)
    ensures exists m: nat :: InOrder(Run(codec, steps), m)
  {
    var recs, m, next := RunKeeps(codec, steps);
    hide Run, Deduped, Ids;
    assert InOrder(Run(codec, steps), m);
  }

  /** The only entry a sink can ever see again is the first one without a mark. */
  lemma {:induction false} OnlyNextRedelivered(codec: Codec, steps: seq<Step>, ok: bool)
    requires Usable(codec, steps)
    ensures var s := Run(codec, steps);
            var sent := Advance(s, codec, Publishing(ok)).stream;
            sent == s.stream
            || exists m: nat :: InOrder(s, m) && m < |s.book.entries| && sent == s.stream + [s.book.entries[m]]
  {
    var recs, m, next := RunKeeps(codec, steps);
    var s := Run(codec, steps);
    if s.pass.Some? && s.pass.value.todo != [] {
      FirstOfPass(s, m, next);
    }
    hide Run, Deduped, Ids;
    assert InOrder(s, m);
  }

  /** An entry is marked only after the sink has received it. */
  lemma {:induction false} MarkedMeansDelivered(codec: Codec, steps: seq<Step>, e: Entry)
    requires Usable(codec, steps)
    requires e in Run(codec, steps).book.entries && e.id in Run(codec, steps).book.published
    ensures e in Run(codec, steps).stream
  {
    var recs, m, next := RunKeeps(codec, steps);
    var s := Run(codec, steps);
    var i :| 0 <= i < m && s.book.entries[i].id == e.id;
    var j :| 0 <= j < |s.book.entries| && s.book.entries[j] == e;
    assert i == j;
    assert Deduped(s.stream)[i] == e;
    DedupedComesFrom(s.stream, e);
  }

  lemma {:induction false} DedupedComesFrom(stream: seq<Entry>, e: Entry)
    requires e in Deduped(stream)
    ensures e in stream
  {
    if e in Deduped(Init(stream)) {
      DedupedComesFrom(Init(stream), e);
      assert stream == Init(stream) + [Last(stream)];
    }
  }

  // ---- The publisher ----

  /** The rest of a pass, given which publish and mark calls succeed. */
  function PassRun(s: OutState, codec: Codec, publishOk: seq<bool>, markOk: seq<bool>): (s': OutState)
    requires s.pass.Some? && !s.pass.value.sent && |s.pass.value.todo| <= |publishOk| == |markOk|
    ensures s'.pass.None?
    decreases |publishOk|
  {
    if s.pass.value.todo == [] then s.(pass := None)
    else
      var s1 := Advance(s, codec, Publishing(publishOk[0]));
      if s1.pass.None? then s1
      else
        var s2 := Advance(s1, codec, Marking(markOk[0]));
        if s2.pass.None? then s2 else PassRun(s2, codec, publishOk[1..], markOk[1..])
  }

  /** The first entry of a pass, with what becomes of it. */
  lemma {:induction false} PassUnfolds(s: OutState, codec: Codec, publishOk: seq<bool>, markOk: seq<bool>)
    requires s.pass.Some? && !s.pass.value.sent && |s.pass.value.todo| <= |publishOk| == |markOk|
    requires s.pass.value.todo != []
    ensures var e, rest := s.pass.value.todo[0], s.pass.value.todo[1..];
            var sent := s.(stream := s.stream + [e]);
            PassRun(s, codec, publishOk, markOk) ==
              if !publishOk[0] then s.(pass := None)
              else if !markOk[0] then sent.(pass := None)
              else PassRun(Perform(sent, codec, MarkOp(e.id, true)).(pass := Some(Pass(rest, false))), codec,
                           publishOk[1..], markOk[1..])
  {
    hide FileOf, Writes, Journal.Perform;
  }

  predicate NoAppends(steps: seq<Step>) { forall i :: 0 <= i < |steps| ==> !steps[i].Appending? }

  lemma {:induction false} RunSnoc(codec: Codec, steps: seq<Step>, step: Step)
    ensures Run(codec, steps + [step]) == Advance(Run(codec, steps), codec, step)
  {
    InitOfSnoc(steps, step);
  }

  /** A whole pass is a run of the machine, so what holds of all runs holds after every pass. */
  lemma {:induction false} PassIsRun(codec: Codec, steps: seq<Step>, publishOk: seq<bool>, markOk: seq<bool>)
      returns (more: seq<Step>)
    requires var s := Run(codec, steps);
             s.pass.Some? && !s.pass.value.sent && |s.pass.value.todo| <= |publishOk| == |markOk|
    ensures Run(codec, steps + more).(pass := None) == PassRun(Run(codec, steps), codec, publishOk, markOk)
    ensures NoAppends(more)
    decreases |publishOk|
  {
    hide Advance, Run;
    var s := Run(codec, steps);
    if s.pass.value.todo == [] {
      more := [];
      ConcatEmpty(steps);
    } else {
      var publish, mark := Publishing(publishOk[0]), Marking(markOk[0]);
      var s1 := Advance(s, codec, publish);
      RunSnoc(codec, steps, publish);
      if s1.pass.None? {
        more := [publish];
      } else {
        RunSnoc(codec, steps + [publish], mark);
        ConcatAssoc(steps, [publish], [mark]);
        var s2 := Advance(s1, codec, mark);
        if s2.pass.None? {
          more := [publish] + [mark];
        } else {
          PassStep(s, codec, publishOk[0], markOk[0]);
          var rest := PassIsRun(codec, steps + [publish] + [mark], publishOk[1..], markOk[1..]);
          more := [publish] + [mark] + rest;
          ConcatAssoc(steps, [publish] + [mark], rest);
        }
      }
    }
  }

  lemma {:induction false} PassStep(s: OutState, codec: Codec, publishOk: bool, markOk: bool)
    requires s.pass.Some? && !s.pass.value.sent && s.pass.value.todo != []
    ensures var s1 := Advance(s, codec, Publishing(publishOk));
            var s2 := Advance(s1, codec, Marking(markOk));
            s1.pass.Some? && s2.pass.Some? ==> !s2.pass.value.sent && s2.pass.value.todo == s.pass.value.todo[1..]
  {}

  class Publisher {
    const journal: FileJournal

    /** What the sink has accepted. */
    ghost var stream: seq<Entry>

    ghost function View(pass: Option<Pass>): OutState
      reads this, journal
    {
      OutState(journal.file, journal.View(), stream, pass)
    }

    constructor (journal: FileJournal)
      ensures this.journal == journal && stream == []
    {
      this.journal := journal;
      stream := [];
    }

    /** Publish the backlog in order; the first failure, of the sink or of a mark, ends the pass. */
    method Drain(publishOk: seq<bool>, markOk: seq<bool>)
      requires journal.Valid() && |Backlog(journal.entries, journal.published)| <= |publishOk| == |markOk|
      modifies this, journal`file, journal`published
      ensures journal.Valid()
      ensures View(None) ==
                PassRun(Advance(old(View(None)), journal.codec, StartPass), journal.codec, publishOk, markOk)
    {
      hide FileOf, Writes, PassRun;
      var todo := journal.Unpublished();
      var i := 0;
      assert todo[0..] == todo && publishOk[0..] == publishOk && markOk[0..] == markOk;
      while i < |todo|
        invariant 0 <= i <= |todo|
        invariant journal.Valid()
        invariant PassRun(View(Some(Pass(todo[i..], false))), journal.codec, publishOk[i..], markOk[i..])
               == PassRun(Advance(old(View(None)), journal.codec, StartPass), journal.codec, publishOk, markOk)
      {
        var e := todo[i];
        ghost var s := View(Some(Pass(todo[i..], false)));
        Tails(todo, publishOk, markOk, i);
        PassUnfolds(s, journal.codec, publishOk[i..], markOk[i..]);
        if !publishOk[i] {
          return;
        }
        stream := stream + [e];
        var marked := markOk[i];
        if !marked {
          return;
        }
        marked := journal.MarkPublished(e.id, true);
        i := i + 1;
      }
      PassEnds(View(Some(Pass([], false))), journal.codec, publishOk[i..], markOk[i..]);
    }

    lemma {:induction false} PassEnds(s: OutState, codec: Codec, publishOk: seq<bool>, markOk: seq<bool>)
      requires s.pass == Some(Pass([], false)) && |publishOk| == |markOk|
      ensures PassRun(s, codec, publishOk, markOk) == s.(pass := None)
    {}

    lemma {:induction false} Tails(todo: seq<Entry>, publishOk: seq<bool>, markOk: seq<bool>, i: nat)
      requires i < |todo| <= |publishOk| == |markOk|
      ensures todo[i..][0] == todo[i] && todo[i..][1..] == todo[i + 1..]
      ensures publishOk[i..][0] == publishOk[i] && publishOk[i..][1..] == publishOk[i + 1..]
      ensures markOk[i..][0] == markOk[i] && markOk[i..][1..] == markOk[i + 1..]
    {}
  }
}
