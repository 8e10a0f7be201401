/** How far one pass of the outbox gets (x402/outbox.go): exactly to its first failure. */
module OutboxLaws {
  import opened Common
  import opened Gateway
  import opened Journal
  import opened JournalFile
  import opened Outbox

  /** How many entries are published and marked before the first call that fails. */
  function Firm(publishOk: seq<bool>, markOk: seq<bool>, n: nat): (k: nat)
    requires n <= |publishOk| == |markOk|
    ensures k <= n
    ensures forall i :: 0 <= i < k ==> publishOk[i] && markOk[i]
    ensures k < n ==> !(publishOk[k] && markOk[k])
    decreases n
  {
    if n == 0 || !publishOk[0] || !markOk[0] then 0
    else
      var k := Firm(publishOk[1..], markOk[1..], n - 1);
      assert forall i :: 0 < i < k + 1 ==> publishOk[i] == publishOk[1..][i - 1] && markOk[i] == markOk[1..][i - 1];
      k + 1
  }

  /** The entry whose mark fails has been sent all the same. */
  function Sent(publishOk: seq<bool>, markOk: seq<bool>, n: nat): (k: nat)
    requires n <= |publishOk| == |markOk|
    ensures k <= n
  {
    var k := Firm(publishOk, markOk, n);
    if k < n && publishOk[k] then k + 1 else k
  }

  lemma {:induction false} IdsOfFirst(entries: seq<Entry>, k: nat)
    requires 0 < k <= |entries|
    ensures Ids(entries, k) == {entries[0].id} + Ids(entries[1..], k - 1)
  {
    forall i | 0 < i < k
      ensures entries[i].id in Ids(entries[1..], k - 1)
    {
      assert entries[1..][i - 1] == entries[i];
    }
  }

  lemma {:induction false} PassEffect(s: OutState, codec: Codec, publishOk: seq<bool>, markOk: seq<bool>)
    requires s.pass.Some? && !s.pass.value.sent && |s.pass.value.todo| <= |publishOk| == |markOk|
    ensures var todo, s' := s.pass.value.todo, PassRun(s, codec, publishOk, markOk);
            && s'.pass.None? && s'.book.entries == s.book.entries
            && s'.stream == s.stream + todo[..Sent(publishOk, markOk, |todo|)]
            && s'.book.published == s.book.published + Ids(todo, Firm(publishOk, markOk, |todo|))
    decreases |publishOk|
  {
    var todo := s.pass.value.todo;
    hide PassRun, FileOf, Writes, Firm, Sent, Ids;
    if todo == [] {
      EmptyPass(s, codec, publishOk, markOk);
    } else {
      PassUnfolds(s, codec, publishOk, markOk);
      if publishOk[0] && markOk[0] {
        var sent := s.(stream := s.stream + [todo[0]]);
        var next := Outbox.Perform(sent, codec, MarkOp(todo[0].id, true)).(pass := Some(Pass(todo[1..], false)));
        PassEffect(next, codec, publishOk[1..], markOk[1..]);
        FirstSent(s.stream, todo, publishOk, markOk);
      } else {
        FirstFails(s.stream, todo, publishOk, markOk);
      }
    }
  }

  lemma {:induction false} FirstSent(stream: seq<Entry>, todo: seq<Entry>, publishOk: seq<bool>, markOk: seq<bool>)
    requires 0 < |todo| <= |publishOk| == |markOk| && publishOk[0] && markOk[0]
    ensures var n := Sent(publishOk[1..], markOk[1..], |todo| - 1);
            && Sent(publishOk, markOk, |todo|) == n + 1
            && stream + [todo[0]] + todo[1..][..n] == stream + todo[..n + 1]
    ensures var k := Firm(publishOk[1..], markOk[1..], |todo| - 1);
            && Firm(publishOk, markOk, |todo|) == k + 1
            && Ids(todo, k + 1) == {todo[0].id} + Ids(todo[1..], k)
  {
    IdsOfFirst(todo, Firm(publishOk[1..], markOk[1..], |todo| - 1) + 1);
    var n := Sent(publishOk[1..], markOk[1..], |todo| - 1);
    ConcatAssoc(stream, [todo[0]], todo[1..][..n]);
    assert [todo[0]] + todo[1..][..n] == todo[..n + 1];
  }

  lemma {:induction false} FirstFails(stream: seq<Entry>, todo: seq<Entry>, publishOk: seq<bool>, markOk: seq<bool>)
    requires 0 < |todo| <= |publishOk| == |markOk| && !(publishOk[0] && markOk[0])
    ensures Firm(publishOk, markOk, |todo|) == 0 && Ids(todo, 0) == {}
    ensures stream + todo[..Sent(publishOk, markOk, |todo|)] == if publishOk[0] then stream + [todo[0]] else stream
  {
    assert todo[..1] == [todo[0]];
    assert todo[..0] == [];
    ConcatEmpty(stream);
  }

  lemma {:induction false} EmptyPass(s: OutState, codec: Codec, publishOk: seq<bool>, markOk: seq<bool>)
    requires s.pass.Some? && !s.pass.value.sent && s.pass.value.todo == [] && |publishOk| == |markOk|
    ensures PassRun(s, codec, publishOk, markOk) == s.(pass := None)
    ensures Ids([], Firm(publishOk, markOk, 0)) == {}
    ensures Sent(publishOk, markOk, 0) == 0 && s.stream + [][..0] == s.stream
  {}

  /** No pass is under way, or it has nothing left to do. */
  predicate BetweenPasses(s: OutState) { s.pass.Some? ==> s.pass.value.todo == [] }

  /** Wherever a run has got to: when the first m entries are marked, a pass sends the next ones in order and
      marks them, up to the first call that fails; an entry that was sent and could not be marked
      is sent again by the next pass. */
  lemma {:induction false} PassGetsAsFarAs(codec: Codec, s: OutState, m: nat, next: bool, publishOk: seq<bool>,
      markOk: seq<bool>)
    requires InvAt(s, m, next) && BetweenPasses(s)
    requires |Backlog(s.book.entries, s.book.published)| <= |publishOk| == |markOk|
    ensures var rest := Backlog(s.book.entries, s.book.published);
            var s' := PassRun(Advance(s, codec, StartPass), codec, publishOk, markOk);
            && rest == s.book.entries[m..] && s'.pass.None? && s'.book.entries == s.book.entries
            && s'.stream == s.stream + rest[..Sent(publishOk, markOk, |rest|)]
            && s'.book.published == Ids(s.book.entries, m + Firm(publishOk, markOk, |rest|))
  {
    hide PassRun, Advance, InvAt, Backlog, Ids, Firm, Sent;
    RestOf(s, m, next);
    Starts(s, codec);
    var rest := Backlog(s.book.entries, s.book.published);
    PassOver(s, codec, rest, publishOk, markOk);
    IdsJoin(s.book.entries, m, Firm(publishOk, markOk, |rest|));
  }

  lemma {:induction false} RestOf(s: OutState, m: nat, next: bool)
    requires InvAt(s, m, next)
    ensures m <= |s.book.entries| && s.book.published == Ids(s.book.entries, m) && DistinctIds(s.book.entries)
    ensures Backlog(s.book.entries, s.book.published) == s.book.entries[m..]
  {
    hide Ids, Backlog, Outbox.Delivered;
    BacklogIsRest(s.book.entries, m);
  }

  lemma {:induction false} PassOver(s: OutState, codec: Codec, rest: seq<Entry>, publishOk: seq<bool>,
      markOk: seq<bool>)
    requires |rest| <= |publishOk| == |markOk|
    ensures var s' := PassRun(s.(pass := Some(Pass(rest, false))), codec, publishOk, markOk);
            && s'.pass.None? && s'.book.entries == s.book.entries
            && s'.stream == s.stream + rest[..Sent(publishOk, markOk, |rest|)]
            && s'.book.published == s.book.published + Ids(rest, Firm(publishOk, markOk, |rest|))
  {
    hide PassRun, Ids, Firm, Sent;
    PassEffect(s.(pass := Some(Pass(rest, false))), codec, publishOk, markOk);
  }

  lemma {:induction false} Starts(s: OutState, codec: Codec)
    requires BetweenPasses(s)
    ensures Advance(s, codec, StartPass) == s.(pass := Some(Pass(Backlog(s.book.entries, s.book.published), false)))
  {}

  lemma {:induction false} IdsJoin(entries: seq<Entry>, m: nat, k: nat)
    requires m + k <= |entries|
    ensures Ids(entries, m) + Ids(entries[m..], k) == Ids(entries, m + k)
  {
    forall i | m <= i < m + k
      ensures entries[i].id in Ids(entries[m..], k)
    {
      assert entries[m..][i - m] == entries[i];
    }
  }

  lemma {:induction false} NothingFails(publishOk: seq<bool>, markOk: seq<bool>, n: nat)
    requires n <= |publishOk| == |markOk| && forall i :: 0 <= i < |publishOk| ==> publishOk[i] && markOk[i]
    ensures Firm(publishOk, markOk, n) == Sent(publishOk, markOk, n) == n
  {}

  lemma {:induction false} FewerIds(entries: seq<Entry>, m: nat)
    requires m <= |entries| && DistinctIds(entries)
    ensures m < |entries| ==> Ids(entries, m) != Ids(entries, |entries|)
  {
    if m < |entries| {
      assert entries[m].id in Ids(entries, |entries|) && entries[m].id !in Ids(entries, m);
    }
  }

  lemma {:induction false} AllMarked(s: OutState, m: nat)
    requires InOrder(s, m) && DistinctIds(s.book.entries) && s.book.published == Ids(s.book.entries, |s.book.entries|)
    ensures Deduped(s.stream) == s.book.entries && Backlog(s.book.entries, s.book.published) == []
  {
    var entries := s.book.entries;
    FewerIds(entries, m);
    assert entries[..|entries|] == entries;
    hide Deduped;
    NoBacklog(entries, s.book.published, |entries|);
  }

  /** So after any run a pass in which nothing fails leaves no entry without a mark, and a consumer that drops
      repeated ids has the whole journal in order. */
  lemma {:induction false} QuietPassDrains(codec: Codec, steps: seq<Outbox.Step>, all: seq<bool>)
    requires Usable(codec, steps) && BetweenPasses(Run(codec, steps))
    requires |Run(codec, steps).book.entries| <= |all| && forall i :: 0 <= i < |all| ==> all[i]
    ensures var s := Run(codec, steps);
            |Backlog(s.book.entries, s.book.published)| <= |all|
    ensures var s := Run(codec, steps);
            var s' := PassRun(Advance(s, codec, StartPass), codec, all, all);
            && s'.book.entries == s.book.entries
            && Backlog(s'.book.entries, s'.book.published) == []
            && Deduped(s'.stream) == s.book.entries
  {
    var recs, m, next := RunKeeps(codec, steps);
    var s := Run(codec, steps);
    MarksEverything(codec, s, m, next, all);
    hide InvAt, Advance, Run, Deduped, PassRun, Backlog, Ids, Usable, DistinctIds;
    RunSnoc(codec, steps, StartPass);
    Starts(s, codec);
    var more := PassIsRun(codec, steps + [StartPass], all, all);
    StillUsable(codec, steps, [StartPass] + more);
    ConcatAssoc(steps, [StartPass], more);
    PublishedInOrder(codec, steps + [StartPass] + more);
    var s' := PassRun(Advance(s, codec, StartPass), codec, all, all);
    var k: nat :| InOrder(Run(codec, steps + [StartPass] + more), k);
    assert InOrder(s', k);
    AllMarked(s', k);
  }

  lemma {:induction false} MarksEverything(codec: Codec, s: OutState, m: nat, next: bool, all: seq<bool>)
    requires InvAt(s, m, next) && BetweenPasses(s)
    requires |s.book.entries| <= |all| && forall i :: 0 <= i < |all| ==> all[i]
    ensures |Backlog(s.book.entries, s.book.published)| <= |all| && DistinctIds(s.book.entries)
    ensures var s' := PassRun(Advance(s, codec, StartPass), codec, all, all);
            s'.book.entries == s.book.entries && s'.book.published == Ids(s.book.entries, |s.book.entries|)
  {
    hide PassRun, Advance, InvAt, Backlog, Ids, DistinctIds;
    RestOf(s, m, next);
    NothingFails(all, all, |s.book.entries| - m);
    PassGetsAsFarAs(codec, s, m, next, all, all);
  }

  lemma {:induction false} StillUsable(codec: Codec, steps: seq<Outbox.Step>, more: seq<Outbox.Step>)
    requires Usable(codec, steps) && NoAppends(more)
    ensures Usable(codec, steps + more)
  {
    hide Writable;
  }

  // ---- Repetitions ----

  /** An entry of the pass under way has been sent and waits for its mark. */
  predicate Waits(s: OutState) { s.pass.Some? && s.pass.value.todo != [] && s.pass.value.sent }

  /** The sink has each marked entry once, and the one that waits for its mark. */
  ghost predicate Exact(s: OutState, m: nat) {
    && m <= |s.book.entries|
    && s.stream == s.book.entries[..m] + if Waits(s) then [s.pass.value.todo[0]] else []
  }

  predicate NothingLost(steps: seq<Outbox.Step>) {
    forall i :: 0 <= i < |steps| ==> !steps[i].Crash? && steps[i] != Marking(false)
  }

  lemma {:induction false} ExactStep(s: OutState, codec: Codec, m: nat, next: bool, step: Outbox.Step)
      returns (m': nat, next': bool)
    requires InvAt(s, m, next) && Exact(s, m) && !step.Crash? && step != Marking(false)
    ensures InvAt(Advance(s, codec, step), m', next') && Exact(Advance(s, codec, step), m')
  {
    hide FileOf, Writes, Outbox.Delivered, DistinctIds, Ids, Deduped, Backlog, PassOk;
    m', next' := m, next;
    match step
    case Appending(e, ok) =>
      AppendKeeps(s, codec, m, next, e, ok);
      assert AppendEntry(s.book.entries, e, ok)[..m] == s.book.entries[..m];
    case StartPass => StartKeeps(s, codec, m, next);
    case Publishing(ok) =>
      next' := PublishKeeps(s, codec, m, next, ok);
      ConcatEmpty(s.book.entries[..m]);
    case Marking(ok) =>
      m', next' := MarkKeeps(s, codec, m, next, ok);
      if Waits(s) {
        FirstOfPass(s, m, next);
        assert s.book.entries[..m] + [s.book.entries[m]] == s.book.entries[..m + 1];
      }
  }

  lemma {:induction false} NothingLostInit(steps: seq<Outbox.Step>)
    requires NothingLost(steps) && steps != []
    ensures NothingLost(Init(steps)) && !Last(steps).Crash? && Last(steps) != Marking(false)
  {}

  lemma {:induction false} ExactRun(codec: Codec, steps: seq<Outbox.Step>) returns (m: nat, next: bool)
    requires Usable(codec, steps) && NothingLost(steps)
    ensures InvAt(Run(codec, steps), m, next) && Exact(Run(codec, steps), m)
  {
    if steps == [] {
      m, next := 0, false;
    } else {
      hide Usable, NothingLost, InvAt, Exact, Advance;
      UsableInit(codec, steps);
      NothingLostInit(steps);
      m, next := ExactRun(codec, Init(steps));
      m, next := ExactStep(Run(codec, Init(steps)), codec, m, next, Last(steps));
    }
  }

  /** As long as no mark fails and nothing crashes, whatever else fails, the sink receives nothing twice: it has
      exactly the marked entries, in order, and at most the one that waits for its mark. */
  lemma {:induction false} NothingTwiceUnlessLost(codec: Codec, steps: seq<Outbox.Step>)
    requires Usable(codec, steps) && NothingLost(steps)
    ensures var s := Run(codec, steps);
            && s.stream <= s.book.entries
            && s.book.published <= (set e | e in s.stream :: e.id)
            && (forall i, j :: 0 <= i < j < |s.stream| ==> s.stream[i].id != s.stream[j].id)
            && |s.stream| <= |s.book.published| + 1
  {
    var m, next := ExactRun(codec, steps);
    var s := Run(codec, steps);
    if Waits(s) {
      FirstOfPass(s, m, next);
    }
    hide Run, Deduped;
    IdsCount(s.book.entries, m);
    assert s.stream == s.book.entries[..|s.stream|];
    forall i | 0 <= i < m
      ensures s.book.entries[i] in s.stream
    {
      assert s.stream[i] == s.book.entries[i];
    }
  }

  lemma {:induction false} IdsCount(entries: seq<Entry>, m: nat)
    requires m <= |entries| && DistinctIds(entries)
    ensures |Ids(entries, m)| == m
  {
    if m > 0 {
      IdsCount(entries, m - 1);
      assert Ids(entries, m) == Ids(entries, m - 1) + {entries[m - 1].id};
    }
  }
}
