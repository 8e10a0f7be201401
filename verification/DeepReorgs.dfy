/** What the ledger does about reorgs past its checkpoint, in every state it can reach, whether or
    not an earlier sync skipped an event. */
module DeepReorgs {
  import opened Common
  import opened Transfers
  import opened Chain
  import opened IncrementalLedger
  import opened LedgerAgreement
  import FailedMerges

  /** The records are blocks of the history h above `base`, in ascending order. */
  ghost predicate PartOf(p: seq<BlockRecord>, base: nat, h: Blocks) {
    && Ascending(p)
    && forall i :: 0 <= i < |p| ==> base <= p[i].number < |h| && p[i].hash == CanonHash(h, p[i].number)
  }

  /** Everything the ledger remembers is on the one history h. */
  ghost predicate Within(s: State, h: Blocks) {
    && PartOf(s.pending, Base(s), h)
    && (s.hasCheckpoint ==> |s.finalizedHash| == s.finalizedBlock + 1 && s.finalizedHash <= h)
  }

  function Newest(s: State): Hash {
    if s.pending != [] then Last(s.pending).hash else s.finalizedHash
  }

  /** What holds even after an event was skipped or a merge was cut short: the ledger remembers blocks
      of one history, the checkpoint below the window, and has looked at least that far. */
  ghost predicate Rooted(s: State) {
    && (s.hasCheckpoint ==> s.baseline)
    && (!s.hasCheckpoint ==> s.finalizedBlock == 0)
    && (!s.baseline ==> s.pending == [])
    && Within(s, Newest(s))
    && (s.baseline ==> TrustedHead(s.pending, s.finalizedBlock) <= s.lastSeen)
  }

  // ---- Every sync keeps it ----

  lemma {:induction false} PartOfOther(p: seq<BlockRecord>, base: nat, h: Blocks, c: Blocks)
    requires PartOf(p, base, h)
    requires p != [] ==> Last(p).hash <= c
    ensures PartOf(p, base, c)
  {
    if p != [] {
      var n := Last(p).number;
      forall i | 0 <= i < |p| ensures p[i].number < |c| && p[i].hash == CanonHash(c, p[i].number) {
        CanonicalAncestors(h, Last(p).hash, n, p[i].number);
        assert h[..n + 1] == c[..n + 1];
        assert c[..n + 1][..p[i].number + 1] == c[..p[i].number + 1];
      }
    }
  }

  /** The newest remembered block decides whether all the others are on the chain. */
  lemma {:induction false} NewestDecides(s: State, c: Blocks)
    requires Rooted(s) && Newest(s) <= c
    ensures Within(s, c)
  {
    PartOfOther(s.pending, Base(s), Newest(s), c);
  }

  lemma {:induction false} PoppedRooted(s: State)
    requires Rooted(s) && s.pending != []
    ensures Rooted(Popped(s)) && s.finalizedBlock <= Last(s.pending).number
    ensures Popped(s).pending != [] ==> Last(Popped(s).pending).number < Last(s.pending).number
  {
    var popped := Init(s.pending);
    var h := Newest(s);
    assert PartOf(popped, Base(s), h);
    if popped != [] {
      assert Last(popped) == s.pending[|s.pending| - 2];
      assert Last(popped).hash == CanonHash(h, Last(popped).number);
      PartOfOther(popped, Base(s), h, Last(popped).hash);
    }
  }

  lemma {:induction false} RewindRooted(s: State, c: Blocks)
    requires Rooted(s)
    ensures var r := RewindReorg(s, c).0;
            var status := RewindReorg(s, c).1;
            && Rooted(r)
            && SameFinalized(s, r)
            && (status == Synced ==> Within(r, c))
            && (status == Synced <==> CheckpointHolds(s, c) && ReachesWindow(s, c))
            && (status.Synced? || status.HeaderNotFound? || status.DeepReorg?)
            && (status.DeepReorg? || s.pending == [] ==> r.pending == [])
    decreases |s.pending|
  {
    if s.pending != [] {
      var top := Last(s.pending);
      if top.number < |c| {
        if CanonHash(c, top.number) == top.hash {
          NewestDecides(s, c);
        } else {
          PoppedRooted(s);
          RewindRooted(Popped(s), c);
        }
      }
    } else if s.hasCheckpoint && s.finalizedBlock < |c| {
      assert CanonHash(c, s.finalizedBlock) == s.finalizedHash <==> s.finalizedHash <= c;
    }
  }

  lemma {:induction false} RewindKeepsRooted(s: State, c: Blocks, lost: Option<nat>)
    requires Rooted(s)
    ensures var r := Rewind(s, c, lost).0; Rooted(r) && SameFinalized(s, r) && (s.pending == [] ==> r.pending == [])
    decreases |s.pending|
  {
    if s.pending != [] {
      RewindsOne(s, c, lost);
      hide Rooted, Rewind;
      PoppedRooted(s);
      RewindKeepsRooted(Popped(s), c, OneLess(lost));
    }
  }

  lemma {:induction false} RecordsPartOf(c: Blocks, from: nat, to: nat)
    requires to <= |c|
    ensures PartOf(Records(c, from, to), from, c)
  {
    hide LogEvents;
    if from < to {
      RecordsPartOf(c, from, to - 1);
      RecordsAscending(c, from, to);
    }
  }

  lemma {:induction false} PartOfConcat(p: seq<BlockRecord>, q: seq<BlockRecord>, base: nat, from: nat, c: Blocks)
    requires PartOf(p, base, c) && PartOf(q, from, c) && base <= from
    requires p != [] ==> Last(p).number < from
    ensures PartOf(p + q, base, c)
  {
    forall i, j | 0 <= i < j < |p + q| ensures (p + q)[i].number < (p + q)[j].number {
      if i < |p| <= j {
        assert p[i].number <= Last(p).number;
      }
    }
  }

  ghost predicate Below(p: seq<BlockRecord>, n: nat) {
    forall i :: 0 <= i < |p| ==> p[i].number < n
  }

  lemma {:induction false} PartOfInit(p: seq<BlockRecord>, base: nat, c: Blocks)
    requires PartOf(p, base, c) && p != []
    ensures PartOf(Init(p), base, c) && Below(Init(p), Last(p).number) && PartOf([Last(p)], base, c)
  {
    assert Last(p) == p[|p| - 1] && forall i :: 0 <= i < |Init(p)| ==> Init(p)[i] == p[i];
  }

  lemma {:induction false} PartOfSnoc(p: seq<BlockRecord>, br: BlockRecord, base: nat, low: nat, c: Blocks)
    requires PartOf(p, base, c) && Below(p, br.number) && PartOf([br], low, c) && base <= br.number
    ensures PartOf(p + [br], base, c) && Below(p + [br], br.number + 1)
  {
    assert [br][0] == br;
  }

  lemma {:induction false} BelowMore(p: seq<BlockRecord>, n: nat, more: nat)
    requires Below(p, n) && n <= more
    ensures Below(p, more)
  {}

  lemma {:induction false} LastBelow(p: seq<BlockRecord>, n: nat)
    requires Below(p, n) && p != []
    ensures Last(p).number < n
  {}

  lemma {:induction false} AbovePartOf(p: seq<BlockRecord>, base: nat, c: Blocks, target: nat, n: nat)
    requires PartOf(p, base, c) && Below(p, n)
    ensures PartOf(Above(p, target), if target + 1 < base then base else target + 1, c) && Below(Above(p, target), n)
  {
    var low := if target + 1 < base then base else target + 1;
    if p == [] {
      EmptyPartOf(low, c);
    } else {
      var br := Last(p);
      PartOfInit(p, base, c);
      LastBelow(p, n);
      assert base <= br.number by {
        assert [br][0] == br;
      }
      hide PartOf, Below, Ascending, CanonHash;
      AbovePartOf(Init(p), base, c, target, br.number);
      if br.number <= target {
        BelowMore(Above(Init(p), target), br.number, n);
      } else {
        PartOfSnoc(Above(Init(p), target), br, low, base, c);
        BelowMore(Above(p, target), br.number + 1, n);
      }
    }
  }

  lemma {:induction false} EmptyPartOf(base: nat, c: Blocks)
    ensures PartOf([], base, c)
  {}

  /** Reading stays on the chain that was read. */
  lemma {:induction false} ReadStays(r: State, c: Blocks)
    requires Rooted(r) && c != [] && Within(r, c)
    ensures PartOf(ReadNew(r, c).pending, Base(r), c)
  {
    hide AppendLogs, FilterLogs, Records, Ascending;
    var from := FirstUnread(r);
    if from < |c| {
      AppendRange(r.pending, c, from, |c|);
      RecordsPartOf(c, from, |c|);
      PartOfConcat(r.pending, Records(c, from, |c|), Base(r), from, c);
    }
  }

  lemma {:induction false} PartBelow(p: seq<BlockRecord>, base: nat, c: Blocks)
    requires PartOf(p, base, c)
    ensures Below(p, |c|)
  {}

  lemma {:induction false} PartOfLower(p: seq<BlockRecord>, base: nat, lower: nat, c: Blocks)
    requires PartOf(p, base, c) && lower <= base
    ensures PartOf(p, lower, c)
  {}

  /** Folding leaves the window above the old checkpoint, a whole merge above the new one. */
  lemma {:induction false} MergeRooted(t: State, c: Blocks, target: nat)
    requires target < |c| && t.baseline && t.lastSeen == |c| - 1
    requires t.hasCheckpoint ==> |t.finalizedHash| == t.finalizedBlock + 1 && t.finalizedHash <= c
    requires !t.hasCheckpoint ==> t.finalizedBlock == 0
    requires PartOf(t.pending, Base(t), c)
    ensures Rooted(FoldFinalized(t, target)) && Rooted(MergeFinalized(t, c, target))
  {
    hide Fold, EventsUpTo, Above, Ascending, PartOf, Below;
    PartBelow(t.pending, Base(t), c);
    AbovePartOf(t.pending, Base(t), c, target, |c|);
    PartOfLower(Above(t.pending, target), if target + 1 < Base(t) then Base(t) else target + 1, Base(t), c);
    WindowRooted(FoldFinalized(t, target), c);
    WindowRooted(MergeFinalized(t, c, target), c);
  }

  lemma {:induction false} WindowRooted(s: State, c: Blocks)
    requires s.baseline && s.lastSeen == |c| - 1 && c != []
    requires s.hasCheckpoint ==> |s.finalizedHash| == s.finalizedBlock + 1 && s.finalizedHash <= c
    requires !s.hasCheckpoint ==> s.finalizedBlock == 0
    requires PartOf(s.pending, Base(s), c)
    ensures Rooted(s)
  {
    hide PartOf;
    if s.pending != [] {
      NewestOf(s.pending, Base(s), c);
    } else {
      EmptyPartOf(Base(s), s.finalizedHash);
    }
  }

  lemma {:induction false} NewestOf(p: seq<BlockRecord>, base: nat, c: Blocks)
    requires PartOf(p, base, c) && p != []
    ensures base <= Last(p).number < |c| && Last(p).hash == CanonHash(c, Last(p).number)
    ensures PartOf(p, base, Last(p).hash)
  {
    PartOfOther(p, base, c, Last(p).hash);
  }

  lemma {:induction false} ReadMergeRooted(r: State, c: Blocks, target: nat)
    requires Rooted(r) && c != [] && Within(r, c) && target < |c|
    ensures Rooted(FoldFinalized(ReadNew(r, c), target)) && Rooted(MergeFinalized(ReadNew(r, c), c, target))
  {
    hide FoldFinalized, MergeFinalized, AppendLogs, FilterLogs, PartOf;
    ReadStays(r, c);
    MergeRooted(ReadNew(r, c), c, target);
  }

  lemma {:induction false} SyncKeepsRooted(s: State, c: Blocks, depth: nat, answers: Answers)
    requires Rooted(s) && c != []
    ensures Rooted(Sync(s, c, depth, answers).0)
  {
    hide Rewind, RewindReorg, Asked, ReadNew, FoldFinalized, MergeFinalized, AdvancesCheckpoint, Rooted, Within;
    RewindRooted(s, c);
    RewindLoses(s, c, answers.lost);
    RewindKeepsRooted(s, c, answers.lost);
    if RewindReorg(s, c).1 == Synced {
      ReadMergeRooted(RewindReorg(s, c).0, c, FinalizedTarget(|c| - 1, depth));
    }
  }

  /** Whatever chains a run of syncs has met and whichever answers were lost, that of a merge included. */
  lemma {:induction false} EveryRunIsRooted(depth: nat, calls: seq<Call>)
    ensures Rooted(After(Initial, depth, calls))
  {
    if calls != [] {
      EveryRunIsRooted(depth, Init(calls));
      SyncKeepsRooted(After(Initial, depth, Init(calls)), Last(calls).chain, depth, Last(calls).answers);
    }
  }

  // ---- What it gives ----

  /** Exactly when a sync succeeds, after any run. In particular it fails whenever the checkpoint is
      gone. */
  lemma {:induction false} SyncSucceedsIff(depth: nat, calls: seq<Call>, c: Blocks, answers: Answers)
    requires c != []
    ensures var s := After(Initial, depth, calls);
            Sync(s, c, depth, answers).1 == Synced <==>
              && answers.head
              && CheckpointHolds(s, c)
              && ReachesWindow(s, c)
              && Enough(answers.lost, Asked(s, c))
              && (answers.logs || FirstUnread(RewindReorg(s, c).0) >= |c|)
              && (answers.header || !AdvancesCheckpoint(s, FinalizedTarget(|c| - 1, depth)))
  {
    hide FoldFinalized, MergeFinalized, AppendLogs, FilterLogs, Rewind, RewindReorg, Asked;
    EveryRunIsRooted(depth, calls);
    RewindRooted(After(Initial, depth, calls), c);
    RewindLoses(After(Initial, depth, calls), c, answers.lost);
  }

  lemma {:induction false} GoneCheckpoint(s: State, c: Blocks, depth: nat, answers: Answers)
    requires Rooted(s) && c != [] && !CheckpointHolds(s, c)
    ensures var s' := Sync(s, c, depth, answers).0;
            var status := Sync(s, c, depth, answers).1;
            && status != Synced
            && Rooted(s')
            && SameFinalized(s, s')
            && (status.DeepReorg? || s.pending == [] ==> s'.pending == [])
  {
    hide Rewind, RewindReorg, Asked, Rooted;
    RewindRooted(s, c);
    RewindLoses(s, c, answers.lost);
    RewindKeepsRooted(s, c, answers.lost);
  }

  /** A sync that does not find the checkpoint errs and leaves finalized state untouched. */
  lemma {:induction false} DeepReorgIsReported(depth: nat, calls: seq<Call>, c: Blocks, answers: Answers)
    requires c != [] && !CheckpointHolds(After(Initial, depth, calls), c)
    ensures var s := After(Initial, depth, calls);
            var s' := Sync(s, c, depth, answers).0;
            var status := Sync(s, c, depth, answers).1;
            && status != Synced
            && SameFinalized(s, s')
            && (status.DeepReorg? ==> s'.pending == [])
            && (answers.head && answers.lost != Some(0) && s.pending == [] && s.finalizedBlock < |c| ==>
                  status == DeepReorg(s.finalizedBlock))
  {
    EveryRunIsRooted(depth, calls);
    GoneCheckpoint(After(Initial, depth, calls), c, depth, answers);
  }

  ghost predicate OffCheckpoint(s: State, calls: seq<Call>) {
    forall call :: call in calls ==> !CheckpointHolds(s, call.chain)
  }

  /** One of the calls of the run is answered with the deep reorg error. */
  predicate ReportedDeep(s: State, depth: nat, calls: seq<Call>) {
    calls != [] &&
    (|| ReportedDeep(s, depth, Init(calls))
     || Sync(After(s, depth, Init(calls)), Last(calls).chain, depth, Last(calls).answers).1.DeepReorg?)
  }

  lemma {:induction false} OffCheckpointRun(s: State, depth: nat, calls: seq<Call>)
    requires Rooted(s) && OffCheckpoint(s, calls)
    ensures var s' := After(s, depth, calls);
            && Rooted(s')
            && SameFinalized(s, s')
            && (calls != [] ==> !LastSucceeds(s, depth, calls))
            && (ReportedDeep(s, depth, calls) ==> s'.pending == [])
  {
    if calls != [] {
      assert OffCheckpoint(s, Init(calls));
      OffCheckpointRun(s, depth, Init(calls));
      GoneCheckpoint(After(s, depth, Init(calls)), Last(calls).chain, depth, Last(calls).answers);
    }
  }

  /** After any run, the ledger errs on every call for as long as the checkpoint stays off the
      chain. */
  lemma {:induction false} DeepReorgErrsOnEveryCall(depth: nat, before: seq<Call>, calls: seq<Call>)
    requires OffCheckpoint(After(Initial, depth, before), calls)
    ensures var s := After(Initial, depth, before);
            && SameFinalized(s, After(s, depth, calls))
            && (calls != [] ==> !LastSucceeds(s, depth, calls))
  {
    EveryRunIsRooted(depth, before);
    OffCheckpointRun(After(Initial, depth, before), depth, calls);
  }

  /** However many calls failed: once one of them has reported the deep reorg and the checkpoint is
      back, one sync restores agreement, even when events were skipped before, as long as none of
      them was finalized. */
  lemma {:induction false} OneSyncHeals(depth: nat, before: seq<Call>, calls: seq<Call>, good: Blocks)
    requires var s := After(Initial, depth, before);
             && OffCheckpoint(s, calls) && ReportedDeep(s, depth, calls)
             && good != [] && CheckpointHolds(s, good)
             && s.finalized == Rescan(s.finalizedHash)
    ensures var s' := After(After(Initial, depth, before), depth, calls);
            var h := Sync(s', good, depth, AllArrive).0;
            && Sync(s', good, depth, AllArrive).1 == Synced
            && SnapshotOf(h) == Rescan(good) && Inv(h)
  {
    hide Sync, Fold, EventsIn, RewindReorg;
    var s := After(Initial, depth, before);
    EveryRunIsRooted(depth, before);
    OffCheckpointRun(s, depth, calls);
    var s' := After(s, depth, calls);
    var call := calls[0];
    assert call in calls && !CheckpointHolds(s, call.chain);
    assert Inv(s');
    HealsWhenFinalizedIsRight(s', good, depth);
  }

  lemma {:induction false} HealsWhenFinalizedIsRight(s: State, good: Blocks, depth: nat)
    requires Inv(s) && s.hasCheckpoint && s.pending == [] && good != [] && CheckpointHolds(s, good)
    ensures var h := Sync(s, good, depth, AllArrive).0;
            && Sync(s, good, depth, AllArrive).1 == Synced
            && SnapshotOf(h) == Rescan(good) && Inv(h)
  {
    RewindStandsOn(s, good);
    SyncAgreesIff(s, good, depth, AllArrive);
  }

  /** And when something wrong has been finalized, that sync shows exactly that: at every account, and in
      the counts, the view is off by what the finalized aggregates are off. So it is right at an
      account if and only if they are. */
  lemma {:induction false} OneSyncShowsFinalized(depth: nat, before: seq<Call>, calls: seq<Call>, good: Blocks,
      a: Address)
    requires var s := After(Initial, depth, before);
             OffCheckpoint(s, calls) && ReportedDeep(s, depth, calls) && good != [] && CheckpointHolds(s, good)
    ensures var s := After(Initial, depth, before);
            var s' := After(s, depth, calls);
            var view, finalized := SnapshotOf(Sync(s', good, depth, AllArrive).0), s.finalized;
            && Sync(s', good, depth, AllArrive).1 == Synced
            && view.BalanceOf(a) - Rescan(good).BalanceOf(a) ==
                 finalized.BalanceOf(a) - Rescan(s.finalizedHash).BalanceOf(a)
            && view.minted - Rescan(good).minted == finalized.minted - Rescan(s.finalizedHash).minted
            && view.burned - Rescan(good).burned == finalized.burned - Rescan(s.finalizedHash).burned
            && view.events - Rescan(good).events == finalized.events - Rescan(s.finalizedHash).events
  {
    hide Sync, Fold, EventsIn, RewindReorg;
    var s := After(Initial, depth, before);
    EveryRunIsRooted(depth, before);
    OffCheckpointRun(s, depth, calls);
    var call := calls[0];
    assert call in calls && !CheckpointHolds(s, call.chain);
    ReadsOnFinalized(After(s, depth, calls), good, depth, a);
  }

  lemma {:induction false} RescanAbove(h: Blocks, c: Blocks, low: nat)
    requires h <= c && |h| == low
    ensures Rescan(c) == Fold(Rescan(h), EventsIn(c, low, |c|))
  {
    hide Fold, EventsIn;
    EventsPrefix(h, c, 0, low);
    EventsSplit(c, 0, low, |c|);
    FoldConcat(EmptyTotals, EventsIn(c, 0, low), EventsIn(c, low, |c|));
  }

  lemma {:induction false} SyncsEmpty(s: State, good: Blocks, depth: nat)
    requires Rooted(s) && s.pending == [] && good != [] && CheckpointHolds(s, good)
    ensures Sync(s, good, depth, AllArrive).1 == Synced && RewindReorg(s, good).0.pending == []
  {
    RewindRooted(s, good);
    RewindLoses(s, good, None);
    hide Rooted, CheckpointHolds, Rewind, RewindReorg, Asked, ReadNew, FoldFinalized, MergeFinalized;
  }

  lemma {:induction false} AtCheckpoint(s: State, good: Blocks)
    requires Rooted(s) && s.hasCheckpoint && CheckpointHolds(s, good)
    ensures s.baseline && s.finalizedBlock + 1 <= |good|
    ensures Rescan(good) == Fold(Rescan(s.finalizedHash), EventsIn(good, s.finalizedBlock + 1, |good|))
  {
    RescanAbove(s.finalizedHash, good, s.finalizedBlock + 1);
    hide PartOf, TrustedHead, Rescan, Fold, EventsIn;
  }

  /** The sync and the rescan fold the same events above the checkpoint, each onto its own aggregates. */
  lemma {:induction false} ReadsAbove(s: State, good: Blocks, depth: nat)
    requires Rooted(s) && s.hasCheckpoint && s.pending == [] && good != [] && CheckpointHolds(s, good)
    ensures s.finalizedBlock + 1 <= |good| && Sync(s, good, depth, AllArrive).1 == Synced
    ensures var above := EventsIn(good, s.finalizedBlock + 1, |good|);
            && SnapshotOf(Sync(s, good, depth, AllArrive).0) == Fold(s.finalized, above)
            && Rescan(good) == Fold(Rescan(s.finalizedHash), above)
  {
    SyncsEmpty(s, good, depth);
    AtCheckpoint(s, good);
    hide Rooted, CheckpointHolds, Sync, RewindReorg, SnapshotOf, Fold, EventsIn, Rescan;
    FailedMerges.FallsBack(s, good, depth, AllArrive);
  }

  lemma {:induction false} ReadsOnFinalized(s: State, good: Blocks, depth: nat, a: Address)
    requires Rooted(s) && s.hasCheckpoint && s.pending == [] && good != [] && CheckpointHolds(s, good)
    ensures var view := SnapshotOf(Sync(s, good, depth, AllArrive).0);
            && Sync(s, good, depth, AllArrive).1 == Synced
            && view.BalanceOf(a) - Rescan(good).BalanceOf(a) ==
                 s.finalized.BalanceOf(a) - Rescan(s.finalizedHash).BalanceOf(a)
            && view.minted - Rescan(good).minted == s.finalized.minted - Rescan(s.finalizedHash).minted
            && view.burned - Rescan(good).burned == s.finalized.burned - Rescan(s.finalizedHash).burned
            && view.events - Rescan(good).events == s.finalized.events - Rescan(s.finalizedHash).events
  {
    ReadsAbove(s, good, depth);
    hide Rooted, CheckpointHolds, Sync, SnapshotOf, Rescan, Fold, EventsIn, Totals.BalanceOf;
    FoldIsAdditive(s.finalized, Rescan(s.finalizedHash), EventsIn(good, s.finalizedBlock + 1, |good|), a);
  }
}
