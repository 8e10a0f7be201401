/** A merge folds its blocks before it looks up the header of its new checkpoint (ledger/incremental.go).
    When that lookup fails the blocks stay folded below no checkpoint, and a later sync may read them
    again. */
module FailedMerges {
  import opened Common
  import opened Transfers
  import opened Chain
  import opened IncrementalLedger
  import opened LedgerAgreement

  const NoHeader: Answers := Answers(true, None, true, false)

  /** The sync gets as far as its merge, reads every event, and fails at the lookup. */
  ghost predicate FailsAtMerge(s: State, c: Blocks, depth: nat) {
    && c != [] && Inv(s)
    && RewindReorg(s, c).1 == Synced && Skipped(s, c) == []
    && AdvancesCheckpoint(s, FinalizedTarget(|c| - 1, depth))
  }

  /** What it leaves. */
  function Left(s: State, c: Blocks, depth: nat): State
    requires c != []
  {
    Sync(s, c, depth, NoHeader).0
  }

  /** The block up to which it folded. */
  function Boundary(c: Blocks, depth: nat): (n: nat)
    requires c != []
    ensures n < |c|
  {
    FinalizedTarget(|c| - 1, depth)
  }

  /** What the sync would have left, had it found the header. */
  function Meant(s: State, c: Blocks, depth: nat): State
    requires c != []
  {
    MergeFinalized(ReadNew(RewindReorg(s, c).0, c), c, FinalizedTarget(|c| - 1, depth))
  }

  lemma {:induction false} LeftAndMeant(s: State, c: Blocks, depth: nat)
    requires FailsAtMerge(s, c, depth)
    ensures var target := Boundary(c, depth);
            var t, m := Left(s, c, depth), Meant(s, c, depth);
            && Sync(s, c, depth, NoHeader).1 == HeaderNotFound(target)
            && t == m.(finalizedBlock := s.finalizedBlock, finalizedHash := s.finalizedHash,
                       hasCheckpoint := s.hasCheckpoint)
            && Inv(m) && FullWindow(m, c) && m.finalizedBlock == target < |c|
            && s.finalizedBlock <= target
  {
    hide Rewind, RewindReorg, Asked, ReadNew, Fold, EventsIn, Records, AppendLogs, FilterLogs, Above, EventsUpTo, Inv,
         Skipped, StandsOn;
    RewindStandsOn(s, c);
    RewindLoses(s, c, None);
    var r := RewindReorg(s, c).0;
    ReadKeeps(r, c);
    NoCheckpointAtZero(s);
    MergeOutcome(r, c, FinalizedTarget(|c| - 1, depth));
  }

  lemma {:induction false} ReadKeeps(r: State, c: Blocks)
    requires c != []
    ensures var t := ReadNew(r, c);
            t.hasCheckpoint == r.hasCheckpoint && t.finalizedBlock == r.finalizedBlock
              && t.finalizedHash == r.finalizedHash
  {
    hide AppendLogs, FilterLogs;
  }

  lemma {:induction false} NoCheckpointAtZero(s: State)
    requires Inv(s)
    ensures !s.hasCheckpoint ==> s.finalizedBlock == 0
  {
    hide Fold, EventsIn;
  }

  /** As long as the rewind stops inside the window, the checkpoint plays no part in it. */
  lemma {:induction false} RewindInsideWindow(t: State, m: State, c: Blocks)
    requires t == m.(finalizedBlock := t.finalizedBlock, finalizedHash := t.finalizedHash,
                     hasCheckpoint := t.hasCheckpoint)
    requires RewindReorg(t, c).0.pending != []
    ensures var x, y := RewindReorg(t, c), RewindReorg(m, c);
            x.1 == y.1
            && x.0 == y.0.(finalizedBlock := t.finalizedBlock, finalizedHash := t.finalizedHash,
                           hasCheckpoint := t.hasCheckpoint)
    decreases |t.pending|
  {
    if t.pending != [] {
      var top := Last(t.pending);
      if top.number < |c| && CanonHash(c, top.number) != top.hash {
        assert RewindReorg(t, c) == RewindReorg(Popped(t), c) && RewindReorg(m, c) == RewindReorg(Popped(m), c);
        RewindInsideWindow(Popped(t), Popped(m), c);
      }
    }
  }

  /** A sync that succeeds shows what it read, merge or no merge. */
  lemma {:induction false} ShowsWhatItRead(s: State, c: Blocks, depth: nat, answers: Answers)
    requires c != [] && Sync(s, c, depth, answers).1 == Synced
    requires Ascending(ReadNew(RewindReorg(s, c).0, c).pending)
    ensures RewindReorg(s, c).1 == Synced
    ensures SnapshotOf(Sync(s, c, depth, answers).0) == SnapshotOf(ReadNew(RewindReorg(s, c).0, c))
  {
    hide ReadNew, Rewind, RewindReorg, Asked, FoldFinalized, MergeFinalized, SnapshotOf, Ascending;
    RewindLoses(s, c, answers.lost);
    MergeKeepsSnapshot(ReadNew(RewindReorg(s, c).0, c), c, FinalizedTarget(|c| - 1, depth));
  }

  /** The window survived in part: the next sync is right exactly when it skips nothing. */
  lemma {:induction false} WindowCarriesOn(t: State, m: State, c: Blocks, depth: nat, answers: Answers)
    requires t == m.(finalizedBlock := t.finalizedBlock, finalizedHash := t.finalizedHash,
                     hasCheckpoint := t.hasCheckpoint)
    requires c != [] && Inv(m) && m.hasCheckpoint && CheckpointHolds(m, c) && t.baseline
    requires Sync(t, c, depth, answers).1 == Synced && RewindReorg(t, c).0.pending != []
    ensures SnapshotOf(Sync(t, c, depth, answers).0) == Rescan(c) <==> Skipped(t, c) == []
  {
    hide Fold, EventsIn, Records, AppendLogs, FilterLogs, LogEvents, Ascending, Rewind, RewindReorg, Asked, Inv,
         StandsOn, PendingEvents;
    RewindInsideWindow(t, m, c);
    RewindStandsOn(m, c);
    RewindLoses(m, c, None);
    RewindLoses(t, c, answers.lost);
    var x, y := RewindReorg(t, c).0, RewindReorg(m, c).0;
    assert RewindReorg(t, c).1 == Synced;
    ReadOutcome(y, c);
    assert ReadNew(x, c).pending == ReadNew(y, c).pending && ReadNew(x, c).finalized == ReadNew(y, c).finalized;
    ShowsWhatItRead(t, c, depth, answers);
    assert Sync(m, c, depth, AllArrive).1 == Synced;
    ShowsWhatItRead(m, c, depth, AllArrive);
    SyncAgreesIff(m, c, depth, AllArrive);
  }

  lemma {:induction false} EmptyRewind(t: State, c: Blocks)
    requires RewindReorg(t, c).1 == Synced && RewindReorg(t, c).0.pending == []
    ensures RewindReorg(t, c).0 == t.(pending := [], lastSeen := t.finalizedBlock)
    decreases |t.pending|
  {
    if t.pending != [] {
      EmptyRewind(Popped(t), c);
    }
  }

  /** From an empty window everything above the old checkpoint is read, folded before or not. */
  lemma {:induction false} ReadsFromCheckpoint(t: State, c: Blocks)
    requires c != [] && t.baseline && t.finalizedBlock < |c|
    ensures var u := ReadNew(t.(pending := [], lastSeen := t.finalizedBlock), c);
            && Ascending(u.pending)
            && SnapshotOf(u) == Fold(t.finalized, EventsIn(c, t.finalizedBlock + 1, |c|))
  {
    hide Fold, EventsIn, Records, AppendLogs, FilterLogs, LogEvents, Ascending, PendingEvents;
    var from := t.finalizedBlock + 1;
    ReadsInto(c, from);
    NothingThere(c, |c|);
    RecordsAscending(c, from, |c|);
    RecordsEvents(c, from, |c|);
  }

  lemma {:induction false} ReadsInto(c: Blocks, from: nat)
    requires from <= |c|
    ensures AppendLogs([], FilterLogs(c, from, |c|)) == Records(c, from, |c|)
  {
    hide AppendLogs, FilterLogs, Records;
    AppendRange([], c, from, |c|);
    ConcatEmpty(Records(c, from, |c|));
  }

  lemma {:induction false} NothingThere(c: Blocks, to: nat)
    requires to <= |c|
    ensures Records(c, to, to) == [] && FilterLogs(c, to, to) == [] && EventsIn(c, to, to) == []
  {}

  /** Reading a stretch twice shows in the event counter, unless it is empty. */
  lemma {:induction false} TwiceShows(c: Blocks, low: nat, high: nat)
    requires low <= high <= |c|
    ensures Fold(Fold(EmptyTotals, EventsIn(c, 0, high)), EventsIn(c, low, |c|)) == Rescan(c) <==>
              EventsIn(c, low, high) == []
  {
    EventsSplit(c, 0, low, high);
    EventsSplit(c, 0, low, |c|);
    EventsSplit(c, low, high, |c|);
    hide EventsIn, Fold;
    FoldCounts(EmptyTotals, EventsIn(c, 0, high));
    FoldCounts(Fold(EmptyTotals, EventsIn(c, 0, high)), EventsIn(c, low, |c|));
    FoldCounts(EmptyTotals, Events(c));
    if EventsIn(c, low, high) == [] {
      ConcatEmpty(EventsIn(c, 0, low));
      FoldConcat(EmptyTotals, EventsIn(c, 0, low), EventsIn(c, low, |c|));
    }
  }

  /** After a merge whose lookup failed, on any chain that still has the block at the boundary: the next
      sync to succeed agrees with the rescan exactly when, if the rewind stops inside the window, it
      skips nothing, and if the window empties, the merge had folded no event above the checkpoint. */
  lemma {:induction false} NextSyncAgreesIff(s: State, c: Blocks, next: Blocks, depth: nat, answers: Answers)
    requires c != [] && FailsAtMerge(s, c, depth) && CanonHash(c, Boundary(c, depth)) <= next
    requires Sync(Left(s, c, depth), next, depth, answers).1 == Synced
    ensures SnapshotOf(Sync(Left(s, c, depth), next, depth, answers).0) == Rescan(next) <==>
              if RewindReorg(Left(s, c, depth), next).0.pending != [] then Skipped(Left(s, c, depth), next) == []
              else EventsIn(next, s.finalizedBlock + 1, Boundary(c, depth) + 1) == []
  {
    hide FullWindow, Inv, Sync, RewindReorg, Meant, Left, FailsAtMerge, SnapshotOf, Skipped, Rescan, EventsIn, Fold,
         Boundary;
    var t, m := Left(s, c, depth), Meant(s, c, depth);
    LeftAndMeant(s, c, depth);
    FoldedPart(m, c, next);
    AfterFolding(t, m, next, depth, answers);
  }

  /** t is m without its new checkpoint. */
  lemma {:induction false} AfterFolding(t: State, m: State, next: Blocks, depth: nat, answers: Answers)
    requires t == m.(finalizedBlock := t.finalizedBlock, finalizedHash := t.finalizedHash,
                     hasCheckpoint := t.hasCheckpoint)
    requires Inv(m) && CheckpointHolds(m, next) && m.hasCheckpoint && m.baseline
    requires t.finalizedBlock <= m.finalizedBlock < |next|
    requires m.finalized == Fold(EmptyTotals, EventsIn(next, 0, m.finalizedBlock + 1))
    requires Sync(t, next, depth, answers).1 == Synced
    ensures SnapshotOf(Sync(t, next, depth, answers).0) == Rescan(next) <==>
              if RewindReorg(t, next).0.pending != [] then Skipped(t, next) == []
              else EventsIn(next, t.finalizedBlock + 1, m.finalizedBlock + 1) == []
  {
    hide Inv, CheckpointHolds, Sync, RewindReorg, SnapshotOf, Skipped, Rescan, EventsIn, Fold;
    if RewindReorg(t, next).0.pending != [] {
      WindowCarriesOn(t, m, next, depth, answers);
    } else {
      FallsBack(t, next, depth, answers);
      TwiceShows(next, t.finalizedBlock + 1, m.finalizedBlock + 1);
    }
  }

  /** What was folded is the part of the next chain up to the boundary. */
  lemma {:induction false} FoldedPart(m: State, c: Blocks, next: Blocks)
    requires FullWindow(m, c) && CanonHash(c, m.finalizedBlock) <= next
    ensures CheckpointHolds(m, next) && m.finalizedBlock < |next| && m.hasCheckpoint && m.baseline
    ensures m.finalized == Fold(EmptyTotals, EventsIn(next, 0, m.finalizedBlock + 1))
  {
    hide Fold, EventsIn, Records;
    EventsPrefix(m.finalizedHash, c, 0, m.finalizedBlock + 1);
    EventsPrefix(m.finalizedHash, next, 0, m.finalizedBlock + 1);
  }

  lemma {:induction false} FallsBack(t: State, c: Blocks, depth: nat, answers: Answers)
    requires c != [] && t.baseline && t.finalizedBlock < |c|
    requires Sync(t, c, depth, answers).1 == Synced && RewindReorg(t, c).0.pending == []
    ensures SnapshotOf(Sync(t, c, depth, answers).0) == Fold(t.finalized, EventsIn(c, t.finalizedBlock + 1, |c|))
  {
    hide Fold, EventsIn, ReadNew, Rewind, RewindReorg, Asked, FoldFinalized, MergeFinalized, SnapshotOf, Ascending;
    RewindLoses(t, c, answers.lost);
    EmptyRewind(t, c);
    ReadsFromCheckpoint(t, c);
    ShowsWhatItRead(t, c, depth, answers);
  }

  /** The very first sync of a chain with one mint fails at its merge; a second one on the same chain
      succeeds and counts the mint twice. */
  lemma {:induction false} MintCountsTwice()
    ensures var c := [Genesis, MintBlock, QuietBlock];
            var t := Left(Initial, c, 1);
            && Sync(Initial, c, 1, NoHeader).1 == HeaderNotFound(1)
            && Sync(t, c, 1, AllArrive).1 == Synced
            && SnapshotOf(Sync(t, c, 1, AllArrive).0) != Rescan(c)
  {
    var c := [Genesis, MintBlock, QuietBlock];
    var t := Left(Initial, c, 1);
    assert FailsAtMerge(Initial, c, 1) && Boundary(c, 1) == 1;
    LeftAndMeant(Initial, c, 1);
    OneMint(c);
    assert t.pending == [] && !t.hasCheckpoint;
    assert CanonHash(c, 1) <= c;
    hide SnapshotOf, Rescan, EventsIn, Fold, Records, FullWindow, Inv, Meant, Left, FailsAtMerge;
    assert RewindReorg(t, c).0.pending == [];
    assert Sync(t, c, 1, AllArrive).1 == Synced;
    NextSyncAgreesIff(Initial, c, c, 1, AllArrive);
  }

  lemma {:induction false} OneMint(c: Blocks)
    requires c == [Genesis, MintBlock, QuietBlock]
    ensures Records(c, 2, 3) == [] && EventsIn(c, 1, 2) != []
  {
    assert LogEvents(QuietBlock.logs) == [];
    assert LogEvents(MintBlock.logs) == [TransferEvent(0, 7, 5)] by {
      assert Init(MintBlock.logs) == [];
    }
  }
}
