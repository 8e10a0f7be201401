/** Where the ledger draws the line of finality (ledger/incremental.go): exactly the depth below the
    head of the highest chain it has synced to. Reorgs above the line are taken in stride. */
module Finality {
  import opened Common
  import opened Chain
  import opened IncrementalLedger
  import opened LedgerAgreement
  import opened DeepReorgs

  function Max(a: int, b: int): int { if a < b then b else a }

  /** The highest block that lay depth blocks or more below the head at a sync that succeeded, or 0. */
  function Highest(depth: nat, calls: seq<Call>): nat {
    if calls == [] then 0
    else
      var before := Highest(depth, Init(calls));
      if LastSucceeds(Initial, depth, calls) then Max(before, |Last(calls).chain| - 1 - depth) else before
  }

  // ---- One sync ----

  lemma {:induction false} MergeBoundary(t: State, c: Blocks, target: nat)
    requires target < |c| && (!t.hasCheckpoint ==> t.finalizedBlock == 0)
    ensures var s := MergeFinalized(t, c, target);
            && s.finalizedBlock == Max(t.finalizedBlock, target) && s.hasCheckpoint
            && (s.finalizedHash == c[..target + 1] || s.finalizedHash == t.finalizedHash)
            && FoldFinalized(t, target).finalizedBlock == t.finalizedBlock
  {}

  lemma {:induction false} RewindKeepsCheckpoint(s: State, c: Blocks, lost: Option<nat>)
    ensures SameFinalized(s, Rewind(s, c, lost).0)
    decreases |s.pending|
  {
    if s.pending != [] {
      RewindKeepsCheckpoint(Popped(s), c, OneLess(lost));
    }
  }

  lemma {:induction false} SyncBoundary(s: State, c: Blocks, depth: nat, answers: Answers)
    requires c != [] && (!s.hasCheckpoint ==> s.finalizedBlock == 0)
    ensures var s' := Sync(s, c, depth, answers).0;
            if Sync(s, c, depth, answers).1 == Synced
            then s'.hasCheckpoint && s'.finalizedBlock == Max(s.finalizedBlock, |c| - 1 - depth)
            else s'.finalizedBlock == s.finalizedBlock
  {
    RewindKeepsCheckpoint(s, c, answers.lost);
    hide Rewind, MergeFinalized, FoldFinalized, AppendLogs, FilterLogs;
    var r := Rewind(s, c, answers.lost).0;
    MergeBoundary(ReadNew(r, c), c, FinalizedTarget(|c| - 1, depth));
  }

  lemma {:induction false} OneMoreCall(depth: nat, calls: seq<Call>, call: Call)
    ensures After(Initial, depth, calls + [call]) ==
              Sync(After(Initial, depth, calls), call.chain, depth, call.answers).0
  {
    hide Sync;
    InitOfSnoc(calls, call);
  }

  lemma {:induction false} WindowAbove(s: State)
    requires Rooted(s) && s.hasCheckpoint
    ensures |s.finalizedHash| == s.finalizedBlock + 1
    ensures forall i :: 0 <= i < |s.pending| ==> s.finalizedBlock < s.pending[i].number
    ensures s.pending != [] ==> Last(s.pending).number <= s.lastSeen
  {}

  lemma {:induction false} SyncReads(s: State, c: Blocks, depth: nat, answers: Answers)
    requires c != [] && Sync(s, c, depth, answers).1 == Synced
    ensures var s' := Sync(s, c, depth, answers).0;
            && s'.lastSeen == |c| - 1
            && ((s.hasCheckpoint && s'.finalizedHash == s.finalizedHash) || s'.finalizedHash <= c)
  {
    RewindKeepsCheckpoint(s, c, answers.lost);
    hide Rewind, EventsUpTo, Above, AppendLogs, FilterLogs;
    var target := FinalizedTarget(|c| - 1, depth);
    assert CanonHash(c, target) == c[..target + 1];
  }

  /** The checkpoint of a sync that succeeded is on its chain, and the remembered blocks lie between it
      and the head. */
  lemma {:induction false} SyncEndsOn(depth: nat, calls: seq<Call>, c: LiveChain, answers: Answers)
    requires Sync(After(Initial, depth, calls), c, depth, answers).1 == Synced
    ensures var s' := Sync(After(Initial, depth, calls), c, depth, answers).0;
            && s'.finalizedBlock < |c| && s'.finalizedHash == c[..s'.finalizedBlock + 1]
            && (forall i :: 0 <= i < |s'.pending| ==> s'.finalizedBlock < s'.pending[i].number)
            && (s'.pending != [] ==> Last(s'.pending).number < |c|)
  {
    var s := After(Initial, depth, calls);
    EveryRunIsRooted(depth, calls);
    SyncSucceedsIff(depth, calls, c, answers);
    assert !s.hasCheckpoint ==> s.finalizedBlock == 0;
    hide After, Sync, Rooted, RewindReorg, Asked;
    SyncBoundary(s, c, depth, answers);
    SyncReads(s, c, depth, answers);
    EveryRunIsRooted(depth, calls + [Call(c, answers)]);
    OneMoreCall(depth, calls, Call(c, answers));
    WindowAbove(Sync(s, c, depth, answers).0);
    EndsOn(Sync(s, c, depth, answers).0, c);
  }

  lemma {:induction false} EndsOn(s': State, c: Blocks)
    requires |s'.finalizedHash| == s'.finalizedBlock + 1
    requires s'.finalizedHash <= c
    ensures s'.finalizedBlock < |c| && s'.finalizedHash == c[..s'.finalizedBlock + 1]
  {}

  // ---- Whole runs ----

  /** After any run of syncs, failed ones included, finality lies where the highest sync that succeeded put
      it: the depth below its head. */
  lemma {:induction false} BoundaryIsHighest(depth: nat, calls: seq<Call>)
    ensures After(Initial, depth, calls).finalizedBlock == Highest(depth, calls)
    ensures calls != [] && LastSucceeds(Initial, depth, calls) ==> After(Initial, depth, calls).hasCheckpoint
  {
    if calls != [] {
      BoundaryIsHighest(depth, Init(calls));
      EveryRunIsRooted(depth, Init(calls));
      hide Sync, Within, TrustedHead;
      SyncBoundary(After(Initial, depth, Init(calls)), Last(calls).chain, depth, Last(calls).answers);
    }
  }

  /** A sync that succeeds, after any run, draws the line at its head less the depth unless it was higher
      before. Blocks up to there are folded and committed to by hash; only blocks above it can
      still be taken back. */
  lemma {:induction false} SyncFinalizesUpTo(depth: nat, calls: seq<Call>, c: LiveChain, answers: Answers)
    requires Sync(After(Initial, depth, calls), c, depth, answers).1 == Synced
    ensures var s' := Sync(After(Initial, depth, calls), c, depth, answers).0;
            var line := Max(Highest(depth, calls), |c| - 1 - depth);
            && s'.hasCheckpoint && s'.finalizedBlock == line < |c|
            && s'.finalizedHash == c[..line + 1]
            && (forall i :: 0 <= i < |s'.pending| ==> line < s'.pending[i].number)
            && (s'.pending != [] ==> Last(s'.pending).number < |c|)
  {
    hide Sync, After;
    BoundaryIsHighest(depth, calls);
    EveryRunIsRooted(depth, calls);
    SyncBoundary(After(Initial, depth, calls), c, depth, answers);
    SyncEndsOn(depth, calls, c, answers);
  }

  lemma {:induction false} DeepReorgMeans(s: State, c: Blocks, lost: Option<nat>)
    ensures Rewind(s, c, lost).1.DeepReorg? ==>
              s.hasCheckpoint && s.finalizedBlock < |c| && c[..s.finalizedBlock + 1] != s.finalizedHash
    decreases |s.pending|
  {
    if s.pending != [] {
      DeepReorgMeans(Popped(s), c, OneLess(lost));
    }
  }

  /** After a sync to c that succeeded, a chain that keeps the blocks of c up to the line of finality is never
      reported as a deep reorg, whatever else it replaces and whichever answers are lost. */
  lemma {:induction false} ReorgAboveTheLine(depth: nat, calls: seq<Call>, c: LiveChain, answers: Answers,
      good: LiveChain, later: Answers)
    requires Sync(After(Initial, depth, calls), c, depth, answers).1 == Synced
    requires var line := Max(Highest(depth, calls), |c| - 1 - depth);
             line < |good| && line < |c| && good[..line + 1] == c[..line + 1]
    ensures var s' := Sync(After(Initial, depth, calls), c, depth, answers).0;
            !Sync(s', good, depth, later).1.DeepReorg?
  {
    SyncFinalizesUpTo(depth, calls, c, answers);
    var s' := Sync(After(Initial, depth, calls), c, depth, answers).0;
    hide After, Rewind, Highest;
    assert Sync(s', good, depth, later).1.DeepReorg? ==> Rewind(s', good, later.lost).1.DeepReorg?;
    DeepReorgMeans(s', good, later.lost);
  }

  /** And exactly the chains that keep those blocks, and reach the height of the newest remembered
      block, are synced to when every answer arrives. */
  lemma {:induction false} NextSyncSucceedsIff(depth: nat, calls: seq<Call>, c: LiveChain, answers: Answers,
      good: LiveChain)
    requires Sync(After(Initial, depth, calls), c, depth, answers).1 == Synced
    ensures var s' := Sync(After(Initial, depth, calls), c, depth, answers).0;
            var line := Max(Highest(depth, calls), |c| - 1 - depth);
            Sync(s', good, depth, AllArrive).1 == Synced <==>
              && line < |good| && line < |c| && good[..line + 1] == c[..line + 1]
              && (s'.pending != [] ==> Last(s'.pending).number < |good|)
  {
    SyncFinalizesUpTo(depth, calls, c, answers);
    OneMoreCall(depth, calls, Call(c, answers));
    SyncSucceedsIff(depth, calls + [Call(c, answers)], good, AllArrive);
    hide Sync, After, Highest, RewindReorg, Asked;
    var s' := Sync(After(Initial, depth, calls), c, depth, answers).0;
    assert CheckpointHolds(s', good) <==> s'.finalizedHash <= good;
  }

  /** So with a chain that only grows, replacing up to depth of its newest blocks is always taken in
      stride. */
  lemma {:induction false} DepthBlocksMayChange(depth: nat, calls: seq<Call>, c: LiveChain, answers: Answers,
      good: LiveChain)
    requires Sync(After(Initial, depth, calls), c, depth, answers).1 == Synced
    requires Highest(depth, calls) + depth < |c| <= |good| && good[..|c| - depth] == c[..|c| - depth]
    ensures var s' := Sync(After(Initial, depth, calls), c, depth, answers).0;
            Sync(s', good, depth, AllArrive).1 == Synced
  {
    NextSyncSucceedsIff(depth, calls, c, answers, good);
    SyncFinalizesUpTo(depth, calls, c, answers);
    hide Sync, After, Highest;
    var line := |c| - 1 - depth;
    assert good[..line + 1] == c[..line + 1];
  }

  /** The header of the line is asked for only when the line moves: without that answer alone, a sync
      succeeds exactly when it has a checkpoint that holds, reaches the window, and its head is at most
      the depth above the line. */
  lemma {:induction false} HeaderIsAskedForIff(depth: nat, calls: seq<Call>, c: LiveChain)
    ensures var s := After(Initial, depth, calls);
            Sync(s, c, depth, Answers(true, None, true, false)).1 == Synced <==>
              && s.hasCheckpoint && s.finalizedHash <= c
              && (s.pending != [] ==> Last(s.pending).number < |c|)
              && |c| - 1 <= Highest(depth, calls) + depth
  {
    SyncSucceedsIff(depth, calls, c, Answers(true, None, true, false));
    BoundaryIsHighest(depth, calls);
    hide Sync, After, Highest, RewindReorg, Asked;
  }
}
