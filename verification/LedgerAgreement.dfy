/** When the reorg-aware ledger agrees with a full rescan: exactly when a sync skips no event.
    The invariant speaks only of the ledger's own state: because a hash determines the history,
    the ledger carries the chain it has read inside its newest hash. */
module LedgerAgreement {
  import opened Common
  import opened Transfers
  import opened Chain
  import opened IncrementalLedger

  /** The pending records a reader of blocks from (inclusive) to (exclusive) should hold: one per
      block with events. */
  function Records(c: Blocks, from: nat, to: nat): seq<BlockRecord>
    requires to <= |c|
  {
    if to <= from then []
    else
      var evs := LogEvents(c[to - 1].logs);
      if evs == [] then Records(c, from, to - 1)
      else Records(c, from, to - 1) + [BlockRecord(to - 1, CanonHash(c, to - 1), evs)]
  }

  /** Everything at or below the checkpoint is folded exactly once, and the pending window is
      exactly the event-bearing blocks between the checkpoint and the newest pending block. */
  ghost predicate Inv(s: State) {
    && s.hasCheckpoint == s.baseline
    && (!s.hasCheckpoint ==> s.finalized == EmptyTotals && s.pending == [] && s.finalizedBlock == 0)
    && (s.hasCheckpoint ==>
          && |s.finalizedHash| == s.finalizedBlock + 1
          && s.finalized == Rescan(s.finalizedHash)
          && TrustedHead(s.pending, s.finalizedBlock) <= s.lastSeen
          && (s.pending != [] ==> WindowOf(s.pending, s.finalizedHash, Last(s.pending).hash)))
  }

  ghost predicate WindowOf(pending: seq<BlockRecord>, checkpoint: Hash, newest: Hash)
    requires pending != []
  {
    && |newest| == Last(pending).number + 1
    && checkpoint <= newest
    && pending == Records(newest, |checkpoint|, |newest|)
  }

  predicate TopCanonical(s: State, c: Blocks) {
    && s.pending != []
    && Last(s.pending).number < |c|
    && CanonHash(c, Last(s.pending).number) == Last(s.pending).hash
  }

  /** The events a sync against c will never read: those in blocks above the newest pending block
      but not above lastSeen, when that pending block is still canonical. */
  function Skipped(s: State, c: Blocks): seq<TransferEvent> {
    if TopCanonical(s, c) then
      EventsIn(c, Last(s.pending).number + 1, if s.lastSeen + 1 < |c| then s.lastSeen + 1 else |c|)
    else []
  }

  /** The chain still contains the checkpoint block. */
  predicate CheckpointHolds(s: State, c: Blocks) {
    s.hasCheckpoint ==> s.finalizedHash <= c
  }

  /** The chain still reaches the newest pending block's height. */
  predicate ReachesWindow(s: State, c: Blocks) {
    s.pending != [] ==> Last(s.pending).number < |c|
  }

  // ---- Records ----

  lemma {:induction false} PendingSnoc(p: seq<BlockRecord>, br: BlockRecord)
    ensures PendingEvents(p + [br]) == PendingEvents(p) + br.events
  {
    InitOfSnoc(p, br);
  }

  /** One more block adds its events, and one record if it has any. */
  lemma {:induction false} OneMoreBlock(c: Blocks, from: nat, to: nat)
    requires from < to <= |c|
    ensures var evs := LogEvents(c[to - 1].logs);
            && EventsIn(c, from, to) == EventsIn(c, from, to - 1) + evs
            && (evs == [] ==> Records(c, from, to) == Records(c, from, to - 1))
            && (evs != [] ==>
                  Records(c, from, to) == Records(c, from, to - 1) + [BlockRecord(to - 1, CanonHash(c, to - 1), evs)])
  {
    hide LogEvents, CanonHash;
  }

  lemma {:induction false} RecordsEvents(c: Blocks, from: nat, to: nat)
    requires to <= |c|
    ensures PendingEvents(Records(c, from, to)) == EventsIn(c, from, to)
    ensures |EventsIn(c, from, to)| == 0 <==> |Records(c, from, to)| == 0
  {
    if from < to {
      hide LogEvents, PendingEvents, CanonHash, Records, EventsIn;
      RecordsEvents(c, from, to - 1);
      OneMoreBlock(c, from, to);
      var evs := LogEvents(c[to - 1].logs);
      if evs != [] {
        PendingSnoc(Records(c, from, to - 1), BlockRecord(to - 1, CanonHash(c, to - 1), evs));
      } else {
        ConcatEmpty(EventsIn(c, from, to - 1));
      }
    }
  }

  lemma {:induction false} RecordsPrefix(h: Blocks, c: Blocks, from: nat, to: nat)
    requires h <= c && to <= |h|
    ensures Records(h, from, to) == Records(c, from, to)
  {
    if from < to {
      RecordsPrefix(h, c, from, to - 1);
      assert h[..to] == c[..to];
    }
  }

  lemma {:induction false} RecordsSplit(c: Blocks, from: nat, mid: nat, to: nat)
    requires from <= mid <= to <= |c|
    ensures Records(c, from, to) == Records(c, from, mid) + Records(c, mid, to)
  {
    if mid < to {
      RecordsSplit(c, from, mid, to - 1);
      var evs := LogEvents(c[to - 1].logs);
      if evs != [] {
        ConcatAssoc(Records(c, from, mid), Records(c, mid, to - 1), [BlockRecord(to - 1, CanonHash(c, to - 1), evs)]);
      }
    } else {
      ConcatEmpty(Records(c, from, mid));
    }
  }

  /** The newest record closes the window: nothing happened after it, and it names its own block. */
  lemma {:induction false} NewestRecord(c: Blocks, from: nat, to: nat)
    requires to <= |c| && Records(c, from, to) != []
    ensures var top := Last(Records(c, from, to));
            && from <= top.number < to
            && top.hash == CanonHash(c, top.number)
            && Records(c, from, to) == Records(c, from, top.number + 1)
            && Init(Records(c, from, to)) == Records(c, from, top.number)
  {
    var evs := LogEvents(c[to - 1].logs);
    if evs == [] {
      NewestRecord(c, from, to - 1);
    } else {
      InitOfSnoc(Records(c, from, to - 1), BlockRecord(to - 1, CanonHash(c, to - 1), evs));
    }
  }

  lemma {:induction false} WindowFromRecords(c: Blocks, checkpoint: Hash, to: nat)
    requires checkpoint <= c && to <= |c| && Records(c, |checkpoint|, to) != []
    ensures WindowOf(Records(c, |checkpoint|, to), checkpoint, Last(Records(c, |checkpoint|, to)).hash)
  {
    hide Records, EventsIn, LogEvents;
    var p := Records(c, |checkpoint|, to);
    NewestRecord(c, |checkpoint|, to);
    var h := Last(p).hash;
    RecordsPrefix(h, c, |checkpoint|, |h|);
  }

  /** Popping the newest record leaves a window again. */
  lemma {:induction false} PopKeepsWindow(pending: seq<BlockRecord>, checkpoint: Hash)
    requires pending != [] && WindowOf(pending, checkpoint, Last(pending).hash)
    ensures |checkpoint| <= Last(pending).number
    ensures Init(pending) != [] ==>
              && WindowOf(Init(pending), checkpoint, Last(Init(pending)).hash)
              && Last(Init(pending)).number < Last(pending).number
  {
    var h := Last(pending).hash;
    NewestRecord(h, |checkpoint|, |h|);
    if Init(pending) != [] {
      NewestRecord(h, |checkpoint|, Last(pending).number);
      WindowFromRecords(h, checkpoint, Last(pending).number);
    }
  }

  // ---- Reading a range of logs ----

  lemma {:induction false} AppendLogsConcat(pending: seq<BlockRecord>, a: seq<LogEntry>, b: seq<LogEntry>)
    ensures AppendLogs(pending, a + b) == AppendLogs(AppendLogs(pending, a), b)
  {
    if b == [] {
      ConcatEmpty(a);
    } else {
      InitOfConcat(a, b);
      AppendLogsConcat(pending, a, Init(b));
    }
  }

  /** The events of one block, arriving log by log, end up in a single record. */
  lemma {:induction false} AppendBlock(pending: seq<BlockRecord>, c: Blocks, n: nat, k: nat)
    requires n < |c| && k <= |c[n].logs|
    requires pending != [] ==> Last(pending).number < n
    ensures var evs := LogEvents(c[n].logs[..k]);
            AppendLogs(pending, BlockLogs(c, n)[..k])
              == if evs == [] then pending else pending + [BlockRecord(n, CanonHash(c, n), evs)]
  {
    if k > 0 {
      AppendBlock(pending, c, n, k - 1);
      var logs, entries := c[n].logs[..k], BlockLogs(c, n)[..k];
      assert Init(logs) == c[n].logs[..k - 1];
      assert Init(entries) == BlockLogs(c, n)[..k - 1];
      assert Last(entries) == LogEntry(n, CanonHash(c, n), Last(logs));
      var evs := LogEvents(Init(logs));
      var parsed := ParseTransferLog(Last(logs));
      if parsed.Some? {
        var ev := parsed.value;
        assert LogEvents(logs) == evs + [ev];
        if evs != [] {
          var p := pending + [BlockRecord(n, CanonHash(c, n), evs)];
          assert Init(p) == pending;
        } else {
          assert evs + [ev] == [ev];
        }
      }
    } else {
      assert BlockLogs(c, n)[..0] == [] && c[n].logs[..0] == [];
    }
  }

  lemma {:induction false} AppendWholeBlock(pending: seq<BlockRecord>, c: Blocks, n: nat)
    requires n < |c|
    requires pending != [] ==> Last(pending).number < n
    ensures var evs := LogEvents(c[n].logs);
            AppendLogs(pending, BlockLogs(c, n))
              == if evs == [] then pending else pending + [BlockRecord(n, CanonHash(c, n), evs)]
  {
    var k := |c[n].logs|;
    AppendBlock(pending, c, n, k);
    assert c[n].logs[..k] == c[n].logs;
    assert BlockLogs(c, n)[..k] == BlockLogs(c, n);
  }

  lemma {:induction false} AppendRange(pending: seq<BlockRecord>, c: Blocks, from: nat, to: nat)
    requires to <= |c|
    requires pending != [] ==> Last(pending).number < from
    ensures AppendLogs(pending, FilterLogs(c, from, to)) == pending + Records(c, from, to)
  {
    if from < to {
      AppendRange(pending, c, from, to - 1);
      AppendNext(pending, c, from, to);
    } else {
      ConcatEmpty(pending);
    }
  }

  lemma {:induction false} LastOfRange(c: Blocks, from: nat, to: nat)
    requires from < to <= |c|
    ensures var evs := LogEvents(c[to - 1].logs);
            && FilterLogs(c, from, to) == FilterLogs(c, from, to - 1) + BlockLogs(c, to - 1)
            && Records(c, from, to) == if evs == [] then Records(c, from, to - 1)
                                       else Records(c, from, to - 1) + [BlockRecord(to - 1, CanonHash(c, to - 1), evs)]
  {}

  lemma {:induction false} AppendNext(pending: seq<BlockRecord>, c: Blocks, from: nat, to: nat)
    requires from < to <= |c|
    requires pending != [] ==> Last(pending).number < from
    requires AppendLogs(pending, FilterLogs(c, from, to - 1)) == pending + Records(c, from, to - 1)
    ensures AppendLogs(pending, FilterLogs(c, from, to)) == pending + Records(c, from, to)
  {
    hide AppendLogs, LogEvents, BlockLogs, FilterLogs, Records;
    var rest := Records(c, from, to - 1);
    LastOfRange(c, from, to);
    AppendLogsConcat(pending, FilterLogs(c, from, to - 1), BlockLogs(c, to - 1));
    NewestInConcat(pending, c, from, to - 1);
    AppendWholeBlock(pending + rest, c, to - 1);
    var evs := LogEvents(c[to - 1].logs);
    if evs != [] {
      ConcatAssoc(pending, rest, [BlockRecord(to - 1, CanonHash(c, to - 1), evs)]);
    }
  }

  lemma {:induction false} NewestInConcat(pending: seq<BlockRecord>, c: Blocks, from: nat, to: nat)
    requires to <= |c|
    requires pending != [] ==> Last(pending).number < from
    ensures var p := pending + Records(c, from, to); p != [] ==> Last(p).number < (if from < to then to else from)
  {
    if Records(c, from, to) != [] {
      NewestRecord(c, from, to);
      assert Last(pending + Records(c, from, to)) == Last(Records(c, from, to));
    } else {
      ConcatEmpty(pending);
    }
  }

  // ---- Merging finalized blocks ----

  ghost predicate Ascending(p: seq<BlockRecord>) {
    forall i, j :: 0 <= i < j < |p| ==> p[i].number < p[j].number
  }

  lemma {:induction false} RecordsAscending(c: Blocks, from: nat, to: nat)
    requires to <= |c|
    ensures Ascending(Records(c, from, to))
    ensures forall i :: 0 <= i < |Records(c, from, to)| ==> from <= Records(c, from, to)[i].number < to
  {
    if from < to {
      RecordsAscending(c, from, to - 1);
    }
  }

  lemma {:induction false} AllAtOrBelow(p: seq<BlockRecord>, target: nat)
    requires forall i :: 0 <= i < |p| ==> p[i].number <= target
    ensures EventsUpTo(p, target) == PendingEvents(p) && Above(p, target) == []
  {
    if p != [] {
      assert forall i :: 0 <= i < |Init(p)| ==> Init(p)[i] == p[i];
      AllAtOrBelow(Init(p), target);
    }
  }

  lemma {:induction false} MergeSplitsEvents(p: seq<BlockRecord>, target: nat)
    requires Ascending(p)
    ensures PendingEvents(p) == EventsUpTo(p, target) + PendingEvents(Above(p, target))
  {
    if p != [] {
      assert forall i :: 0 <= i < |Init(p)| ==> Init(p)[i] == p[i];
      if Last(p).number <= target {
        AllAtOrBelow(p, target);
        ConcatEmpty(PendingEvents(p));
      } else {
        MergeSplitsEvents(Init(p), target);
        InitOfSnoc(Above(Init(p), target), Last(p));
        ConcatAssoc(EventsUpTo(Init(p), target), PendingEvents(Above(Init(p), target)), Last(p).events);
      }
    }
  }

  /** Moving blocks from the window into the finalized aggregates does not change the view. */
  lemma {:induction false} MergeKeepsSnapshot(s: State, c: Blocks, target: nat)
    requires target < |c| && Ascending(s.pending)
    ensures SnapshotOf(FoldFinalized(s, target)) == SnapshotOf(MergeFinalized(s, c, target)) == SnapshotOf(s)
  {
    MergeSplitsEvents(s.pending, target);
    FoldConcat(s.finalized, EventsUpTo(s.pending, target), PendingEvents(Above(s.pending, target)));
  }

  /** Above and EventsUpTo look at the newest record first, so does the window. */
  lemma {:induction false} MergeSnoc(p: seq<BlockRecord>, br: BlockRecord, target: nat)
    ensures Above(p + [br], target) == if br.number <= target then Above(p, target) else Above(p, target) + [br]
    ensures EventsUpTo(p + [br], target)
         == if br.number <= target then EventsUpTo(p, target) + br.events else EventsUpTo(p, target)
  {
    InitOfSnoc(p, br);
  }

  lemma {:induction false} NoneBelow(c: Blocks, from: nat)
    ensures forall to :: 0 <= to <= from && to <= |c| ==> Records(c, from, to) == []
  {}

  lemma {:induction false} AboveRecords(c: Blocks, from: nat, to: nat, target: nat)
    requires to <= |c|
    ensures Above(Records(c, from, to), target) == Records(c, if target + 1 < from then from else target + 1, to)
  {
    if from < to {
      OneMoreBlock(c, from, to);
      if target + 1 < to {
        OneMoreBlock(c, if target + 1 < from then from else target + 1, to);
      }
      NoneBelow(c, if target + 1 < from then from else target + 1);
      hide LogEvents, Above, EventsUpTo, Records, CanonHash;
      AboveRecords(c, from, to - 1, target);
      var evs := LogEvents(c[to - 1].logs);
      if evs != [] {
        MergeSnoc(Records(c, from, to - 1), BlockRecord(to - 1, CanonHash(c, to - 1), evs), target);
      }
    }
  }

  /** The events of the window at or below a target that the window reaches. */
  lemma {:induction false} EventsUpToRecords(c: Blocks, from: nat, to: nat, target: nat)
    requires from <= to <= |c| && target < to
    ensures EventsUpTo(Records(c, from, to), target)
         == EventsIn(c, from, if target + 1 < from then from else target + 1)
  {
    if from < to {
      if target == to - 1 {
        RecordsAscending(c, from, to);
        hide Records, EventsIn, LogEvents, EventsUpTo, Above;
        AllAtOrBelow(Records(c, from, to), target);
        RecordsEvents(c, from, to);
      } else {
        OneMoreBlock(c, from, to);
        hide Records, LogEvents, EventsUpTo, Above;
        EventsUpToRecords(c, from, to - 1, target);
        var evs := LogEvents(c[to - 1].logs);
        if evs != [] {
          MergeSnoc(Records(c, from, to - 1), BlockRecord(to - 1, CanonHash(c, to - 1), evs), target);
        }
      }
    }
  }

  // ---- One sync ----

  /** Only the window and lastSeen may differ: finalized state and checkpoint are untouched. */
  ghost predicate SameFinalized(s: State, r: State) {
    r == s.(pending := r.pending, lastSeen := r.lastSeen)
  }

  /** The window holds exactly the event-bearing blocks of c above the checkpoint, up to block k. */
  ghost predicate WindowIn(r: State, c: Blocks) {
    var k := TrustedHead(r.pending, r.finalizedBlock) + 1;
    k <= |c| && r.pending == Records(c, r.finalizedBlock + 1, k)
  }

  lemma {:induction false} TopCanonicalStands(s: State, c: Blocks)
    requires Inv(s) && s.hasCheckpoint && TopCanonical(s, c)
    ensures s.finalizedHash <= c && WindowIn(s, c)
  {
    hide Records, EventsIn, Fold, LogEvents;
    var h := Last(s.pending).hash;
    assert h == c[..|h|];
    assert s.finalizedHash == h[..|s.finalizedHash|] == c[..|s.finalizedHash|];
    RecordsPrefix(h, c, s.finalizedBlock + 1, |h|);
  }

  function Popped(s: State): State
    requires s.pending != []
  {
    var popped := Init(s.pending);
    s.(pending := popped, lastSeen := TrustedHead(popped, s.finalizedBlock))
  }

  lemma {:induction false} PoppedInv(s: State)
    requires Inv(s) && s.pending != []
    ensures Inv(Popped(s)) && s.finalizedBlock < Last(s.pending).number
    ensures Popped(s).pending != [] ==> Last(Popped(s).pending).number < Last(s.pending).number
  {
    PopKeepsWindow(s.pending, s.finalizedHash);
  }

  /** One look at the newest pending block. */
  lemma {:induction false} RewindsOne(s: State, c: Blocks, lost: Option<nat>)
    requires s.pending != []
    ensures var n := Last(s.pending).number;
            Rewind(s, c, lost) ==
              if lost == Some(0) || n >= |c| then (s, HeaderNotFound(n))
              else if TopCanonical(s, c) then (s, Synced)
              else Rewind(Popped(s), c, OneLess(lost))
  {
    hide CanonHash;
  }

  /** And the look at the checkpoint, when no block is pending. */
  lemma {:induction false} CheckpointOnly(s: State, c: Blocks, lost: Option<nat>)
    requires Inv(s) && s.pending == []
    ensures var r := Rewind(s, c, lost).0;
            var status := Rewind(s, c, lost).1;
            && Inv(r) && SameFinalized(s, r) && r.pending == []
            && (s.hasCheckpoint && s.finalizedBlock < |c| && lost.None? ==>
                  && (s.finalizedHash <= c ==> status == Synced && WindowIn(r, c) && r.lastSeen == r.finalizedBlock)
                  && (!(s.finalizedHash <= c) ==> status.DeepReorg?))
  {
    hide Fold, EventsIn;
    if s.hasCheckpoint && s.finalizedBlock < |c| {
      assert CanonHash(c, s.finalizedBlock) == s.finalizedHash <==> s.finalizedHash <= c;
    }
  }

  /** When the rewind meets no missing header, it stops at a state that stands on c, or reports
      that the checkpoint is gone. */
  lemma {:induction false} RewindWithin(s: State, c: Blocks)
    requires Inv(s) && s.hasCheckpoint && ReachesWindow(s, c) && s.finalizedBlock < |c|
    ensures var r := RewindReorg(s, c).0;
            && Inv(r)
            && SameFinalized(s, r)
            && (s.finalizedHash <= c ==>
                  && RewindReorg(s, c).1 == Synced
                  && WindowIn(r, c)
                  && r.lastSeen == if TopCanonical(s, c) then s.lastSeen else TrustedHead(r.pending, r.finalizedBlock))
            && (!(s.finalizedHash <= c) ==> RewindReorg(s, c).1.DeepReorg? && r.pending == [])
    decreases |s.pending|
  {
    if s.pending != [] {
      RewindsOne(s, c, None);
      hide Inv, Rewind;
      if TopCanonical(s, c) {
        TopCanonicalStands(s, c);
      } else {
        PoppedInv(s);
        RewindWithin(Popped(s), c);
      }
    } else {
      CheckpointOnly(s, c, None);
    }
  }

  /** What the rewind leaves, and exactly when it succeeds. */
  lemma {:induction false} RewindOutcome(s: State, c: Blocks)
    requires Inv(s) && s.hasCheckpoint
    ensures var r := RewindReorg(s, c).0;
            var status := RewindReorg(s, c).1;
            && Inv(r)
            && SameFinalized(s, r)
            && (status == Synced <==> CheckpointHolds(s, c) && ReachesWindow(s, c))
            && (status.Synced? || status.HeaderNotFound? || status.DeepReorg?)
            && (status.DeepReorg? ==> r.pending == [])
            && (status == Synced ==>
                  && WindowIn(r, c)
                  && r.lastSeen == if TopCanonical(s, c) then s.lastSeen else TrustedHead(r.pending, r.finalizedBlock))
            && (TopCanonical(s, c) ==> r == s)
  {
    if s.pending != [] {
      PoppedInv(s);
    }
    if ReachesWindow(s, c) && s.finalizedBlock < |c| {
      RewindWithin(s, c);
    }
  }

  /** How many headers the rewind asks for. */
  function Asked(s: State, c: Blocks): nat
    decreases |s.pending|
  {
    if s.pending == [] then if s.hasCheckpoint then 1 else 0
    else if Last(s.pending).number >= |c| || TopCanonical(s, c) then 1
    else 1 + Asked(Popped(s), c)
  }

  predicate Enough(lost: Option<nat>, asked: nat) { lost.Some? ==> asked <= lost.value }

  /** A lost header matters only if the rewind asks for it. */
  lemma {:induction false} RewindLoses(s: State, c: Blocks, lost: Option<nat>)
    ensures Enough(lost, Asked(s, c)) ==> Rewind(s, c, lost) == RewindReorg(s, c)
    ensures !Enough(lost, Asked(s, c)) ==> Rewind(s, c, lost).1.HeaderNotFound?
    decreases |s.pending|
  {
    if s.pending != [] && Last(s.pending).number < |c| && !TopCanonical(s, c) {
      RewindLoses(Popped(s), c, OneLess(lost));
    }
  }

  lemma {:induction false} RewindKeepsInv(s: State, c: Blocks, lost: Option<nat>)
    requires Inv(s)
    ensures var r := Rewind(s, c, lost).0; Inv(r) && SameFinalized(s, r)
    decreases |s.pending|
  {
    if s.pending != [] {
      RewindsOne(s, c, lost);
      hide Inv, Rewind;
      PoppedInv(s);
      RewindKeepsInv(Popped(s), c, OneLess(lost));
    } else {
      CheckpointOnly(s, c, lost);
    }
  }

  /** The first block the ledger still has to read for the chain it is on. */
  function Unread(s: State): nat {
    if s.hasCheckpoint then TrustedHead(s.pending, s.finalizedBlock) + 1 else 0
  }

  function Base(s: State): nat {
    if s.hasCheckpoint then s.finalizedBlock + 1 else 0
  }

  /** After rewinding, the state stands on the canonical chain c. */
  ghost predicate StandsOn(r: State, c: Blocks) {
    && Inv(r)
    && CheckpointHolds(r, c)
    && Base(r) <= Unread(r) <= |c|
    && Unread(r) <= FirstUnread(r)
    && r.pending == Records(c, Base(r), Unread(r))
    && r.finalized == Fold(EmptyTotals, EventsIn(c, 0, Base(r)))
  }

  /** Where the next read starts, as a cut of the chain. */
  function ReadFrom(r: State, c: Blocks): nat {
    if FirstUnread(r) < |c| then FirstUnread(r) else |c|
  }

  lemma {:induction false} CheckpointStandsOn(s: State, c: Blocks)
    requires Inv(s) && s.hasCheckpoint && RewindReorg(s, c).1 == Synced
    ensures var r := RewindReorg(s, c).0;
            StandsOn(r, c) && Skipped(s, c) == EventsIn(c, Unread(r), ReadFrom(r, c))
  {
    hide RewindReorg, Records, Fold, LogEvents;
    RewindOutcome(s, c);
    var r := RewindReorg(s, c).0;
    EventsPrefix(s.finalizedHash, c, 0, Base(r));
    if r.pending != [] {
      NewestRecord(c, Base(r), Unread(r));
    }
  }

  lemma {:induction false} RewindStandsOn(s: State, c: Blocks)
    requires Inv(s) && c != []
    ensures var r := RewindReorg(s, c).0;
            var status := RewindReorg(s, c).1;
            && SameFinalized(s, r)
            && (status == Synced <==> CheckpointHolds(s, c) && ReachesWindow(s, c))
            && (status == Synced ==> StandsOn(r, c) && Skipped(s, c) == EventsIn(c, Unread(r), ReadFrom(r, c)))
            && (status != Synced ==> Inv(r))
  {
    if s.hasCheckpoint {
      RewindOutcome(s, c);
      if RewindReorg(s, c).1 == Synced {
        CheckpointStandsOn(s, c);
      }
    }
  }

  /** The view after reading: everything up to the trusted head and everything from the first
      block asked for. */
  lemma {:induction false} ReadOutcome(r: State, c: Blocks)
    requires c != [] && StandsOn(r, c)
    ensures var t := ReadNew(r, c);
            && Ascending(t.pending)
            && t.pending == r.pending + Records(c, ReadFrom(r, c), |c|)
            && PendingEvents(t.pending) == EventsIn(c, Base(r), Unread(r)) + EventsIn(c, ReadFrom(r, c), |c|)
  {
    hide Records, EventsIn, Fold, AppendLogs, FilterLogs, LogEvents;
    var from := ReadFrom(r, c);
    RecordsAscending(c, Base(r), Unread(r));
    RecordsAscending(c, from, |c|);
    if from < |c| {
      if r.pending != [] {
        assert Last(r.pending) == Records(c, Base(r), Unread(r))[|r.pending| - 1];
      }
      AppendRange(r.pending, c, from, |c|);
    } else {
      assert r.pending + [] == r.pending;
    }
    PendingConcat(r.pending, Records(c, from, |c|));
    RecordsEvents(c, Base(r), Unread(r));
    RecordsEvents(c, from, |c|);
  }

  /** The events the view holds after a sync. */
  function SeenEvents(r: State, c: Blocks): seq<TransferEvent>
    requires Unread(r) <= |c|
  {
    EventsIn(c, 0, Unread(r)) + EventsIn(c, ReadFrom(r, c), |c|)
  }

  lemma {:induction false} FoldThree(x: seq<TransferEvent>, y: seq<TransferEvent>, z: seq<TransferEvent>)
    ensures Fold(Fold(EmptyTotals, x), y + z) == Fold(EmptyTotals, x + y + z)
  {
    FoldConcat(EmptyTotals, x, y + z);
    assert x + (y + z) == x + y + z;
  }

  lemma {:induction false} SnapshotAfterRead(r: State, c: Blocks)
    requires c != [] && StandsOn(r, c)
    ensures SnapshotOf(ReadNew(r, c)) == Fold(EmptyTotals, SeenEvents(r, c))
  {
    ReadOutcome(r, c);
    var from := ReadFrom(r, c);
    FoldThree(EventsIn(c, 0, Base(r)), EventsIn(c, Base(r), Unread(r)), EventsIn(c, from, |c|));
    EventsSplit(c, 0, Base(r), Unread(r));
    assert ReadNew(r, c).finalized == r.finalized;
  }

  lemma {:induction false} PendingConcat(a: seq<BlockRecord>, b: seq<BlockRecord>)
    ensures PendingEvents(a + b) == PendingEvents(a) + PendingEvents(b)
  {
    if b == [] {
      ConcatEmpty(a);
    } else {
      InitOfConcat(a, b);
      PendingConcat(a, Init(b));
      ConcatAssoc(PendingEvents(a), PendingEvents(Init(b)), Last(b).events);
    }
  }

  lemma {:induction false} NothingSkippedWindow(r: State, c: Blocks)
    requires c != [] && StandsOn(r, c)
    requires EventsIn(c, Unread(r), ReadFrom(r, c)) == []
    ensures ReadNew(r, c).pending == Records(c, Base(r), |c|)
  {
    hide Records, EventsIn, Fold, AppendLogs, FilterLogs, RewindReorg, LogEvents;
    var from := ReadFrom(r, c);
    ReadOutcome(r, c);
    RecordsEvents(c, Unread(r), from);
    RecordsSplit(c, Base(r), Unread(r), from);
    RecordsSplit(c, Base(r), from, |c|);
    ConcatEmpty(Records(c, Base(r), Unread(r)));
  }

  /** A state that has read all of c: its window holds all the events above its checkpoint. */
  ghost predicate FullWindow(s: State, c: Blocks) {
    && c != []
    && s.hasCheckpoint && s.baseline && s.finalizedBlock < |c| && s.lastSeen == |c| - 1
    && s.finalizedHash == CanonHash(c, s.finalizedBlock)
    && s.finalized == Fold(EmptyTotals, EventsIn(c, 0, s.finalizedBlock + 1))
    && s.pending == Records(c, s.finalizedBlock + 1, |c|)
  }

  lemma {:induction false} FullWindowInv(s: State, c: Blocks)
    requires FullWindow(s, c)
    ensures Inv(s)
  {
    EventsPrefix(s.finalizedHash, c, 0, s.finalizedBlock + 1);
    if s.pending != [] {
      WindowFromRecords(c, s.finalizedHash, |c|);
      NewestRecord(c, s.finalizedBlock + 1, |c|);
    }
  }

  /** Merging a full window: the checkpoint moves to the cut and everything up to it is folded. */
  lemma {:induction false} MergeFullWindow(t: State, c: Blocks, target: nat, base: nat)
    requires target < |c| && base <= |c|
    requires t.pending == Records(c, base, |c|)
    requires t.finalized == Fold(EmptyTotals, EventsIn(c, 0, base))
    ensures var s' := MergeFinalized(t, c, target);
            var cut := if target + 1 < base then base else target + 1;
            && s'.pending == Records(c, cut, |c|)
            && s'.finalized == Fold(EmptyTotals, EventsIn(c, 0, cut))
  {
    hide Records, EventsIn, Fold, Above, EventsUpTo, LogEvents;
    AboveRecords(c, base, |c|, target);
    EventsUpToRecords(c, base, |c|, target);
    var cut := if target + 1 < base then base else target + 1;
    EventsSplit(c, 0, base, cut);
    FoldConcat(EmptyTotals, EventsIn(c, 0, base), EventsIn(c, base, cut));
  }

  /** When nothing was skipped, the merge leaves a state that satisfies the invariant. */
  lemma {:induction false} MergeOutcome(r: State, c: Blocks, target: nat)
    requires c != [] && StandsOn(r, c) && target < |c|
    requires EventsIn(c, Unread(r), ReadFrom(r, c)) == []
    ensures var s' := MergeFinalized(ReadNew(r, c), c, target);
            Inv(s') && FullWindow(s', c)
  {
    hide Records, EventsIn, Fold, AppendLogs, FilterLogs, Above, EventsUpTo, LogEvents;
    NothingSkippedWindow(r, c);
    var t := ReadNew(r, c);
    assert t.hasCheckpoint == r.hasCheckpoint && t.finalizedBlock == r.finalizedBlock;
    assert t.finalizedHash == r.finalizedHash && t.finalized == r.finalized;
    MergeFullWindow(t, c, target, Base(r));
    var s' := MergeFinalized(t, c, target);
    if r.hasCheckpoint && target <= r.finalizedBlock {
      assert s'.finalizedHash == r.finalizedHash == CanonHash(c, r.finalizedBlock);
    }
    FullWindowInv(s', c);
  }

  /** A sync that succeeds rewinds, reads and merges; one that fails for want of another answer than
      that of the merge has only rewound. */
  lemma {:induction false} SyncParts(s: State, c: Blocks, depth: nat, answers: Answers)
    requires c != []
    ensures var s' := Sync(s, c, depth, answers).0;
            var status := Sync(s, c, depth, answers).1;
            && (status == Synced ==>
                  && RewindReorg(s, c).1 == Synced
                  && s' == MergeFinalized(ReadNew(RewindReorg(s, c).0, c), c, FinalizedTarget(|c| - 1, depth)))
            && (status != Synced && answers.header ==> s' == s || s' == Rewind(s, c, answers.lost).0)
  {
    hide Rewind, RewindReorg, Asked, ReadNew, FoldFinalized, MergeFinalized;
    RewindLoses(s, c, answers.lost);
  }

  /** One sync: when it succeeds, that it keeps the invariant, and that its view equals the full
      rescan exactly when it skipped no event. */
  lemma {:induction false} SyncAgreesIff(s: State, c: Blocks, depth: nat, answers: Answers)
    requires Inv(s) && c != [] && answers.header
    ensures var s' := Sync(s, c, depth, answers).0;
            var status := Sync(s, c, depth, answers).1;
            && (status == Synced ==>
                  && (SnapshotOf(s') == Rescan(c) <==> Skipped(s, c) == [])
                  && (Skipped(s, c) == [] ==> Inv(s') && FullWindow(s', c)))
            && (status != Synced ==> Inv(s') && SameFinalized(s, s'))
  {
    RewindStandsOn(s, c);
    RewindKeepsInv(s, c, answers.lost);
    SyncParts(s, c, depth, answers);
    hide Sync, Rewind, RewindReorg, Inv, FullWindow, StandsOn, MergeFinalized, FoldFinalized, ReadNew, SnapshotOf,
         Skipped, Rescan, Fold, EventsIn;
    var r := RewindReorg(s, c).0;
    if Sync(s, c, depth, answers).1 == Synced {
      var target := FinalizedTarget(|c| - 1, depth);
      SnapshotAfterRead(r, c);
      ReadOutcome(r, c);
      MergeKeepsSnapshot(ReadNew(r, c), c, target);
      SeenAllIff(r, c);
      if Skipped(s, c) == [] {
        MergeOutcome(r, c, target);
      }
    }
  }

  /** The events seen and the events of the chain fold to the same aggregates only if none is
      missing: the event counter tells them apart. */
  lemma {:induction false} SeenAllIff(r: State, c: Blocks)
    requires c != [] && StandsOn(r, c)
    ensures Fold(EmptyTotals, SeenEvents(r, c)) == Rescan(c) <==> EventsIn(c, Unread(r), ReadFrom(r, c)) == []
  {
    var from := ReadFrom(r, c);
    EventsSplit(c, 0, Unread(r), from);
    EventsSplit(c, 0, from, |c|);
    FoldCounts(EmptyTotals, SeenEvents(r, c));
    FoldCounts(EmptyTotals, Events(c));
    if EventsIn(c, Unread(r), from) == [] {
      assert EventsIn(c, 0, Unread(r)) + [] == EventsIn(c, 0, Unread(r));
    }
  }

  // ---- Whole runs ----

  /** A chain with at least its genesis block. */
  type LiveChain = c: Blocks | c != [] witness [Block(0, [])]

  /** One call of SyncIncremental: the chain it meets and the answers it gets. */
  datatype Call = Call(chain: LiveChain, answers: Answers)

  /** The state after a run of calls, starting from s. */
  function After(s: State, depth: nat, calls: seq<Call>): State {
    if calls == [] then s
    else Sync(After(s, depth, Init(calls)), Last(calls).chain, depth, Last(calls).answers).0
  }

  /** Whether the last call of a run succeeds. */
  predicate LastSucceeds(s: State, depth: nat, calls: seq<Call>)
    requires calls != []
  {
    Sync(After(s, depth, Init(calls)), Last(calls).chain, depth, Last(calls).answers).1 == Synced
  }

  /** The node answers for the headers the merges ask for: they lie at or below the head. */
  predicate Steady(calls: seq<Call>) {
    forall i :: 0 <= i < |calls| ==> calls[i].answers.header
  }

  lemma {:induction false} SteadyInit(calls: seq<Call>)
    requires Steady(calls) && calls != []
    ensures Steady(Init(calls)) && Last(calls).answers.header
  {
    assert forall i :: 0 <= i < |Init(calls)| ==> Init(calls)[i] == calls[i];
    assert Last(calls) == calls[|calls| - 1];
  }

  /** After every successful sync of the run, the snapshot is the rescan of that sync's chain. */
  ghost predicate AgreesThroughout(depth: nat, calls: seq<Call>) {
    calls != [] ==>
      && AgreesThroughout(depth, Init(calls))
      && (LastSucceeds(Initial, depth, calls) ==> SnapshotOf(After(Initial, depth, calls)) == Rescan(Last(calls).chain))
  }

  /** No successful sync of the run has an event to skip. */
  ghost predicate NeverSkips(depth: nat, calls: seq<Call>) {
    calls != [] ==>
      && NeverSkips(depth, Init(calls))
      && (LastSucceeds(Initial, depth, calls) ==> Skipped(After(Initial, depth, Init(calls)), Last(calls).chain) == [])
  }

  /** As long as nothing is skipped, the finalized aggregates are those of the checkpoint's history
      and the window holds the rest. */
  lemma {:induction false} RunKeepsInv(depth: nat, calls: seq<Call>)
    requires Steady(calls) && NeverSkips(depth, calls)
    ensures Inv(After(Initial, depth, calls))
  {
    if calls != [] {
      SteadyInit(calls);
      RunKeepsInv(depth, Init(calls));
      SyncAgreesIff(After(Initial, depth, Init(calls)), Last(calls).chain, depth, Last(calls).answers);
    }
  }

  /** For every run of extensions, reorgs, deep reorgs and failed reads: the ledger agrees with
      the full rescan after every successful sync if and only if no successful sync had an event
      to skip. */
  lemma {:induction false} RunAgreesIffNeverSkips(depth: nat, calls: seq<Call>)
    requires Steady(calls)
    ensures AgreesThroughout(depth, calls) <==> NeverSkips(depth, calls)
  {
    if calls != [] {
      SteadyInit(calls);
      RunAgreesIffNeverSkips(depth, Init(calls));
      if NeverSkips(depth, Init(calls)) {
        RunKeepsInv(depth, Init(calls));
        SyncAgreesIff(After(Initial, depth, Init(calls)), Last(calls).chain, depth, Last(calls).answers);
      }
    }
  }

  // ---- The skipped case is real ----

  const Genesis: Block := Block(0, [])
  const MintBlock: Block := Block(0, [Log([0, 0, 7], 5)])
  const QuietBlock: Block := Block(1, [])
  const LateBlock: Block := Block(2, [Log([0, 0, 9], 3)])

  lemma {:induction false} FirstSync(c: Blocks, depth: nat)
    requires c != []
    ensures var s := Sync(Initial, c, depth, AllArrive).0;
            FullWindow(s, c) && Inv(s) && s.finalizedBlock == FinalizedTarget(|c| - 1, depth)
  {
    hide Records, EventsIn, Fold, AppendLogs, FilterLogs, Above, EventsUpTo, LogEvents;
    SyncAgreesIff(Initial, c, depth, AllArrive);
  }

  lemma {:induction false} QuietSync()
    ensures var s := Sync(Initial, [Genesis, MintBlock, QuietBlock], 12, AllArrive).0;
            && Inv(s) && s.hasCheckpoint && s.lastSeen == 2 && s.finalizedHash == [Genesis]
            && (exists events :: s.pending == [BlockRecord(1, [Genesis, MintBlock], events)])
  {
    hide Sync, Fold, EventsIn;
    var c0 := [Genesis, MintBlock, QuietBlock];
    FirstSync(c0, 12);
    var s := Sync(Initial, c0, 12, AllArrive).0;
    assert LogEvents([]) == [];
    assert LogEvents(MintBlock.logs) == [TransferEvent(0, 7, 5)] by {
      assert Init(MintBlock.logs) == [];
    }
    assert Records(c0, 1, 3) == Records(c0, 1, 2);
    assert Records(c0, 1, 1) == [];
    assert c0[..2] == [Genesis, MintBlock];
    assert s.pending == [BlockRecord(1, [Genesis, MintBlock], LogEvents(MintBlock.logs))];
  }

  /** The newest block, quiet so far, is replaced by one with a transfer while the pending block
      below it stays canonical: the sync succeeds and misses the transfer. */
  lemma {:induction false} ReplacedQuietBlockIsMissed()
    ensures var s := Sync(Initial, [Genesis, MintBlock, QuietBlock], 12, AllArrive).0;
            var c1 := [Genesis, MintBlock, LateBlock];
            && Sync(s, c1, 12, AllArrive).1 == Synced
            && SnapshotOf(Sync(s, c1, 12, AllArrive).0) != Rescan(c1)
  {
    QuietSync();
    var s := Sync(Initial, [Genesis, MintBlock, QuietBlock], 12, AllArrive).0;
    LateBlockIsMissed(s);
  }

  lemma {:induction false} LateBlockIsMissed(s: State)
    requires Inv(s) && s.hasCheckpoint && s.lastSeen == 2 && s.finalizedHash == [Genesis]
    requires exists events :: s.pending == [BlockRecord(1, [Genesis, MintBlock], events)]
    ensures var c1 := [Genesis, MintBlock, LateBlock];
            && Sync(s, c1, 12, AllArrive).1 == Synced
            && SnapshotOf(Sync(s, c1, 12, AllArrive).0) != Rescan(c1)
  {
    var c1 := [Genesis, MintBlock, LateBlock];
    RewindStandsOn(s, c1);
    RewindLoses(s, c1, None);
    SyncAgreesIff(s, c1, 12, AllArrive);
    assert c1[..2] == [Genesis, MintBlock];
    assert TopCanonical(s, c1);
    assert Skipped(s, c1) == EventsIn(c1, 2, 3);
    assert LogEvents(LateBlock.logs) != [];
  }
}
