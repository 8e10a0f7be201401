/** The reorg-aware ledger (ledger/incremental.go): its state, one sync as a function of the
    state and the chain, and the class whose loops compute that function. */
module IncrementalLedger {
  import opened Common
  import opened Transfers
  import opened Chain

  /** The Transfer events of one block, kept with its hash while it may still be reorged out. */
  datatype BlockRecord = BlockRecord(number: nat, hash: Hash, events: seq<TransferEvent>)

  datatype State = State(
    finalized: Totals,
    pending: seq<BlockRecord>,
    lastSeen: nat,
    baseline: bool,
    finalizedBlock: nat,
    finalizedHash: Hash,
    hasCheckpoint: bool)

  const Initial: State := State(EmptyTotals, [], 0, false, 0, [], false)

  datatype Status =
    | Synced
    | HeadUnavailable
    | LogsUnavailable
    | HeaderNotFound(number: nat)
    | DeepReorg(number: nat)

  /** Which of the node's answers arrive: the head, the logs, and the header the merge asks for last.
      `lost` counts the headers that the rewind gets before one is lost, if one is. */
  datatype Answers = Answers(head: bool, lost: Option<nat>, logs: bool, header: bool)

  const AllArrive: Answers := Answers(true, None, true, true)

  function OneLess(lost: Option<nat>): Option<nat> {
    if lost.Some? && lost.value > 0 then Some(lost.value - 1) else None
  }

  function TrustedHead(pending: seq<BlockRecord>, finalizedBlock: nat): nat {
    if pending != [] then Last(pending).number else finalizedBlock
  }

  function FinalizedTarget(head: nat, depth: nat): nat {
    if head < depth then 0 else head - depth
  }

  /** Drop pending blocks that left the canonical chain, newest first, and check the checkpoint
      when none is left. A header that is lost ends it where it stands. */
  function Rewind(s: State, c: Blocks, lost: Option<nat>): (State, Status)
    decreases |s.pending|
  {
    if s.pending != [] then
      var top := Last(s.pending);
      if lost == Some(0) || top.number >= |c| then (s, HeaderNotFound(top.number))
      else if CanonHash(c, top.number) == top.hash then (s, Synced)
      else
        var popped := Init(s.pending);
        Rewind(s.(pending := popped, lastSeen := TrustedHead(popped, s.finalizedBlock)), c, OneLess(lost))
    else if s.hasCheckpoint && (lost == Some(0) || s.finalizedBlock >= |c|) then (s, HeaderNotFound(s.finalizedBlock))
    else if s.hasCheckpoint && CanonHash(c, s.finalizedBlock) != s.finalizedHash then
      (s, DeepReorg(s.finalizedBlock))
    else (s.(lastSeen := s.finalizedBlock), Synced)
  }

  function RewindReorg(s: State, c: Blocks): (State, Status) { Rewind(s, c, None) }

  function AppendEvent(pending: seq<BlockRecord>, number: nat, hash: Hash, ev: TransferEvent): seq<BlockRecord> {
    if pending != [] && Last(pending).number == number
    then Init(pending) + [Last(pending).(events := Last(pending).events + [ev])]
    else pending + [BlockRecord(number, hash, [ev])]
  }

  function AppendLogs(pending: seq<BlockRecord>, logs: seq<LogEntry>): seq<BlockRecord> {
    if logs == [] then pending
    else
      var p := AppendLogs(pending, Init(logs));
      match ParseTransferLog(Last(logs).log)
      case None => p
      case Some(ev) => AppendEvent(p, Last(logs).number, Last(logs).hash, ev)
  }

  function Above(pending: seq<BlockRecord>, target: nat): seq<BlockRecord> {
    if pending == [] then []
    else if Last(pending).number <= target then Above(Init(pending), target)
    else Above(Init(pending), target) + [Last(pending)]
  }

  /** The events of the pending blocks at or below target, in order. */
  function EventsUpTo(pending: seq<BlockRecord>, target: nat): seq<TransferEvent> {
    if pending == [] then []
    else if Last(pending).number <= target then EventsUpTo(Init(pending), target) + Last(pending).events
    else EventsUpTo(Init(pending), target)
  }

  function PendingEvents(pending: seq<BlockRecord>): seq<TransferEvent> {
    if pending == [] then [] else PendingEvents(Init(pending)) + Last(pending).events
  }

  /** The first half of a merge: move the pending blocks up to target into the aggregates. */
  function FoldFinalized(s: State, target: nat): State {
    s.(finalized := Fold(s.finalized, EventsUpTo(s.pending, target)), pending := Above(s.pending, target))
  }

  predicate AdvancesCheckpoint(s: State, target: nat) {
    !s.hasCheckpoint || target > s.finalizedBlock
  }

  function MergeFinalized(s: State, c: Blocks, target: nat): State
    requires target < |c|
  {
    var s1 := FoldFinalized(s, target);
    if AdvancesCheckpoint(s, target)
    then s1.(finalizedBlock := target, finalizedHash := CanonHash(c, target), hasCheckpoint := true)
    else s1
  }

  /** One incremental sync against the chain as it stands. The merge folds before it looks up the header
      of its new checkpoint. */
  function Sync(s: State, c: Blocks, depth: nat, answers: Answers): (State, Status)
    requires c != []
  {
    if !answers.head then (s, HeadUnavailable) else
    var (r, status) := Rewind(s, c, answers.lost);
    if status != Synced then (r, status)
    else if FirstUnread(r) < |c| && !answers.logs then (r, LogsUnavailable)
    else
      var t, target := ReadNew(r, c), FinalizedTarget(|c| - 1, depth);
      if AdvancesCheckpoint(t, target) && !answers.header then (FoldFinalized(t, target), HeaderNotFound(target))
      else (MergeFinalized(t, c, target), Synced)
  }

  /** The first block the next read asks for. */
  function FirstUnread(r: State): nat {
    if r.baseline then r.lastSeen + 1 else 0
  }

  function ReadNew(r: State, c: Blocks): State
    requires c != []
  {
    var from := FirstUnread(r);
    var p := if from < |c| then AppendLogs(r.pending, FilterLogs(c, from, |c|)) else r.pending;
    r.(pending := p, lastSeen := |c| - 1, baseline := true)
  }

  /** The ledger's view of the chain: the finalized aggregates with the pending events on top. */
  function SnapshotOf(s: State): Totals {
    Fold(s.finalized, PendingEvents(s.pending))
  }

  class Ledger {
    const depth: nat
    const aggregates: Aggregates
    var pending: seq<BlockRecord>
    var lastSeen: nat
    var baseline: bool
    var finalizedBlock: nat
    var finalizedHash: Hash
    var hasCheckpoint: bool

    function View(): State
      reads this, aggregates
    {
      State(aggregates.View(), pending, lastSeen, baseline, finalizedBlock, finalizedHash, hasCheckpoint)
    }

    /** A finality depth of zero falls back to the default of twelve blocks. */
    constructor (finalityDepth: nat)
      ensures View() == Initial
      ensures fresh(aggregates)
      ensures depth == if finalityDepth > 0 then finalityDepth else 12
    {
      depth := if finalityDepth > 0 then finalityDepth else 12;
      var a := new Aggregates();
      aggregates := a;
      pending, lastSeen, baseline := [], 0, false;
      finalizedBlock, finalizedHash, hasCheckpoint := 0, [], false;
    }

    method RewindPending(c: Blocks, lost: Option<nat>) returns (status: Status)
      modifies this`pending, this`lastSeen
      ensures (View(), status) == Rewind(old(View()), c, lost)
    {
      var left := lost;
      while pending != []
        invariant Rewind(View(), c, left) == Rewind(old(View()), c, lost)
        decreases |pending|
      {
        var top := Last(pending);
        if left == Some(0) || top.number >= |c| {
          return HeaderNotFound(top.number);
        }
        if CanonHash(c, top.number) == top.hash {
          return Synced;
        }
        pending := Init(pending);
        lastSeen := TrustedHead(pending, finalizedBlock);
        left := OneLess(left);
      }
      if hasCheckpoint {
        if left == Some(0) || finalizedBlock >= |c| {
          return HeaderNotFound(finalizedBlock);
        }
        if CanonHash(c, finalizedBlock) != finalizedHash {
          return DeepReorg(finalizedBlock);
        }
      }
      lastSeen := TrustedHead(pending, finalizedBlock);
      return Synced;
    }

    method AddEvent(number: nat, hash: Hash, ev: TransferEvent)
      modifies this`pending
      ensures pending == AppendEvent(old(pending), number, hash, ev)
    {
      var n := |pending|;
      if n > 0 && pending[n - 1].number == number {
        pending := pending[n - 1 := pending[n - 1].(events := pending[n - 1].events + [ev])];
      } else {
        pending := pending + [BlockRecord(number, hash, [ev])];
      }
    }

    method AppendRange(c: Blocks, from: nat)
      requires from < |c|
      modifies this`pending
      ensures pending == AppendLogs(old(pending), FilterLogs(c, from, |c|))
    {
      var logs := FilterLogs(c, from, |c|);
      var i := 0;
      while i < |logs|
        invariant 0 <= i <= |logs|
        invariant pending == AppendLogs(old(pending), logs[..i])
      {
        var parsed := ParseTransferLog(logs[i].log);
        if parsed.Some? {
          AddEvent(logs[i].number, logs[i].hash, parsed.value);
        }
        assert Init(logs[..i + 1]) == logs[..i];
        i := i + 1;
      }
      assert logs[..i] == logs;
    }

    method Merge(c: Blocks, target: nat, header: bool) returns (status: Status)
      requires target < |c|
      modifies this, aggregates
      ensures var failed := AdvancesCheckpoint(old(View()), target) && !header;
              && status == (if failed then HeaderNotFound(target) else Synced)
              && View() == if failed then FoldFinalized(old(View()), target) else MergeFinalized(old(View()), c, target)
    {
      hide Fold;
      FoldNone(aggregates.View());
      var kept: seq<BlockRecord> := [];
      var i := 0;
      while i < |pending|
        invariant 0 <= i <= |pending|
        invariant kept == Above(pending[..i], target)
        invariant View() == old(View()).(finalized := aggregates.View())
        invariant aggregates.View() == Fold(old(aggregates.View()), EventsUpTo(pending[..i], target))
      {
        var br := pending[i];
        assert Init(pending[..i + 1]) == pending[..i] && Last(pending[..i + 1]) == br;
        if br.number <= target {
          FoldConcat(old(aggregates.View()), EventsUpTo(pending[..i], target), br.events);
          aggregates.ApplyAll(br.events);
        } else {
          kept := kept + [br];
        }
        i := i + 1;
      }
      assert pending[..i] == pending;
      pending := kept;
      if !hasCheckpoint || target > finalizedBlock {
        if !header {
          return HeaderNotFound(target);
        }
        finalizedBlock := target;
        finalizedHash := CanonHash(c, target);
        hasCheckpoint := true;
      }
      return Synced;
    }

    method SyncIncremental(c: Blocks, answers: Answers) returns (status: Status)
      requires c != []
      modifies this, aggregates
      ensures (View(), status) == Sync(old(View()), c, depth, answers)
    {
      if !answers.head {
        return HeadUnavailable;
      }
      var head := |c| - 1;
      status := RewindPending(c, answers.lost);
      if status != Synced {
        return;
      }
      ghost var rewound := View();
      var from := 0;
      if baseline {
        from := lastSeen + 1;
      }
      assert from == FirstUnread(rewound);
      if from <= head {
        if !answers.logs {
          return LogsUnavailable;
        }
        AppendRange(c, from);
      }
      lastSeen := head;
      baseline := true;
      assert View() == ReadNew(rewound, c);
      status := Merge(c, FinalizedTarget(head, depth), answers.header);
    }

    /** The overlay works on a copy: the ledger's own aggregates stay as they are. */
    method Snapshot() returns (s: Aggregates)
      ensures fresh(s)
      ensures s.View() == SnapshotOf(View())
    {
      s := new Aggregates.Copy(aggregates);
      var i := 0;
      while i < |pending|
        invariant 0 <= i <= |pending|
        invariant s.View() == Fold(aggregates.View(), PendingEvents(pending[..i]))
      {
        FoldConcat(aggregates.View(), PendingEvents(pending[..i]), pending[i].events);
        s.ApplyAll(pending[i].events);
        assert Init(pending[..i + 1]) == pending[..i];
        i := i + 1;
      }
      assert pending[..i] == pending;
    }
  }
}
