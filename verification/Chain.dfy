/** The chain the ledger reads: blocks of Transfer logs, and the two read calls it makes. */
module Chain {
  import opened Common
  import opened Transfers

  /** A log of the indexed token whose first topic is Transfer; the query selects nothing else. */
  datatype Log = Log(topics: seq<nat>, data: nat)

  /** `tag` stands for whatever else tells two blocks of different forks apart. */
  datatype Block = Block(tag: nat, logs: seq<Log>)

  /** A chain lists its blocks from genesis (number 0) to the head. */
  type Blocks = seq<Block>

  /** A block hash commits to the block and to all its ancestors, so here it is that history. */
  type Hash = seq<Block>

  function CanonHash(c: Blocks, number: nat): Hash
    requires number < |c|
  {
    c[..number + 1]
  }

  /** If a block is canonical then so are its ancestors. */
  lemma {:induction false} CanonicalAncestors(c: Blocks, h: Hash, n: nat, m: nat)
    requires m <= n < |c| && |h| == n + 1
    requires CanonHash(c, n) == h
    ensures CanonHash(c, m) == CanonHash(h, m)
  {
    assert c[..n + 1][..m + 1] == c[..m + 1];
  }

  /** The low 20 bytes of a topic. */
  function WordToAddress(w: nat): Address {
    w % ADDRESS_SPACE
  }

  /** A Transfer log carries exactly three topics; anything else is skipped. */
  function ParseTransferLog(lg: Log): Option<TransferEvent> {
    if |lg.topics| != 3 then None
    else Some(TransferEvent(WordToAddress(lg.topics[1]), WordToAddress(lg.topics[2]), lg.data))
  }

  function LogEvents(logs: seq<Log>): seq<TransferEvent> {
    if logs == [] then []
    else match ParseTransferLog(Last(logs))
      case Some(ev) => LogEvents(Init(logs)) + [ev]
      case None => LogEvents(Init(logs))
  }

  /** The events of the blocks numbered from (inclusive) to (exclusive). */
  function EventsIn(c: Blocks, from: nat, to: nat): seq<TransferEvent>
    requires to <= |c|
  {
    if to <= from then [] else EventsIn(c, from, to - 1) + LogEvents(c[to - 1].logs)
  }

  function Events(c: Blocks): seq<TransferEvent> {
    EventsIn(c, 0, |c|)
  }

  /** What a full rescan of the chain finds. */
  function Rescan(c: Blocks): Totals {
    Fold(EmptyTotals, Events(c))
  }

  /** A log as the node returns it, with the block it came from. */
  datatype LogEntry = LogEntry(number: nat, hash: Hash, log: Log)

  function BlockLogs(c: Blocks, n: nat): seq<LogEntry>
    requires n < |c|
  {
    seq(|c[n].logs|, i requires 0 <= i < |c[n].logs| => LogEntry(n, CanonHash(c, n), c[n].logs[i]))
  }

  /** FilterLogs returns the logs of a range in ascending block and log order. */
  function FilterLogs(c: Blocks, from: nat, to: nat): seq<LogEntry>
    requires to <= |c|
  {
    if to <= from then [] else FilterLogs(c, from, to - 1) + BlockLogs(c, to - 1)
  }

  lemma {:induction false} EventsPrefix(h: Blocks, c: Blocks, from: nat, to: nat)
    requires h <= c && to <= |h|
    ensures EventsIn(h, from, to) == EventsIn(c, from, to)
  {
    if from < to {
      EventsPrefix(h, c, from, to - 1);
    }
  }

  lemma {:induction false} EventsSplit(c: Blocks, from: nat, mid: nat, to: nat)
    requires from <= mid <= to <= |c|
    ensures EventsIn(c, from, to) == EventsIn(c, from, mid) + EventsIn(c, mid, to)
  {
    if mid < to {
      EventsSplit(c, from, mid, to - 1);
      ConcatAssoc(EventsIn(c, from, mid), EventsIn(c, mid, to - 1), LogEvents(c[to - 1].logs));
    } else {
      ConcatEmpty(EventsIn(c, from, mid));
    }
  }

  lemma {:induction false} LogEventsConcat(a: seq<Log>, b: seq<Log>)
    ensures LogEvents(a + b) == LogEvents(a) + LogEvents(b)
  {
    if b == [] {
      ConcatEmpty(a);
      ConcatEmpty(LogEvents(a));
    } else {
      InitOfConcat(a, b);
      LogEventsConcat(a, Init(b));
      if ParseTransferLog(Last(b)).Some? {
        ConcatAssoc(LogEvents(a), LogEvents(Init(b)), [ParseTransferLog(Last(b)).value]);
      }
    }
  }

  /** Wherever a log stands in a block, it counts exactly when it has three topics: as a transfer of its data
      between the low 160 bits of the second and the third. Any other log might as well not be there. */
  lemma {:induction false} LogCounts(a: seq<Log>, log: Log, b: seq<Log>)
    ensures if |log.topics| == 3
            then LogEvents(a + [log] + b) ==
                   LogEvents(a)
                   + [TransferEvent(
                        log.topics[1] % 0x1_00000000_00000000_00000000_00000000_00000000,
                        log.topics[2] % 0x1_00000000_00000000_00000000_00000000_00000000, log.data)]
                   + LogEvents(b)
            else LogEvents(a + [log] + b) == LogEvents(a + b)
  {
    LogEventsConcat(a + [log], b);
    LogEventsConcat(a, b);
    InitOfSnoc(a, log);
  }
}
