/** The settlements a restarted gateway lists (x402/gateway.go, AttachJournal), against those the
    gateway recorded while it ran. */
module GatewayMirror {
  import opened Common
  import opened MandateAccounts
  import opened Policy
  import opened Gateway
  import opened GatewaySafety
  import opened GatewayPlaces
  import opened GatewayRestart
  import Token = Stablecoin

  /** A record as the journal keeps it: at its whole second. */
  function Second(r: Record): Record { r.(time := UnixSeconds(r.time) * SECOND) }

  function Seconds(s: seq<Record>): seq<Record> {
    if s == [] then [] else Seconds(Init(s)) + [Second(Last(s))]
  }

  /** In the journal, but not yet in the list of settlements. */
  predicate Between(ph: Phase) { ph.Journaled? || ph.Committed? }

  predicate JournaledAs(active: map<Nonce, Phase>, n: Nonce, r: Record) {
    n in active && Between(active[n]) && Second(active[n].record) == r
  }

  ghost predicate Pending(active: map<Nonce, Phase>, r: Record) {
    exists n: Nonce :: JournaledAs(active, n, r)
  }

  /** The journal lists the recorded settlements and those about to be recorded, no others. */
  ghost predicate Mirror(listed: seq<Record>, settlements: seq<Record>, active: map<Nonce, Phase>) {
    forall r :: r in listed <==> r in Seconds(settlements) || Pending(active, r)
  }

  /** Lines keyed by a transaction are of known transactions, and a settlement waiting for its line
      has none yet. */
  ghost predicate FreshLines(journal: seq<Entry>, txs: set<TxHash>, active: map<Nonce, Phase>) {
    && (forall tx :: HasId(journal, OfTx(tx)) ==> tx in txs)
    && (forall n :: n in active && active[n].Mined? ==> !HasId(journal, OfTx(active[n].tx)))
  }

  ghost predicate LinesDistinct(journal: seq<Entry>) {
    && Distinct(RestoredSettlements(journal))
    && forall tx :: tx in Txs(RestoredSettlements(journal)) ==> HasId(journal, OfTx(tx))
  }

  // ---- One more line ----

  lemma {:induction false} HasIdAppend(journal: seq<Entry>, e: Entry, written: bool, id: EntryId)
    ensures HasId(AppendEntry(journal, e, written), id) <==> HasId(journal, id) || (written && e.id == id)
  {
    hide HasId;
    HasIdSnoc(journal, e, id);
  }

  lemma {:induction false} ListedAppend(journal: seq<Entry>, e: Entry, written: bool)
    ensures RestoredSettlements(AppendEntry(journal, e, written)) ==
              RestoredSettlements(journal) + if written && !HasId(journal, e.id) then SettlementsIn(e) else []
  {
    hide HasId, SettlementsIn;
    InitOfSnoc(journal, e);
    ConcatEmpty(RestoredSettlements(journal));
  }

  lemma {:induction false} ListedKept(journal: seq<Entry>, e: Entry, written: bool)
    requires LinesDistinct(journal)
    ensures LinesDistinct(AppendEntry(journal, e, written))
  {
    hide HasId, Distinct, Txs, AppendEntry, RestoredSettlements;
    var j := AppendEntry(journal, e, written);
    ListedAppend(journal, e, written);
    ConcatEmpty(RestoredSettlements(journal));
    if SettlementsIn(e) != [] {
      TxsSnoc(RestoredSettlements(journal), SettlementsIn(e)[0]);
    }
    forall tx | tx in Txs(RestoredSettlements(j))
      ensures HasId(j, OfTx(tx))
    {
      HasIdAppend(journal, e, written, OfTx(tx));
    }
  }

  // ---- The mirror ----

  /** Which records are pending, when the request at n changes its phase or ends. */
  lemma {:induction false} PendingAfter(active: map<Nonce, Phase>, n: Nonce, ph: Phase, r: Record)
    ensures Pending(active[n := ph], r) <==> Pending(active - {n}, r) || (Between(ph) && r == Second(ph.record))
    ensures Pending(active, r) <==>
              Pending(active - {n}, r) || (n in active && Between(active[n]) && r == Second(active[n].record))
  {
    hide Second;
    var put, dropped := active[n := ph], active - {n};
    if Pending(put, r) {
      var k: Nonce :| JournaledAs(put, k, r);
      assert k == n || JournaledAs(dropped, k, r);
    }
    if Pending(active, r) {
      var k: Nonce :| JournaledAs(active, k, r);
      assert k == n || JournaledAs(dropped, k, r);
    }
    if Pending(dropped, r) {
      var k: Nonce :| JournaledAs(dropped, k, r);
      assert JournaledAs(active, k, r) && JournaledAs(put, k, r);
    }
    assert Between(ph) ==> JournaledAs(put, n, Second(ph.record));
    assert n in active && Between(active[n]) ==> JournaledAs(active, n, Second(active[n].record));
  }

  /** A request moves between phases that are not about to be recorded, or ends. */
  lemma {:induction false} MirrorIdle(listed: seq<Record>, settlements: seq<Record>, active: map<Nonce, Phase>,
      n: Nonce, ph: Phase)
    requires Mirror(listed, settlements, active)
    requires (n in active ==> !Between(active[n])) && !Between(ph)
    ensures Mirror(listed, settlements, active[n := ph]) && Mirror(listed, settlements, active - {n})
  {
    hide Seconds, Second, Pending;
    forall r
      ensures Pending(active[n := ph], r) == Pending(active, r) == Pending(active - {n}, r)
    {
      PendingAfter(active, n, ph, r);
    }
  }

  lemma {:induction false} MirrorJournal(listed: seq<Record>, settlements: seq<Record>, active: map<Nonce, Phase>,
      n: Nonce, ph: Phase)
    requires Mirror(listed, settlements, active)
    requires n in active && !Between(active[n]) && ph.Journaled?
    ensures Mirror(listed + [Second(ph.record)], settlements, active[n := ph])
  {
    hide Seconds, Second, Pending;
    forall r
      ensures Pending(active[n := ph], r) <==> Pending(active, r) || r == Second(ph.record)
    {
      PendingAfter(active, n, ph, r);
    }
  }

  lemma {:induction false} MirrorCommit(listed: seq<Record>, settlements: seq<Record>, active: map<Nonce, Phase>,
      n: Nonce, ph: Phase)
    requires Mirror(listed, settlements, active)
    requires n in active && active[n].Journaled? && ph.Committed? && ph.record == active[n].record
    ensures Mirror(listed, settlements, active[n := ph])
  {
    hide Seconds, Second, Pending;
    forall r
      ensures Pending(active[n := ph], r) == Pending(active, r)
    {
      PendingAfter(active, n, ph, r);
    }
  }

  lemma {:induction false} MirrorList(listed: seq<Record>, settlements: seq<Record>, active: map<Nonce, Phase>,
      n: Nonce, ph: Phase)
    requires Mirror(listed, settlements, active)
    requires n in active && active[n].Committed? && !Between(ph)
    ensures Mirror(listed, settlements + [active[n].record], active[n := ph])
  {
    InitOfSnoc(settlements, active[n].record);
    assert Seconds(settlements + [active[n].record]) == Seconds(settlements) + [Second(active[n].record)];
    hide Seconds, Second, Pending;
    forall r
      ensures Pending(active, r) <==> Pending(active[n := ph], r) || r == Second(active[n].record)
    {
      PendingAfter(active, n, ph, r);
    }
  }

  /** Whether a step changes the request at n between phases that are not about to be recorded. */
  ghost predicate Idles(g: State, g': State, n: Nonce, ph: Phase) {
    && (n in g.active ==> !Between(g.active[n])) && !Between(ph)
    && (g'.active == g.active || g'.active == g.active[n := ph] || g'.active == g.active - {n})
    && g'.settlements == g.settlements
  }

  lemma {:induction false} IdleDecide(g: State, cfg: Config, n: Nonce, middle: seq<Decision>, written: bool)
    requires n in g.active && g.active[n].Verified?
    ensures var action := ChainDecide(g, cfg, g.active[n].p, g.active[n].valid, middle, PreSettlement).0.action;
            Idles(g, DecideStep(g, cfg, n, middle, written), n,
                  Settling(g.active[n].p, action != Approve, HeldBy(g, cfg, g.active[n].p, g.active[n].valid, middle)))
  {
    hide ChainDecide, HeldBy, AppendEntry, DecideStep;
    DecideAsUpdate(g, cfg, n, middle, written);
  }

  lemma {:induction false} IdleSubmit(g: State, cfg: Config, n: Nonce, tx: TxHash, included: bool, reported: bool,
      block: nat)
    requires n in g.active && g.active[n].Settling?
    ensures var ph := g.active[n];
            Idles(g, SubmitStep(g, cfg, n, tx, included, reported, block), n,
                  Mined(ph.p, ph.deferred, ph.held, tx, block))
  {
    hide OnChain, Notified;
  }

  lemma {:induction false} IdleDeliver(g: State, cfg: Config, n: Nonce, delivered: bool, refundTx: TxHash,
      refund: Reply, written: bool)
    requires n in g.active && g.active[n].Delivering?
    ensures Idles(g, DeliverStep(g, cfg, n, delivered, refundTx, refund, written), n, g.active[n])
  {
    hide AppendEntry, RefundOutcome, DeliverStep;
    DeliverAsUpdate(g, cfg, n, delivered, refundTx, refund, written);
  }

  lemma {:induction false} IdleResume(g: State, cfg: Config, p: Payment, middle: seq<Decision>)
    requires Enabled(g, Resume(p, middle))
    ensures Idles(g, ResumeStep(g, cfg, p, middle), p.auth.nonce,
                  Delivering(g.inflight[p.auth.nonce].p, g.inflight[p.auth.nonce].record))
  {
    hide ChainDecide;
  }

  lemma {:induction false} IdleStamp(g: State, n: Nonce, written: bool, receiptKnown: bool)
    requires n in g.active && g.active[n].Listed?
    ensures Idles(g, StampStep(g, n, written, receiptKnown), n, Delivering(g.active[n].p, g.active[n].record))
  {
    hide AppendEntry;
  }

  lemma {:induction false} MirrorIdles(listed: seq<Record>, g: State, g': State, n: Nonce, ph: Phase)
    requires Mirror(listed, g.settlements, g.active) && Idles(g, g', n, ph)
    ensures Mirror(listed, g'.settlements, g'.active)
  {
    hide Mirror;
    MirrorIdle(listed, g.settlements, g.active, n, ph);
  }

  ghost predicate MirrorOf(g: State) {
    Mirror(RestoredSettlements(g.journal), g.settlements, g.active)
  }

  lemma {:induction false} MirrorOfIdle(g: State, cfg: Config, step: Step, n: Nonce, ph: Phase)
    requires Enabled(g, step) && MirrorOf(g) && Idles(g, Next(g, cfg, step), n, ph)
    requires step.Journal? ==> !step.written
    ensures MirrorOf(Next(g, cfg, step))
  {
    hide Mirror, Idles, Next, AppendEntry, RefundOutcome, HasId, RestoredSettlements;
    StepAppends(g, cfg, step);
    ConcatEmpty(RestoredSettlements(g.journal));
    match LineOf(g, cfg, step) {
      case None =>
      case Some(line) => ListedAppend(g.journal, line.0, line.1);
    }
    MirrorIdles(RestoredSettlements(g.journal), g, Next(g, cfg, step), n, ph);
  }

  lemma {:induction false} MirrorOfJournal(g: State, cfg: Config, n: Nonce)
    requires Enabled(g, Journal(n, true)) && MirrorOf(g) && FreshLines(g.journal, g.txs, g.active)
    ensures MirrorOf(JournalStep(g, n, true))
  {
    var ph := g.active[n];
    assert !HasId(g.journal, OfTx(ph.tx));
    hide Mirror, AppendEntry, HasId, RestoredSettlements, FreshLines;
    var r := RecordFor(g, ph.p, ph.tx);
    ListedAppend(g.journal, SettlementEntry(r), true);
    MirrorJournal(RestoredSettlements(g.journal), g.settlements, g.active, n,
                  Journaled(ph.p, ph.deferred, ph.held, r, ph.block));
  }

  lemma {:induction false} MirrorOfCommit(g: State, n: Nonce)
    requires Enabled(g, CommitIt(n)) && MirrorOf(g)
    ensures MirrorOf(CommitStep(g, n))
  {
    hide Mirror, RestoredSettlements, Notified;
    var ph := g.active[n];
    MirrorCommit(RestoredSettlements(g.journal), g.settlements, g.active, n,
                 Committed(ph.p, ph.deferred, ph.record, ph.block, g.now));
  }

  lemma {:induction false} MirrorOfList(g: State, n: Nonce)
    requires Enabled(g, ListIt(n)) && MirrorOf(g)
    ensures MirrorOf(ListStep(g, n))
  {
    hide Mirror, RestoredSettlements;
    var ph := g.active[n];
    MirrorList(RestoredSettlements(g.journal), g.settlements, g.active, n,
               Listed(ph.p, ph.deferred, ph.record, ph.block, ph.at));
  }

  lemma {:induction false} MirrorKept(g: State, cfg: Config, step: Step)
    requires Enabled(g, step) && MirrorOf(g) && FreshLines(g.journal, g.txs, g.active)
    ensures MirrorOf(Next(g, cfg, step))
  {
    hide MirrorOf, FreshLines, DecideStep, SubmitStep, CommitStep, ListStep, StampStep, DeliverStep, ResumeStep,
         AppendEntry, Token.StateAfter, VerifyPayment, Notified, ChainDecide, HeldBy;
    match step
    case DecideOn(n, middle, written) =>
      IdleDecide(g, cfg, n, middle, written);
      var action := ChainDecide(g, cfg, g.active[n].p, g.active[n].valid, middle, PreSettlement).0.action;
      MirrorOfIdle(g, cfg, step, n,
                   Settling(g.active[n].p, action != Approve,
                            HeldBy(g, cfg, g.active[n].p, g.active[n].valid, middle)));
    case Submit(n, tx, included, reported, block) =>
      IdleSubmit(g, cfg, n, tx, included, reported, block);
      var ph := g.active[n];
      MirrorOfIdle(g, cfg, step, n, Mined(ph.p, ph.deferred, ph.held, tx, block));
    case Journal(n, written) =>
      if written {
        MirrorOfJournal(g, cfg, n);
      } else {
        MirrorOfIdle(g, cfg, step, n, g.active[n]);
      }
    case CommitIt(n) => MirrorOfCommit(g, n);
    case ListIt(n) => MirrorOfList(g, n);
    case StampIt(n, written, receiptKnown) =>
      IdleStamp(g, n, written, receiptKnown);
      MirrorOfIdle(g, cfg, step, n, Delivering(g.active[n].p, g.active[n].record));
    case Deliver(n, delivered, refundTx, refund, written) =>
      IdleDeliver(g, cfg, n, delivered, refundTx, refund, written);
      MirrorOfIdle(g, cfg, step, n, g.active[n]);
    case Resume(p, middle) =>
      IdleResume(g, cfg, p, middle);
      MirrorOfIdle(g, cfg, step, p.auth.nonce, Delivering(g.inflight[p.auth.nonce].p, g.inflight[p.auth.nonce].record));
    case Arrive(p) =>
      MirrorOfIdle(g, cfg, step, p.auth.nonce, Verified(p, VerifyPayment(cfg, g.token, p, UnixSeconds(g.now))));
    case _ => MirrorQuiet(g, cfg, step);
  }

  lemma {:induction false} MirrorQuiet(g: State, cfg: Config, step: Step)
    requires Enabled(g, step) && MirrorOf(g) && (step.RevokeIt? || step.Outside? || step.Tick?)
    ensures MirrorOf(Next(g, cfg, step))
  {
    hide Mirror, AppendEntry, HasId, RestoredSettlements, Token.StateAfter;
    StepAppends(g, cfg, step);
    ConcatEmpty(RestoredSettlements(g.journal));
    if step.RevokeIt? {
      ListedAppend(g.journal, Entry(OfRevocation(step.id), RevocationBody(step.delegator, step.id)), step.written);
    }
  }

  // ---- Fresh lines ----

  lemma {:induction false} FreshPut(journal: seq<Entry>, txs: set<TxHash>, active: map<Nonce, Phase>, n: Nonce,
      ph: Phase)
    requires FreshLines(journal, txs, active) && (ph.Mined? ==> !HasId(journal, OfTx(ph.tx)))
    ensures FreshLines(journal, txs, active[n := ph]) && FreshLines(journal, txs, active - {n})
  {
    hide HasId;
  }

  /** A line keyed otherwise than by the transaction of a waiting settlement. */
  lemma {:induction false} FreshAppend(journal: seq<Entry>, txs: set<TxHash>, active: map<Nonce, Phase>, e: Entry,
      written: bool)
    requires FreshLines(journal, txs, active)
    requires e.id.OfTx? ==> e.id.tx in txs && forall n :: n in active && active[n].Mined? ==> active[n].tx != e.id.tx
    ensures FreshLines(AppendEntry(journal, e, written), txs, active)
  {
    hide HasId, AppendEntry;
    forall tx: TxHash
      ensures HasId(AppendEntry(journal, e, written), OfTx(tx)) <==>
                HasId(journal, OfTx(tx)) || (written && e.id == OfTx(tx))
    {
      HasIdAppend(journal, e, written, OfTx(tx));
    }
  }

  lemma {:induction false} FreshMoreTxs(journal: seq<Entry>, txs: set<TxHash>, more: set<TxHash>,
      active: map<Nonce, Phase>)
    requires FreshLines(journal, txs, active) && txs <= more
    ensures FreshLines(journal, more, active)
  {
    hide HasId;
  }

  ghost predicate FreshOf(g: State) { FreshLines(g.journal, g.txs, g.active) }

  lemma {:induction false} FreshOfSubmit(g: State, cfg: Config, n: Nonce, tx: TxHash, included: bool, reported: bool,
      block: nat)
    requires FreshOf(g) && Enabled(g, Submit(n, tx, included, reported, block))
    ensures FreshOf(SubmitStep(g, cfg, n, tx, included, reported, block))
  {
    assert !HasId(g.journal, OfTx(tx));
    hide FreshLines, HasId, OnChain, Notified;
    var ph := g.active[n];
    FreshPut(g.journal, g.txs, g.active, n, Mined(ph.p, ph.deferred, ph.held, tx, block));
    FreshMoreTxs(g.journal, g.txs, g.txs + {tx}, g.active[n := Mined(ph.p, ph.deferred, ph.held, tx, block)]);
    FreshMoreTxs(g.journal, g.txs, g.txs + {tx}, g.active - {n});
  }

  /** Waiting settlements have transactions of their own. */
  lemma {:induction false} MinedApart(g: State, n: Nonce)
    requires Shape(g) && n in g.active && g.active[n].Mined?
    ensures g.active[n].tx in g.txs
    ensures forall k :: k in g.active - {n} && g.active[k].Mined? ==> g.active[k].tx != g.active[n].tx
  {
    hide InflightOk, Apart;
    assert PhaseOk(g.landed, n, g.active[n]);
    forall k | k in g.active - {n} && g.active[k].Mined?
      ensures g.active[k].tx != g.active[n].tx
    {
      assert PhaseOk(g.landed, k, g.active[k]);
    }
  }

  lemma {:induction false} FreshOfJournal(g: State, n: Nonce, written: bool)
    requires Shape(g) && FreshOf(g) && Enabled(g, Journal(n, written))
    ensures FreshOf(JournalStep(g, n, written))
  {
    hide FreshLines, HasId, Notified, Shape, AppendEntry;
    var ph := g.active[n];
    var r := RecordFor(g, ph.p, ph.tx);
    var next := Journaled(ph.p, ph.deferred, ph.held, r, ph.block);
    MinedApart(g, n);
    FreshPut(g.journal, g.txs, g.active, n, next);
    FreshAppend(g.journal, g.txs, g.active[n := next], SettlementEntry(r), true);
  }

  lemma {:induction false} FreshOfCommit(g: State, n: Nonce)
    requires FreshOf(g) && Enabled(g, CommitIt(n))
    ensures FreshOf(CommitStep(g, n))
  {
    hide FreshLines, HasId, Notified;
    var ph := g.active[n];
    FreshPut(g.journal, g.txs, g.active, n, Committed(ph.p, ph.deferred, ph.record, ph.block, g.now));
  }

  lemma {:induction false} FreshOfList(g: State, n: Nonce)
    requires FreshOf(g) && Enabled(g, ListIt(n))
    ensures FreshOf(ListStep(g, n))
  {
    hide FreshLines, HasId;
    var ph := g.active[n];
    FreshPut(g.journal, g.txs, g.active, n, Listed(ph.p, ph.deferred, ph.record, ph.block, ph.at));
  }

  lemma {:induction false} FreshOfStamp(g: State, n: Nonce, written: bool, receiptKnown: bool)
    requires FreshOf(g) && Enabled(g, StampIt(n, written, receiptKnown))
    ensures FreshOf(StampStep(g, n, written, receiptKnown))
  {
    hide FreshLines, HasId, AppendEntry;
    var ph := g.active[n];
    var e := DecisionEntry(ph.p, g.now, true);
    FreshAppend(g.journal, g.txs, g.active, e, written);
    FreshPut(AppendEntry(g.journal, e, written), g.txs, g.active, n, Delivering(ph.p, ph.record));
  }

  lemma {:induction false} FreshOfDecide(g: State, cfg: Config, n: Nonce, middle: seq<Decision>, written: bool)
    requires FreshOf(g) && n in g.active && g.active[n].Verified?
    ensures FreshOf(DecideStep(g, cfg, n, middle, written))
  {
    hide FreshLines, HasId, ChainDecide, HeldBy, AppendEntry;
    var p, valid := g.active[n].p, g.active[n].valid;
    var e := DecisionEntry(p, g.now, false);
    var action := ChainDecide(g, cfg, p, valid, middle, PreSettlement).0.action;
    FreshAppend(g.journal, g.txs, g.active, e, written);
    FreshPut(AppendEntry(g.journal, e, written), g.txs, g.active, n,
             Settling(p, action != Approve, HeldBy(g, cfg, p, valid, middle)));
  }

  lemma {:induction false} MinedKnown(g: State, tx: TxHash)
    requires Shape(g) && tx !in g.txs
    ensures forall k :: k in g.active && g.active[k].Mined? ==> g.active[k].tx != tx
  {
    hide InflightOk, Apart;
    forall k | k in g.active && g.active[k].Mined?
      ensures g.active[k].tx != tx
    {
      assert PhaseOk(g.landed, k, g.active[k]);
    }
  }

  lemma {:induction false} FreshOfDeliver(g: State, cfg: Config, n: Nonce, delivered: bool, refundTx: TxHash,
      refund: Reply, written: bool)
    requires Shape(g) && FreshOf(g) && Enabled(g, Deliver(n, delivered, refundTx, refund, written))
    ensures FreshOf(DeliverStep(g, cfg, n, delivered, refundTx, refund, written))
  {
    hide FreshLines, HasId, AppendEntry, RefundOutcome, Shape;
    var r := g.active[n].record;
    var rest := g.active - {n};
    MinedKnown(g, refundTx);
    FreshPut(g.journal, g.txs, g.active, n, g.active[n]);
    FreshMoreTxs(g.journal, g.txs, g.txs + {refundTx}, rest);
    FreshAppend(g.journal, g.txs + {refundTx}, rest, Entry(OfTx(refundTx), RefundBody(r.payer, r.amount)), written);
    FreshAppend(g.journal, g.txs, rest, Entry(OfPending(r.tx), RefundPendingBody(r.payer, r.amount)), written);
    FreshAppend(g.journal, g.txs + {refundTx}, rest, Entry(OfPending(r.tx), RefundPendingBody(r.payer, r.amount)),
                written);
  }

  lemma {:induction false} FreshKept(g: State, cfg: Config, step: Step)
    requires Shape(g) && FreshOf(g) && Enabled(g, step)
    ensures FreshOf(Next(g, cfg, step))
  {
    hide FreshLines, HasId, DecideStep, SubmitStep, JournalStep, CommitStep, ListStep, StampStep, DeliverStep,
         AppendEntry, Token.StateAfter, VerifyPayment, ChainDecide, Shape;
    match step
    case DecideOn(n, middle, written) => FreshOfDecide(g, cfg, n, middle, written);
    case Submit(n, tx, included, reported, block) => FreshOfSubmit(g, cfg, n, tx, included, reported, block);
    case Journal(n, written) => FreshOfJournal(g, n, written);
    case CommitIt(n) => FreshOfCommit(g, n);
    case ListIt(n) => FreshOfList(g, n);
    case StampIt(n, written, receiptKnown) => FreshOfStamp(g, n, written, receiptKnown);
    case Deliver(n, delivered, refundTx, refund, written) =>
      FreshOfDeliver(g, cfg, n, delivered, refundTx, refund, written);
    case Resume(p, middle) =>
      FreshPut(g.journal, g.txs, g.active, p.auth.nonce,
               Delivering(g.inflight[p.auth.nonce].p, g.inflight[p.auth.nonce].record));
    case Arrive(p) =>
      FreshPut(g.journal, g.txs, g.active, p.auth.nonce,
               Verified(p, VerifyPayment(cfg, g.token, p, UnixSeconds(g.now))));
    case RevokeIt(delegator, id, written) =>
      FreshAppend(g.journal, g.txs, g.active, Entry(OfRevocation(id), RevocationBody(delegator, id)), written);
    case _ =>
  }

  lemma {:induction false} ListedByStep(g: State, cfg: Config, step: Step)
    requires Enabled(g, step) && LinesDistinct(g.journal)
    ensures LinesDistinct(Next(g, cfg, step).journal)
  {
    hide LinesDistinct, AppendEntry, Next, RefundOutcome;
    StepAppends(g, cfg, step);
    match LineOf(g, cfg, step)
    case None =>
    case Some(line) => ListedKept(g.journal, line.0, line.1);
  }

  // ---- Whole runs ----

  lemma {:induction false} StartMirrored(token: Token.TokenState, head: nat, now: int)
    ensures var g := Started(token, head, now); MirrorOf(g) && FreshOf(g) && LinesDistinct(g.journal)
  {}

  lemma {:induction false} RunMirrored(token: Token.TokenState, head: nat, now: int, cfg: Config, steps: seq<Step>)
    requires ValidRun(Started(token, head, now), cfg, steps)
    ensures var g := After(Started(token, head, now), cfg, steps); MirrorOf(g) && FreshOf(g) && LinesDistinct(g.journal)
  {
    hide Next, MirrorOf, FreshLines, LinesDistinct, Shape;
    if steps == [] {
      StartMirrored(token, head, now);
    } else {
      RunMirrored(token, head, now, cfg, Init(steps));
      RunPlaced(token, head, now, cfg, Init(steps));
      var g := After(Started(token, head, now), cfg, Init(steps));
      MirrorKept(g, cfg, Last(steps));
      FreshKept(g, cfg, Last(steps));
      ListedByStep(g, cfg, Last(steps));
    }
  }

  /** With nothing in flight a restarted gateway lists the very settlements the running one
      recorded, each once, at their whole seconds. */
  lemma {:induction false} RestartListsSettlements(token: Token.TokenState, head: nat, now: int, cfg: Config,
      steps: seq<Step>)
    requires ValidRun(Started(token, head, now), cfg, steps)
    requires After(Started(token, head, now), cfg, steps).active == map[]
    ensures var g := After(Started(token, head, now), cfg, steps);
            && Distinct(g.settlements) && Distinct(Restarted(g).settlements)
            && forall r :: r in Restarted(g).settlements <==> r in Seconds(g.settlements)
  {
    hide After, Distinct, Seconds, RestoredSettlements, RestoredAccounts, RestoredRevoked, Shape, FreshLines;
    RunMirrored(token, head, now, cfg, steps);
    RunPlaced(token, head, now, cfg, steps);
    var g := After(Started(token, head, now), cfg, steps);
    forall r
      ensures !Pending(g.active, r)
    {}
  }

  // ---- Order ----

  /** The requests whose settlement lines are written, in the order of the lines. */
  function JournalOrder(steps: seq<Step>): seq<Nonce> {
    if steps == [] then []
    else
      var before := JournalOrder(Init(steps));
      if Last(steps).Journal? && Last(steps).written then before + [Last(steps).nonce] else before
  }

  /** The requests whose settlements are appended to the list, in the order of the list. */
  function ListOrder(steps: seq<Step>): seq<Nonce> {
    if steps == [] then []
    else
      var before := ListOrder(Init(steps));
      if Last(steps).ListIt? then before + [Last(steps).nonce] else before
  }

  datatype Turn = Turn(nonce: Nonce, record: Record)

  ghost function JournalTurns(g0: State, cfg: Config, steps: seq<Step>): seq<Turn>
    requires ValidRun(g0, cfg, steps)
  {
    if steps == [] then []
    else
      var g, step := After(g0, cfg, Init(steps)), Last(steps);
      var before := JournalTurns(g0, cfg, Init(steps));
      if step.Journal? && step.written
      then before + [Turn(step.nonce, Second(RecordFor(g, g.active[step.nonce].p, g.active[step.nonce].tx)))]
      else before
  }

  ghost function ListTurns(g0: State, cfg: Config, steps: seq<Step>): seq<Turn>
    requires ValidRun(g0, cfg, steps)
  {
    if steps == [] then []
    else
      var g, step := After(g0, cfg, Init(steps)), Last(steps);
      var before := ListTurns(g0, cfg, Init(steps));
      if step.ListIt? then before + [Turn(step.nonce, Second(g.active[step.nonce].record))] else before
  }

  function TurnNonces(turns: seq<Turn>): (nonces: seq<Nonce>)
    ensures |nonces| == |turns|
    ensures forall i :: 0 <= i < |turns| ==> nonces[i] == turns[i].nonce
  {
    if turns == [] then [] else TurnNonces(Init(turns)) + [Last(turns).nonce]
  }

  function TurnRecords(turns: seq<Turn>): (records: seq<Record>)
    ensures |records| == |turns|
    ensures forall i :: 0 <= i < |turns| ==> records[i] == turns[i].record
  {
    if turns == [] then [] else TurnRecords(Init(turns)) + [Last(turns).record]
  }

  /** The turns of one request. */
  function TurnsOf(turns: seq<Turn>, n: Nonce): seq<Turn> {
    if turns == [] then []
    else if Last(turns).nonce == n then TurnsOf(Init(turns), n) + [Last(turns)] else TurnsOf(Init(turns), n)
  }

  lemma {:induction false} TurnsOfSnoc(turns: seq<Turn>, t: Turn, n: Nonce)
    ensures TurnsOf(turns + [t], n) == if t.nonce == n then TurnsOf(turns, n) + [t] else TurnsOf(turns, n)
    ensures TurnRecords(turns + [t]) == TurnRecords(turns) + [t.record]
    ensures TurnNonces(turns + [t]) == TurnNonces(turns) + [t.nonce]
  {
    InitOfSnoc(turns, t);
  }

  lemma {:induction false} TurnsOfMember(turns: seq<Turn>, t: Turn)
    ensures t in TurnsOf(turns, t.nonce) <==> t in turns
  {
    if turns != [] {
      TurnsOfMember(Init(turns), t);
      assert turns == Init(turns) + [Last(turns)];
    }
  }

  lemma {:induction false} SplitTurns(a: seq<Turn>, n: Nonce)
    requires a != []
    ensures TurnsOf(a, n) == if Last(a).nonce == n then TurnsOf(Init(a), n) + [Last(a)] else TurnsOf(Init(a), n)
    ensures TurnNonces(a) == TurnNonces(Init(a)) + [Last(a).nonce]
    ensures a == Init(a) + [Last(a)]
  {}

  lemma {:induction false} SameSnoc<T>(a: seq<T>, x: T, b: seq<T>, y: T)
    requires a + [x] == b + [y]
    ensures a == b && x == y
  {
    InitOfSnoc(a, x);
    InitOfSnoc(b, y);
  }

  /** Two lists of turns with the same nonces in the same order, and the same turns for each nonce. */
  lemma {:induction false} SameTurns(a: seq<Turn>, b: seq<Turn>)
    requires TurnNonces(a) == TurnNonces(b) && forall n: Nonce :: TurnsOf(a, n) == TurnsOf(b, n)
    ensures a == b
    decreases |a|
  {
    hide TurnNonces, TurnsOf;
    assert |a| == |TurnNonces(a)| == |b|;
    if a != [] {
      var x, y := Last(a), Last(b);
      SplitTurns(a, x.nonce);
      SplitTurns(b, y.nonce);
      SameSnoc(TurnNonces(Init(a)), x.nonce, TurnNonces(Init(b)), y.nonce);
      SameSnoc(TurnsOf(Init(a), x.nonce), x, TurnsOf(Init(b), x.nonce), y);
      forall n: Nonce
        ensures TurnsOf(Init(a), n) == TurnsOf(Init(b), n)
      {
        SplitTurns(a, n);
        SplitTurns(b, n);
        assert TurnsOf(a, n) == TurnsOf(b, n);
      }
      SameTurns(Init(a), Init(b));
    }
  }

  /** With one list of turns a rearrangement of the other and no transaction twice, the records come
      in the same order exactly when the nonces do. */
  lemma {:induction false} SameOrderIff(a: seq<Turn>, b: seq<Turn>)
    requires (forall n: Nonce :: TurnsOf(a, n) == TurnsOf(b, n)) && Distinct(TurnRecords(a))
    ensures TurnRecords(a) == TurnRecords(b) <==> TurnNonces(a) == TurnNonces(b)
  {
    if TurnNonces(a) == TurnNonces(b) {
      SameTurns(a, b);
    }
    if TurnRecords(a) == TurnRecords(b) {
      forall i | 0 <= i < |a|
        ensures a[i].nonce == b[i].nonce
      {
        assert TurnRecords(a)[i] == TurnRecords(b)[i];
        TurnsOfMember(a, b[i]);
        TurnsOfMember(b, b[i]);
        assert TurnsOf(a, b[i].nonce) == TurnsOf(b, b[i].nonce);
        var j :| 0 <= j < |a| && a[j] == b[i];
        if j < i {
          DistinctAt(TurnRecords(a), j, i);
        } else if i < j {
          DistinctAt(TurnRecords(a), i, j);
        }
      }
    }
  }

  // ---- Turns of a run ----

  /** The settlement of a request that is in the journal and not yet in the list. */
  function Waits(active: map<Nonce, Phase>, n: Nonce): seq<Turn> {
    if n in active && Between(active[n]) then [Turn(n, Second(active[n].record))] else []
  }

  lemma {:induction false} ListedByTurn(g: State, cfg: Config, step: Step)
    requires Enabled(g, step) && FreshLines(g.journal, g.txs, g.active)
    ensures RestoredSettlements(Next(g, cfg, step).journal) ==
              if step.Journal? && step.written
              then RestoredSettlements(g.journal)
                + [Second(RecordFor(g, g.active[step.nonce].p, g.active[step.nonce].tx))]
              else RestoredSettlements(g.journal)
  {
    assert step.Journal? ==> !HasId(g.journal, OfTx(g.active[step.nonce].tx));
    hide Next, AppendEntry, RefundOutcome, HasId, RestoredSettlements, FreshLines;
    StepAppends(g, cfg, step);
    ConcatEmpty(RestoredSettlements(g.journal));
    match LineOf(g, cfg, step)
    case None =>
    case Some(line) => ListedAppend(g.journal, line.0, line.1);
  }

  lemma {:induction false} RecordedByStep(g: State, cfg: Config, step: Step)
    requires Enabled(g, step)
    ensures Next(g, cfg, step).settlements == if step.ListIt? then g.settlements + [g.active[step.nonce].record]
                                              else g.settlements
  {
    hide DecideStep, DeliverStep, ResumeStep, SubmitStep, StampStep, AppendEntry, Notified, VerifyPayment,
         Token.StateAfter;
    match step
    case DecideOn(n, middle, written) => IdleDecide(g, cfg, n, middle, written);
    case Submit(n, tx, included, reported, block) => IdleSubmit(g, cfg, n, tx, included, reported, block);
    case StampIt(n, written, receiptKnown) => IdleStamp(g, n, written, receiptKnown);
    case Deliver(n, delivered, refundTx, refund, written) =>
      IdleDeliver(g, cfg, n, delivered, refundTx, refund, written);
    case Resume(p, middle) => IdleResume(g, cfg, p, middle);
    case _ =>
  }

  lemma {:induction false} SecondsSnoc(s: seq<Record>, r: Record)
    ensures Seconds(s + [r]) == Seconds(s) + [Second(r)]
  {
    InitOfSnoc(s, r);
  }

  /** The lists are the records of the turns, and the orders are their nonces. */
  lemma {:induction false} RunTurns(token: Token.TokenState, head: nat, now: int, cfg: Config, steps: seq<Step>)
    requires ValidRun(Started(token, head, now), cfg, steps)
    ensures var g0 := Started(token, head, now);
            var g := After(g0, cfg, steps);
            && RestoredSettlements(g.journal) == TurnRecords(JournalTurns(g0, cfg, steps))
            && Seconds(g.settlements) == TurnRecords(ListTurns(g0, cfg, steps))
            && JournalOrder(steps) == TurnNonces(JournalTurns(g0, cfg, steps))
            && ListOrder(steps) == TurnNonces(ListTurns(g0, cfg, steps))
  {
    hide Next, MirrorOf, LinesDistinct, Second, RecordFor;
    var g0 := Started(token, head, now);
    if steps != [] {
      var before := Init(steps);
      RunTurns(token, head, now, cfg, before);
      RunMirrored(token, head, now, cfg, before);
      var g, step := After(g0, cfg, before), Last(steps);
      hide FreshLines;
      ListedByTurn(g, cfg, step);
      RecordedByStep(g, cfg, step);
      if step.Journal? && step.written {
        TurnsOfSnoc(JournalTurns(g0, cfg, before),
                    Turn(step.nonce, Second(RecordFor(g, g.active[step.nonce].p, g.active[step.nonce].tx))), 0);
      } else if step.ListIt? {
        TurnsOfSnoc(ListTurns(g0, cfg, before), Turn(step.nonce, Second(g.active[step.nonce].record)), 0);
        SecondsSnoc(g.settlements, g.active[step.nonce].record);
      }
    }
  }

  lemma {:induction false} IdleArrive(g: State, cfg: Config, p: Payment)
    requires Enabled(g, Arrive(p))
    ensures Idles(g, ArriveStep(g, cfg, p), p.auth.nonce,
                  Verified(p, VerifyPayment(cfg, g.token, p, UnixSeconds(g.now))))
  {
    hide VerifyPayment;
  }

  lemma {:induction false} WaitsIdle(g: State, g': State, n: Nonce, ph: Phase, k: Nonce)
    requires Idles(g, g', n, ph)
    ensures Waits(g'.active, k) == Waits(g.active, k)
  {}

  lemma {:induction false} WaitsJournal(g: State, n: Nonce, written: bool, k: Nonce)
    requires n in g.active && g.active[n].Mined?
    ensures var after := Waits(JournalStep(g, n, written).active, k);
            if written && n == k
            then Waits(g.active, k) == [] && after == [Turn(k, Second(RecordFor(g, g.active[k].p, g.active[k].tx)))]
            else after == Waits(g.active, k)
  {
    hide Notified, AppendEntry, Second, RecordFor;
  }

  lemma {:induction false} WaitsCommit(g: State, n: Nonce, k: Nonce)
    requires n in g.active && g.active[n].Journaled?
    ensures Waits(CommitStep(g, n).active, k) == Waits(g.active, k)
  {
    hide Notified, Second;
  }

  lemma {:induction false} WaitsList(g: State, n: Nonce, k: Nonce)
    requires n in g.active && g.active[n].Committed?
    ensures var after := Waits(ListStep(g, n).active, k);
            if n == k then Waits(g.active, k) == [Turn(k, Second(g.active[k].record))] && after == []
            else after == Waits(g.active, k)
  {
    hide Second;
  }

  /** What a step does to the settlements between journal and list. */
  lemma {:induction false} WaitsByStep(g: State, cfg: Config, step: Step, k: Nonce)
    requires Enabled(g, step)
    ensures var g' := Next(g, cfg, step);
            if step.Journal? && step.written && step.nonce == k then
              Waits(g.active, k) == []
              && Waits(g'.active, k) == [Turn(k, Second(RecordFor(g, g.active[k].p, g.active[k].tx)))]
            else if step.ListIt? && step.nonce == k then
              Waits(g.active, k) == [Turn(k, Second(g.active[k].record))] && Waits(g'.active, k) == []
            else Waits(g'.active, k) == Waits(g.active, k)
  {
    hide DecideStep, DeliverStep, ResumeStep, SubmitStep, JournalStep, CommitStep, ListStep, StampStep, AppendEntry,
         Notified, VerifyPayment, Token.StateAfter, Second, Waits, Idles, ChainDecide, HeldBy;
    match step
    case Arrive(p) =>
      IdleArrive(g, cfg, p);
      WaitsIdle(g, Next(g, cfg, step), p.auth.nonce,
                Verified(p, VerifyPayment(cfg, g.token, p, UnixSeconds(g.now))), k);
    case DecideOn(n, middle, written) =>
      IdleDecide(g, cfg, n, middle, written);
      var p, valid := g.active[n].p, g.active[n].valid;
      var action := ChainDecide(g, cfg, p, valid, middle, PreSettlement).0.action;
      WaitsIdle(g, Next(g, cfg, step), n, Settling(p, action != Approve, HeldBy(g, cfg, p, valid, middle)), k);
    case Submit(n, tx, included, reported, block) =>
      IdleSubmit(g, cfg, n, tx, included, reported, block);
      var ph := g.active[n];
      WaitsIdle(g, Next(g, cfg, step), n, Mined(ph.p, ph.deferred, ph.held, tx, block), k);
    case Journal(n, written) => WaitsJournal(g, n, written, k);
    case CommitIt(n) => WaitsCommit(g, n, k);
    case ListIt(n) => WaitsList(g, n, k);
    case StampIt(n, written, receiptKnown) =>
      IdleStamp(g, n, written, receiptKnown);
      WaitsIdle(g, Next(g, cfg, step), n, Delivering(g.active[n].p, g.active[n].record), k);
    case Deliver(n, delivered, refundTx, refund, written) =>
      IdleDeliver(g, cfg, n, delivered, refundTx, refund, written);
      WaitsIdle(g, Next(g, cfg, step), n, g.active[n], k);
    case Resume(p, middle) =>
      IdleResume(g, cfg, p, middle);
      var df := g.inflight[p.auth.nonce];
      WaitsIdle(g, Next(g, cfg, step), p.auth.nonce, Delivering(df.p, df.record), k);
    case _ =>
  }

  /** Each request is listed as often as it was journaled, and with the same records in the same order;
      only the one it is about to list may be missing. */
  lemma {:induction false} RunAlternates(token: Token.TokenState, head: nat, now: int, cfg: Config, steps: seq<Step>,
      n: Nonce)
    requires ValidRun(Started(token, head, now), cfg, steps)
    ensures var g0 := Started(token, head, now);
            TurnsOf(JournalTurns(g0, cfg, steps), n) ==
              TurnsOf(ListTurns(g0, cfg, steps), n) + Waits(After(g0, cfg, steps).active, n)
  {
    hide Next, Second, RecordFor, Waits;
    var g0 := Started(token, head, now);
    if steps == [] {
      NoneWait(n);
    } else {
      var before := Init(steps);
      RunAlternates(token, head, now, cfg, before, n);
      var g, step := After(g0, cfg, before), Last(steps);
      WaitsByStep(g, cfg, step, n);
      ConcatEmpty(TurnsOf(ListTurns(g0, cfg, before), n));
      if step.Journal? && step.written {
        TurnsOfSnoc(JournalTurns(g0, cfg, before),
                    Turn(step.nonce, Second(RecordFor(g, g.active[step.nonce].p, g.active[step.nonce].tx))), n);
      } else if step.ListIt? {
        var turn := Turn(step.nonce, Second(g.active[step.nonce].record));
        TurnsOfSnoc(ListTurns(g0, cfg, before), turn, n);
        ConcatEmpty(TurnsOf(ListTurns(g0, cfg, before), n) + [turn]);
      }
    }
  }

  lemma {:induction false} NoneWait(n: Nonce)
    ensures Waits(map[], n) == []
  {}

  /** With nothing in flight the restarted gateway lists the settlements in the order the running one
      recorded them exactly when the requests were journaled in the order they were listed. Appending
      to the journal and appending to the list are separate critical sections, so two payments
      settling at once may swap. */
  lemma {:induction false} RestartKeepsOrderIff(token: Token.TokenState, head: nat, now: int, cfg: Config,
      steps: seq<Step>)
    requires ValidRun(Started(token, head, now), cfg, steps)
    requires After(Started(token, head, now), cfg, steps).active == map[]
    ensures var g := After(Started(token, head, now), cfg, steps);
            Restarted(g).settlements == Seconds(g.settlements) <==> JournalOrder(steps) == ListOrder(steps)
  {
    hide After, ValidRun, MirrorOf, FreshLines, RestoredSettlements, RestoredAccounts, RestoredRevoked, Seconds,
         Distinct, Txs, HasId, TurnRecords, TurnNonces, JournalTurns, ListTurns, JournalOrder, ListOrder, Waits,
         TurnsOf;
    var g0 := Started(token, head, now);
    RunMirrored(token, head, now, cfg, steps);
    RunTurns(token, head, now, cfg, steps);
    forall n: Nonce
      ensures TurnsOf(JournalTurns(g0, cfg, steps), n) == TurnsOf(ListTurns(g0, cfg, steps), n)
    {
      RunAlternates(token, head, now, cfg, steps, n);
      NoneWait(n);
      ConcatEmpty(TurnsOf(ListTurns(g0, cfg, steps), n));
    }
    SameOrderIff(JournalTurns(g0, cfg, steps), ListTurns(g0, cfg, steps));
  }

  // ---- One at a time ----

  /** No settlement is journaled while another one is between journal and list. */
  ghost predicate OneAtATime(g0: State, cfg: Config, steps: seq<Step>)
    requires ValidRun(g0, cfg, steps)
  {
    steps != [] ==>
      && OneAtATime(g0, cfg, Init(steps))
      && (Last(steps).Journal? && Last(steps).written ==> NobodyWaits(After(g0, cfg, Init(steps)).active))
  }

  ghost predicate NobodyWaits(active: map<Nonce, Phase>) {
    forall k: Nonce :: Waits(active, k) == []
  }

  /** The order so far: equal, or short of the one settlement that waits. */
  ghost predicate InStep(active: map<Nonce, Phase>, journaled: seq<Nonce>, listed: seq<Nonce>) {
    || (NobodyWaits(active) && journaled == listed)
    || exists n: Nonce ::
         && journaled == listed + [n] && Waits(active, n) != []
         && forall k: Nonce :: k != n ==> Waits(active, k) == []
  }

  lemma {:induction false} OneAtATimeInStep(token: Token.TokenState, head: nat, now: int, cfg: Config, steps: seq<Step>)
    requires ValidRun(Started(token, head, now), cfg, steps) && OneAtATime(Started(token, head, now), cfg, steps)
    ensures InStep(After(Started(token, head, now), cfg, steps).active, JournalOrder(steps), ListOrder(steps))
  {
    hide Next, Waits, Second, RecordFor;
    var g0 := Started(token, head, now);
    if steps == [] {
      forall k: Nonce
        ensures Waits(map[], k) == []
      {
        NoneWait(k);
      }
    } else {
      OneAtATimeInStep(token, head, now, cfg, Init(steps));
      InStepKept(After(g0, cfg, Init(steps)), cfg, Last(steps), JournalOrder(Init(steps)), ListOrder(Init(steps)));
    }
  }

  lemma {:induction false} InStepKept(g: State, cfg: Config, step: Step, journaled: seq<Nonce>, listed: seq<Nonce>)
    requires Enabled(g, step) && InStep(g.active, journaled, listed)
    requires step.Journal? && step.written ==> NobodyWaits(g.active)
    ensures InStep(Next(g, cfg, step).active,
                   if step.Journal? && step.written then journaled + [step.nonce] else journaled,
                   if step.ListIt? then listed + [step.nonce] else listed)
  {
    hide Next, Waits, Second, RecordFor;
    forall k: Nonce
      ensures Waits(Next(g, cfg, step).active, k) ==
                if step.Journal? && step.written && step.nonce == k
                then [Turn(k, Second(RecordFor(g, g.active[k].p, g.active[k].tx)))]
                else if step.ListIt? && step.nonce == k then [] else Waits(g.active, k)
      ensures step.ListIt? && step.nonce == k ==> Waits(g.active, k) != []
    {
      WaitsByStep(g, cfg, step, k);
    }
    if step.Journal? && step.written && !NobodyWaits(g.active) {
      assert false;
    }
    if step.Journal? && step.written {
      assert forall k: Nonce :: Waits(g.active, k) == [];
    }
  }

  /** So settlements that pass from journal to list one at a time keep their order over a restart. */
  lemma {:induction false} OneAtATimeKeepsOrder(token: Token.TokenState, head: nat, now: int, cfg: Config,
      steps: seq<Step>)
    requires ValidRun(Started(token, head, now), cfg, steps) && OneAtATime(Started(token, head, now), cfg, steps)
    requires After(Started(token, head, now), cfg, steps).active == map[]
    ensures var g := After(Started(token, head, now), cfg, steps);
            Restarted(g).settlements == Seconds(g.settlements)
  {
    hide After, ValidRun, OneAtATime, JournalOrder, ListOrder, RestoredSettlements, RestoredAccounts, RestoredRevoked,
         Seconds, Waits;
    OneAtATimeInStep(token, head, now, cfg, steps);
    RestartKeepsOrderIff(token, head, now, cfg, steps);
    forall k: Nonce
      ensures Waits(map[], k) == []
    {
      NoneWait(k);
    }
  }
}
