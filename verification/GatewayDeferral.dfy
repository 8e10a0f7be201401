/** Deferral (x402/gateway.go with the mandate policy's DeferAbove): when a large payment is served
    without its settlement being deep enough under the head, and that there is no other way. */
module GatewayDeferral {
  import opened Common
  import opened MandateAccounts
  import opened Policy
  import opened Gateway
  import opened GatewaySafety
  import Token = Stablecoin

  /** Something that happened to a settlement in the course of a run. */
  datatype Moment =
    | SubmittedAt(tx: TxHash, head: nat, block: nat)
    | ReceiptMissing(tx: TxHash)
    | ResumedAt(tx: TxHash, head: nat)
    | RetriedBelow(record: Record)

  /** It was submitted at one head and landed in a block above it; it was deferred without a receipt;
      it was resumed at a head; it was resumed by a retry for an amount that needs no deferral. */
  predicate Shows(g: State, cfg: Config, step: Step, moment: Moment)
    requires Enabled(g, step)
  {
    match moment
    case SubmittedAt(tx, head, block) =>
      step.Submit? && step.included && step.tx == tx && step.block == block && g.head == head && head < block
    case ReceiptMissing(tx) => step.StampIt? && !step.receiptKnown && g.active[step.nonce].record.tx == tx
    case ResumedAt(tx, head) => step.Resume? && g.inflight[step.p.auth.nonce].record.tx == tx && g.head == head
    case RetriedBelow(record) =>
      step.Resume? && g.inflight[step.p.auth.nonce].record == record && !Large(cfg, step.p.auth.value)
  }

  ghost predicate Happened(g0: State, cfg: Config, steps: seq<Step>, moment: Moment)
    requires ValidRun(g0, cfg, steps)
  {
    steps != [] &&
    (Happened(g0, cfg, Init(steps), moment) || Shows(After(g0, cfg, Init(steps)), cfg, Last(steps), moment))
  }

  /** The payment was resumed with the head at least the confirm depth above the block it landed in,
      and so above the head it was submitted at. */
  ghost predicate Waited(g0: State, cfg: Config, steps: seq<Step>, tx: TxHash)
    requires ValidRun(g0, cfg, steps)
  {
    exists before: nat, block: nat, head: nat ::
      && Happened(g0, cfg, steps, SubmittedAt(tx, before, block)) && Happened(g0, cfg, steps, ResumedAt(tx, head))
      && before + cfg.confirmDepth < block + cfg.confirmDepth <= head
  }

  /** There was no receipt, so the payment was kept at block 0, and any head past the confirm depth
      would do. */
  ghost predicate TakenForOld(g0: State, cfg: Config, steps: seq<Step>, tx: TxHash)
    requires ValidRun(g0, cfg, steps)
  {
    exists head: nat ::
      Happened(g0, cfg, steps, ReceiptMissing(tx)) && Happened(g0, cfg, steps, ResumedAt(tx, head))
        && cfg.confirmDepth <= head
  }

  ghost predicate Cleared(g0: State, cfg: Config, steps: seq<Step>, r: Record)
    requires ValidRun(g0, cfg, steps)
  {
    || Waited(g0, cfg, steps, r.tx)
    || TakenForOld(g0, cfg, steps, r.tx)
    || Happened(g0, cfg, steps, RetriedBelow(r))
  }

  ghost predicate Landed(g0: State, cfg: Config, steps: seq<Step>, tx: TxHash, block: nat)
    requires ValidRun(g0, cfg, steps)
  {
    exists head: nat :: head < block && Happened(g0, cfg, steps, SubmittedAt(tx, head, block))
  }

  /** Where a request stands, as far as deferral goes. */
  ghost predicate Timely(g0: State, cfg: Config, steps: seq<Step>, ph: Phase)
    requires ValidRun(g0, cfg, steps)
  {
    match ph
    case Verified(_, _) => true
    case Settling(p, deferred, _) => !deferred ==> !Large(cfg, p.auth.value)
    case Mined(p, deferred, _, tx, block) =>
      (!deferred ==> !Large(cfg, p.auth.value)) && Landed(g0, cfg, steps, tx, block)
    case Journaled(_, deferred, _, record, block) =>
      (!deferred ==> !Large(cfg, record.amount)) && Landed(g0, cfg, steps, record.tx, block)
    case Committed(_, deferred, record, block, _) =>
      (!deferred ==> !Large(cfg, record.amount)) && Landed(g0, cfg, steps, record.tx, block)
    case Listed(_, deferred, record, block, _) =>
      (!deferred ==> !Large(cfg, record.amount)) && Landed(g0, cfg, steps, record.tx, block)
    case Delivering(_, record) => Large(cfg, record.amount) ==> Cleared(g0, cfg, steps, record)
  }

  ghost predicate KeptTimely(g0: State, cfg: Config, steps: seq<Step>, d: Deferred)
    requires ValidRun(g0, cfg, steps)
  {
    || Landed(g0, cfg, steps, d.record.tx, d.block)
    || (d.block == 0 && Happened(g0, cfg, steps, ReceiptMissing(d.record.tx)))
  }

  ghost predicate ActiveTimely(g0: State, cfg: Config, steps: seq<Step>, active: map<Nonce, Phase>)
    requires ValidRun(g0, cfg, steps)
  {
    forall n :: n in active ==> Timely(g0, cfg, steps, active[n])
  }

  ghost predicate InflightTimely(g0: State, cfg: Config, steps: seq<Step>, inflight: map<Nonce, Deferred>)
    requires ValidRun(g0, cfg, steps)
  {
    forall n :: n in inflight ==> KeptTimely(g0, cfg, steps, inflight[n])
  }

  ghost predicate ServedTimely(g0: State, cfg: Config, steps: seq<Step>, served: seq<Served>)
    requires ValidRun(g0, cfg, steps)
  {
    forall i :: 0 <= i < |served| && Large(cfg, served[i].record.amount) ==> Cleared(g0, cfg, steps, served[i].record)
  }

  // ---- The past stays ----

  lemma {:induction false} LandedStays(g0: State, cfg: Config, steps: seq<Step>, tx: TxHash, block: nat)
    requires ValidRun(g0, cfg, steps) && steps != [] && Landed(g0, cfg, Init(steps), tx, block)
    ensures Landed(g0, cfg, steps, tx, block)
  {
    hide After, Shows;
    var head: nat :| head < block && Happened(g0, cfg, Init(steps), SubmittedAt(tx, head, block));
    assert Happened(g0, cfg, steps, SubmittedAt(tx, head, block));
  }

  lemma {:induction false} WaitedStays(g0: State, cfg: Config, steps: seq<Step>, tx: TxHash)
    requires ValidRun(g0, cfg, steps) && steps != [] && Waited(g0, cfg, Init(steps), tx)
    ensures Waited(g0, cfg, steps, tx)
  {
    hide After, Shows;
    var before: nat, block: nat, head: nat :|
      && Happened(g0, cfg, Init(steps), SubmittedAt(tx, before, block))
      && Happened(g0, cfg, Init(steps), ResumedAt(tx, head))
      && before + cfg.confirmDepth < block + cfg.confirmDepth <= head;
    assert Happened(g0, cfg, steps, SubmittedAt(tx, before, block)) && Happened(g0, cfg, steps, ResumedAt(tx, head));
  }

  lemma {:induction false} ClearedStays(g0: State, cfg: Config, steps: seq<Step>, r: Record)
    requires ValidRun(g0, cfg, steps) && steps != [] && Cleared(g0, cfg, Init(steps), r)
    ensures Cleared(g0, cfg, steps, r)
  {
    hide After, Shows;
    if Waited(g0, cfg, Init(steps), r.tx) {
      WaitedStays(g0, cfg, steps, r.tx);
    } else if TakenForOld(g0, cfg, Init(steps), r.tx) {
      var head: nat :|
        Happened(g0, cfg, Init(steps), ReceiptMissing(r.tx)) && Happened(g0, cfg, Init(steps), ResumedAt(r.tx, head))
          && cfg.confirmDepth <= head;
      assert Happened(g0, cfg, steps, ReceiptMissing(r.tx)) && Happened(g0, cfg, steps, ResumedAt(r.tx, head));
    } else {
      assert Happened(g0, cfg, steps, RetriedBelow(r));
    }
  }

  lemma {:induction false} TimelyStays(g0: State, cfg: Config, steps: seq<Step>, ph: Phase)
    requires ValidRun(g0, cfg, steps) && steps != [] && Timely(g0, cfg, Init(steps), ph)
    ensures Timely(g0, cfg, steps, ph)
  {
    hide Landed, Cleared;
    match ph
    case Verified(_, _) =>
    case Settling(_, _, _) =>
    case Mined(_, _, _, tx, block) => LandedStays(g0, cfg, steps, tx, block);
    case Journaled(_, _, _, record, block) => LandedStays(g0, cfg, steps, record.tx, block);
    case Committed(_, _, record, block, _) => LandedStays(g0, cfg, steps, record.tx, block);
    case Listed(_, _, record, block, _) => LandedStays(g0, cfg, steps, record.tx, block);
    case Delivering(_, record) =>
      if Large(cfg, record.amount) {
        ClearedStays(g0, cfg, steps, record);
      }
  }

  lemma {:induction false} KeptStays(g0: State, cfg: Config, steps: seq<Step>, d: Deferred)
    requires ValidRun(g0, cfg, steps) && steps != [] && KeptTimely(g0, cfg, Init(steps), d)
    ensures KeptTimely(g0, cfg, steps, d)
  {
    hide Landed, After, Shows;
    if Landed(g0, cfg, Init(steps), d.record.tx, d.block) {
      LandedStays(g0, cfg, steps, d.record.tx, d.block);
    } else {
      assert Happened(g0, cfg, steps, ReceiptMissing(d.record.tx));
    }
  }

  ghost predicate History(g0: State, cfg: Config, steps: seq<Step>, g: State)
    requires ValidRun(g0, cfg, steps)
  {
    && ActiveTimely(g0, cfg, steps, g.active)
    && InflightTimely(g0, cfg, steps, g.inflight)
    && ServedTimely(g0, cfg, steps, g.served)
  }

  lemma {:induction false} HistoryStays(g0: State, cfg: Config, steps: seq<Step>, g: State)
    requires ValidRun(g0, cfg, steps) && steps != [] && History(g0, cfg, Init(steps), g)
    ensures History(g0, cfg, steps, g)
  {
    hide KeptTimely, Cleared, Timely, ValidRun;
    forall n | n in g.active
      ensures Timely(g0, cfg, steps, g.active[n])
    {
      TimelyStays(g0, cfg, steps, g.active[n]);
    }
    forall n | n in g.inflight
      ensures KeptTimely(g0, cfg, steps, g.inflight[n])
    {
      KeptStays(g0, cfg, steps, g.inflight[n]);
    }
    forall i | 0 <= i < |g.served| && Large(cfg, g.served[i].record.amount)
      ensures Cleared(g0, cfg, steps, g.served[i].record)
    {
      ClearedStays(g0, cfg, steps, g.served[i].record);
    }
  }

  // ---- Each step ----

  /** A request moves to a timely phase, or ends. */
  lemma {:induction false} HistoryMove(g0: State, cfg: Config, steps: seq<Step>, g: State, g': State, n: Nonce,
      ph: Phase)
    requires ValidRun(g0, cfg, steps) && History(g0, cfg, steps, g) && Timely(g0, cfg, steps, ph)
    requires g'.active == g.active || g'.active == g.active[n := ph] || g'.active == g.active - {n}
    requires g'.inflight == g.inflight && g'.served == g.served
    ensures History(g0, cfg, steps, g')
  {
    hide KeptTimely, Cleared, Timely, ValidRun;
  }

  lemma {:induction false} TimelyAt(g0: State, cfg: Config, steps: seq<Step>, g: State, n: Nonce)
    requires ValidRun(g0, cfg, steps) && History(g0, cfg, steps, g) && n in g.active
    ensures Timely(g0, cfg, steps, g.active[n])
  {
    hide KeptTimely, Cleared, Timely, ValidRun;
  }

  /** An approval by the mandate policy clears a large payment only when confirmed. */
  lemma {:induction false} ApprovedIsTimely(g: State, cfg: Config, p: Payment, valid: bool, middle: seq<Decision>,
      stage: Stage)
    requires ChainDecide(g, cfg, p, valid, middle, stage).0.action == Approve
    ensures Large(cfg, p.auth.value) ==> stage == Confirmed
  {
    hide VerdictOf, FirstVeto, PrefixAllowed, OverCap;
  }

  lemma {:induction false} HistoryDecide(g0: State, cfg: Config, steps: seq<Step>, g: State, n: Nonce,
      middle: seq<Decision>, written: bool)
    requires ValidRun(g0, cfg, steps) && History(g0, cfg, steps, g)
    requires n in g.active && g.active[n].Verified?
    ensures History(g0, cfg, steps, DecideStep(g, cfg, n, middle, written))
  {
    hide ValidRun, ChainDecide, HeldBy, AppendEntry, History, Landed, Cleared;
    var p, valid := g.active[n].p, g.active[n].valid;
    var action := ChainDecide(g, cfg, p, valid, middle, PreSettlement).0.action;
    if action == Approve {
      ApprovedIsTimely(g, cfg, p, valid, middle, PreSettlement);
    }
    HistoryMove(g0, cfg, steps, g, DecideStep(g, cfg, n, middle, written), n,
                Settling(p, action != Approve, HeldBy(g, cfg, p, valid, middle)));
  }

  lemma {:induction false} HistorySubmit(g0: State, cfg: Config, steps: seq<Step>, g: State, n: Nonce, tx: TxHash,
      included: bool, reported: bool, block: nat)
    requires ValidRun(g0, cfg, steps) && History(g0, cfg, steps, g)
    requires included ==> Landed(g0, cfg, steps, tx, block)
    requires n in g.active && g.active[n].Settling?
    ensures History(g0, cfg, steps, SubmitStep(g, cfg, n, tx, included, reported, block))
  {
    hide ValidRun, OnChain, Notified, Landed, Cleared, History;
    var ph := g.active[n];
    var g' := SubmitStep(g, cfg, n, tx, included, reported, block);
    TimelyAt(g0, cfg, steps, g, n);
    if included && OnChain(g, cfg, ph.p).Done? && reported {
      HistoryMove(g0, cfg, steps, g, g', n, Mined(ph.p, ph.deferred, ph.held, tx, block));
    } else {
      HistoryMove(g0, cfg, steps, g, g', n, ph);
    }
  }

  lemma {:induction false} SubmissionLands(g0: State, cfg: Config, steps: seq<Step>)
    requires ValidRun(g0, cfg, steps) && steps != [] && Last(steps).Submit?
    ensures Last(steps).included ==> Landed(g0, cfg, steps, Last(steps).tx, Last(steps).block)
  {
    if Last(steps).included {
      var g := After(g0, cfg, Init(steps));
      assert Shows(g, cfg, Last(steps), SubmittedAt(Last(steps).tx, g.head, Last(steps).block));
      hide Shows, After;
      assert Happened(g0, cfg, steps, SubmittedAt(Last(steps).tx, g.head, Last(steps).block));
    }
  }

  lemma {:induction false} HistoryJournal(g0: State, cfg: Config, steps: seq<Step>, g: State, n: Nonce, written: bool)
    requires ValidRun(g0, cfg, steps) && History(g0, cfg, steps, g)
    requires n in g.active && g.active[n].Mined?
    ensures History(g0, cfg, steps, JournalStep(g, n, written))
  {
    hide ValidRun, Notified, AppendEntry, Landed, Cleared, History;
    var ph := g.active[n];
    TimelyAt(g0, cfg, steps, g, n);
    HistoryMove(g0, cfg, steps, g, JournalStep(g, n, written), n,
                Journaled(ph.p, ph.deferred, ph.held, RecordFor(g, ph.p, ph.tx), ph.block));
  }

  lemma {:induction false} HistoryCommit(g0: State, cfg: Config, steps: seq<Step>, g: State, n: Nonce)
    requires ValidRun(g0, cfg, steps) && History(g0, cfg, steps, g)
    requires n in g.active && g.active[n].Journaled?
    ensures History(g0, cfg, steps, CommitStep(g, n))
  {
    hide ValidRun, Notified, Landed, Cleared, History;
    var ph := g.active[n];
    TimelyAt(g0, cfg, steps, g, n);
    HistoryMove(g0, cfg, steps, g, CommitStep(g, n), n, Committed(ph.p, ph.deferred, ph.record, ph.block, g.now));
  }

  lemma {:induction false} HistoryList(g0: State, cfg: Config, steps: seq<Step>, g: State, n: Nonce)
    requires ValidRun(g0, cfg, steps) && History(g0, cfg, steps, g)
    requires n in g.active && g.active[n].Committed?
    ensures History(g0, cfg, steps, ListStep(g, n))
  {
    hide ValidRun, Landed, Cleared, History;
    var ph := g.active[n];
    TimelyAt(g0, cfg, steps, g, n);
    HistoryMove(g0, cfg, steps, g, ListStep(g, n), n, Listed(ph.p, ph.deferred, ph.record, ph.block, ph.at));
  }

  lemma {:induction false} HistoryStamp(g0: State, cfg: Config, steps: seq<Step>, g: State, n: Nonce, written: bool,
      receiptKnown: bool)
    requires ValidRun(g0, cfg, steps) && History(g0, cfg, steps, g)
    requires n in g.active && g.active[n].Listed?
    requires !receiptKnown ==> Happened(g0, cfg, steps, ReceiptMissing(g.active[n].record.tx))
    ensures History(g0, cfg, steps, StampStep(g, n, written, receiptKnown))
  {
    hide ValidRun, AppendEntry, Landed, Cleared;
    var ph := g.active[n];
    assert Timely(g0, cfg, steps, ph) by {
      TimelyAt(g0, cfg, steps, g, n);
    }
    var g' := StampStep(g, n, written, receiptKnown);
    if ph.deferred {
      assert KeptTimely(g0, cfg, steps, Deferred(ph.p, ph.record, if receiptKnown then ph.block else 0));
      hide KeptTimely, Timely;
    } else {
      assert Timely(g0, cfg, steps, Delivering(ph.p, ph.record));
      hide History;
      HistoryMove(g0, cfg, steps, g, g', n, Delivering(ph.p, ph.record));
    }
  }

  /** A request ends, and perhaps its settlement is served. */
  lemma {:induction false} HistoryServe(g0: State, cfg: Config, steps: seq<Step>, g: State, g': State, n: Nonce)
    requires ValidRun(g0, cfg, steps) && History(g0, cfg, steps, g)
    requires n in g.active && g.active[n].Delivering?
    requires g'.active == g.active - {n} && g'.inflight == g.inflight
    requires g'.served == g.served || g'.served == g.served + [Served(g.active[n].record, n)]
    ensures History(g0, cfg, steps, g')
  {
    hide ValidRun, Cleared, KeptTimely, InflightTimely;
    assert Timely(g0, cfg, steps, g.active[n]);
  }

  lemma {:induction false} DeliverServes(g: State, cfg: Config, n: Nonce, delivered: bool, refundTx: TxHash,
      refund: Reply, written: bool)
    requires n in g.active && g.active[n].Delivering?
    ensures var g' := DeliverStep(g, cfg, n, delivered, refundTx, refund, written);
            && g'.active == g.active - {n} && g'.inflight == g.inflight
            && (g'.served == g.served || g'.served == g.served + [Served(g.active[n].record, n)])
  {
    hide AppendEntry, RefundOutcome, DeliverStep;
    DeliverAsUpdate(g, cfg, n, delivered, refundTx, refund, written);
  }

  lemma {:induction false} HistoryDeliver(g0: State, cfg: Config, steps: seq<Step>, g: State, n: Nonce, delivered: bool,
      refundTx: TxHash, refund: Reply, written: bool)
    requires ValidRun(g0, cfg, steps) && History(g0, cfg, steps, g)
    requires n in g.active && g.active[n].Delivering?
    ensures History(g0, cfg, steps, DeliverStep(g, cfg, n, delivered, refundTx, refund, written))
  {
    hide ValidRun, DeliverStep, History;
    DeliverServes(g, cfg, n, delivered, refundTx, refund, written);
    HistoryServe(g0, cfg, steps, g, DeliverStep(g, cfg, n, delivered, refundTx, refund, written), n);
  }

  /** What a resumption has to show for itself. */
  lemma {:induction false} ResumptionClears(g0: State, cfg: Config, steps: seq<Step>)
    requires ValidRun(g0, cfg, steps) && steps != [] && Last(steps).Resume?
    requires var g := After(g0, cfg, Init(steps));
             var df := g.inflight[Last(steps).p.auth.nonce];
             && KeptTimely(g0, cfg, steps, df)
             && StageOf(g, cfg, df.block).Some?
             && (Large(cfg, Last(steps).p.auth.value) ==> StageOf(g, cfg, df.block) == Some(Confirmed))
    ensures Cleared(g0, cfg, steps, After(g0, cfg, Init(steps)).inflight[Last(steps).p.auth.nonce].record)
  {
    hide Next;
    var g, step := After(g0, cfg, Init(steps)), Last(steps);
    var df := g.inflight[step.p.auth.nonce];
    var tx := df.record.tx;
    assert Shows(g, cfg, step, ResumedAt(tx, g.head));
    assert Happened(g0, cfg, steps, ResumedAt(tx, g.head));
    if !Large(cfg, step.p.auth.value) {
      assert Shows(g, cfg, step, RetriedBelow(df.record));
      assert Happened(g0, cfg, steps, RetriedBelow(df.record));
    }
  }

  lemma {:induction false} HistoryResume(g0: State, cfg: Config, steps: seq<Step>, g: State, p: Payment,
      middle: seq<Decision>)
    requires steps != [] && ValidRun(g0, cfg, steps) && g == After(g0, cfg, Init(steps)) && History(g0, cfg, steps, g)
    requires Last(steps) == Resume(p, middle) && Enabled(g, Resume(p, middle))
    ensures History(g0, cfg, steps, ResumeStep(g, cfg, p, middle))
  {
    hide ValidRun, After, ChainDecide, Landed, Cleared, Shows, Happened, ActiveTimely, ServedTimely;
    var n := p.auth.nonce;
    var df := g.inflight[n];
    var stage := StageOf(g, cfg, df.block);
    assert KeptTimely(g0, cfg, steps, df);
    hide KeptTimely;
    if stage.Some? && ChainDecide(g, cfg, Retried(p, df.record.payer), true, middle, stage.value).0.action == Approve {
      ApprovedIsTimely(g, cfg, Retried(p, df.record.payer), true, middle, stage.value);
      ResumptionClears(g0, cfg, steps);
      assert Timely(g0, cfg, steps, Delivering(df.p, df.record));
      hide Timely;
      HistoryMove(g0, cfg, steps, g, ResumeStep(g, cfg, p, middle).(inflight := g.inflight), n,
                  Delivering(df.p, df.record));
    }
  }

  lemma {:induction false} StampShows(g0: State, cfg: Config, steps: seq<Step>)
    requires ValidRun(g0, cfg, steps) && steps != [] && Last(steps).StampIt?
    ensures !Last(steps).receiptKnown ==>
              Happened(g0, cfg, steps, ReceiptMissing(After(g0, cfg, Init(steps)).active[Last(steps).nonce].record.tx))
  {
    if !Last(steps).receiptKnown {
      var g := After(g0, cfg, Init(steps));
      assert Shows(g, cfg, Last(steps), ReceiptMissing(g.active[Last(steps).nonce].record.tx));
    }
  }

  lemma {:induction false} HistoryKept(g0: State, cfg: Config, steps: seq<Step>)
    requires steps != [] && ValidRun(g0, cfg, steps)
    requires History(g0, cfg, Init(steps), After(g0, cfg, Init(steps)))
    ensures History(g0, cfg, steps, After(g0, cfg, steps))
  {
    hide DecideStep, SubmitStep, JournalStep, CommitStep, ListStep, StampStep, DeliverStep, ResumeStep, AppendEntry;
    hide Token.StateAfter, VerifyPayment, ActiveTimely, InflightTimely, ServedTimely, Happened, Landed;
    var g := After(g0, cfg, Init(steps));
    var g' := After(g0, cfg, steps);
    HistoryStays(g0, cfg, steps, g);
    match Last(steps)
    case Arrive(p) =>
      HistoryMove(g0, cfg, steps, g, g', p.auth.nonce, Verified(p, VerifyPayment(cfg, g.token, p, UnixSeconds(g.now))));
    case DecideOn(n, middle, written) => HistoryDecide(g0, cfg, steps, g, n, middle, written);
    case Submit(n, tx, included, reported, block) =>
      SubmissionLands(g0, cfg, steps);
      HistorySubmit(g0, cfg, steps, g, n, tx, included, reported, block);
    case Journal(n, written) => HistoryJournal(g0, cfg, steps, g, n, written);
    case CommitIt(n) => HistoryCommit(g0, cfg, steps, g, n);
    case ListIt(n) => HistoryList(g0, cfg, steps, g, n);
    case StampIt(n, written, receiptKnown) =>
      StampShows(g0, cfg, steps);
      HistoryStamp(g0, cfg, steps, g, n, written, receiptKnown);
    case Deliver(n, delivered, refundTx, refund, written) =>
      HistoryDeliver(g0, cfg, steps, g, n, delivered, refundTx, refund, written);
    case Resume(p, middle) => HistoryResume(g0, cfg, steps, g, p, middle);
    case _ =>
  }

  lemma {:induction false} RunHistory(token: Token.TokenState, head: nat, now: int, cfg: Config, steps: seq<Step>)
    requires ValidRun(Started(token, head, now), cfg, steps)
    ensures var g := Started(token, head, now); History(g, cfg, steps, After(g, cfg, steps))
  {
    hide Next;
    if steps != [] {
      hide History;
      RunHistory(token, head, now, cfg, Init(steps));
      HistoryKept(Started(token, head, now), cfg, steps);
    }
  }

  /** A payment at or above DeferAbove is served only if it waited for its confirmations, or was
      taken for old because its receipt could not be read, or was resumed by a retry that names an
      amount below DeferAbove. */
  lemma {:induction false} LargePaymentsWaitUnless(token: Token.TokenState, head: nat, now: int, cfg: Config,
      steps: seq<Step>, i: nat)
    requires ValidRun(Started(token, head, now), cfg, steps)
    requires i < |After(Started(token, head, now), cfg, steps).served|
    requires Large(cfg, After(Started(token, head, now), cfg, steps).served[i].record.amount)
    ensures var g0 := Started(token, head, now);
            Cleared(g0, cfg, steps, After(g0, cfg, steps).served[i].record)
  {
    hide After, ValidRun, Cleared;
    RunHistory(token, head, now, cfg, steps);
  }

  /** Every deferred payment has its receipt, and every retry repeats its amount. */
  ghost predicate Ordinary(g0: State, cfg: Config, steps: seq<Step>)
    requires ValidRun(g0, cfg, steps)
  {
    steps != [] ==>
      && Ordinary(g0, cfg, Init(steps))
      && (Last(steps).StampIt? ==> Last(steps).receiptKnown)
      && (Last(steps).Resume? ==>
            Last(steps).p.auth.value == After(g0, cfg, Init(steps)).inflight[Last(steps).p.auth.nonce].record.amount)
  }

  lemma {:induction false} OrdinaryMoments(g0: State, cfg: Config, steps: seq<Step>, r: Record)
    requires ValidRun(g0, cfg, steps) && Ordinary(g0, cfg, steps)
    ensures !Happened(g0, cfg, steps, ReceiptMissing(r.tx))
    ensures Happened(g0, cfg, steps, RetriedBelow(r)) ==> !Large(cfg, r.amount)
  {
    hide Next;
    if steps != [] {
      OrdinaryMoments(g0, cfg, Init(steps), r);
    }
  }

  /** With receipts at hand and retries of the same amount, a payment at or above DeferAbove is served
      only after the head has risen by more than the confirm depth since it was submitted, counted
      from the block it landed in. */
  lemma {:induction false} LargePaymentsWait(token: Token.TokenState, head: nat, now: int, cfg: Config,
      steps: seq<Step>, i: nat)
    requires ValidRun(Started(token, head, now), cfg, steps) && Ordinary(Started(token, head, now), cfg, steps)
    requires i < |After(Started(token, head, now), cfg, steps).served|
    requires Large(cfg, After(Started(token, head, now), cfg, steps).served[i].record.amount)
    ensures var g0 := Started(token, head, now);
            Waited(g0, cfg, steps, After(g0, cfg, steps).served[i].record.tx)
  {
    hide After, ValidRun, Waited, Happened, Ordinary;
    LargePaymentsWaitUnless(token, head, now, cfg, steps, i);
    var g0 := Started(token, head, now);
    OrdinaryMoments(g0, cfg, steps, After(g0, cfg, steps).served[i].record);
  }

  /** While the block a payment landed in is not confirmed: a retry releases it exactly when the receipt was
      missing and the chain is longer than the confirm depth, or the retry names an amount below
      DeferAbove; and the policies approve the retry at the stage the payment is taken to be at. Its own
      amount plays no part. */
  lemma {:induction false} EarlyRetryClearsIff(g: State, cfg: Config, p: Payment, middle: seq<Decision>, block: nat)
    requires Enabled(g, Resume(p, middle)) && 0 < block <= g.head < block + cfg.confirmDepth
    requires g.inflight[p.auth.nonce].block == block || g.inflight[p.auth.nonce].block == 0
    ensures var df := g.inflight[p.auth.nonce];
            var takenForOld := df.block == 0 && cfg.confirmDepth <= g.head;
            p.auth.nonce in ResumeStep(g, cfg, p, middle).active <==>
              && (takenForOld || !Large(cfg, p.auth.value))
              && ChainDecide(g, cfg, Retried(p, df.record.payer), true, middle,
                             if takenForOld then Confirmed else Submitted).0.action == Approve
  {
    hide ChainDecide;
    var df := g.inflight[p.auth.nonce];
    var retried := Retried(p, df.record.payer);
    if ChainDecide(g, cfg, retried, true, middle, Submitted).0.action == Approve {
      ApprovedIsTimely(g, cfg, retried, true, middle, Submitted);
    }
  }

  /** A deferred payment kept without its receipt: a retry of it is let through exactly when the chain
      is longer than the confirm depth, however recently it landed, and the policies approve. */
  lemma {:induction false} MissingReceiptClearsIff(g: State, cfg: Config, p: Payment, middle: seq<Decision>)
    requires Enabled(g, Resume(p, middle)) && g.inflight[p.auth.nonce].block == 0 && Large(cfg, p.auth.value)
    ensures p.auth.nonce in ResumeStep(g, cfg, p, middle).active <==>
              && cfg.confirmDepth <= g.head
              && ChainDecide(g, cfg, Retried(p, g.inflight[p.auth.nonce].record.payer), true, middle,
                             Confirmed).0.action == Approve
  {
    hide ChainDecide;
    var retried := Retried(p, g.inflight[p.auth.nonce].record.payer);
    if g.head < cfg.confirmDepth && ChainDecide(g, cfg, retried, true, middle, Submitted).0.action == Approve {
      ApprovedIsTimely(g, cfg, retried, true, middle, Submitted);
    }
  }
}
