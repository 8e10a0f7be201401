/** The terms a gateway serves on: every payment it settles was verified and pays at least the price,
    a refund undoes the payment, and a revocation lasts. */
module GatewayTerms {
  import opened Common
  import opened MandateAccounts
  import opened Policy
  import opened Gateway
  import opened GatewaySafety
  import Token = Stablecoin

  // ---- Price ----

  predicate Worth(cfg: Config, p: Payment) { p.auth.to == cfg.payTo && p.auth.value >= cfg.price }

  predicate PhaseWorth(cfg: Config, ph: Phase) {
    match ph
    case Verified(p, valid) => valid ==> Worth(cfg, p)
    case Settling(p, _, _) => Worth(cfg, p)
    case Mined(p, _, _, _, _) => Worth(cfg, p)
    case Journaled(_, _, _, record, _) => record.amount >= cfg.price
    case Committed(_, _, record, _, _) => record.amount >= cfg.price
    case Listed(_, _, record, _, _) => record.amount >= cfg.price
    case Delivering(_, record) => record.amount >= cfg.price
  }

  ghost predicate ActiveWorth(cfg: Config, active: map<Nonce, Phase>) {
    forall n :: n in active ==> PhaseWorth(cfg, active[n])
  }

  ghost predicate InflightWorth(cfg: Config, inflight: map<Nonce, Deferred>) {
    forall n :: n in inflight ==> inflight[n].record.amount >= cfg.price
  }

  ghost predicate AllWorth(cfg: Config, s: seq<Record>) {
    forall i :: 0 <= i < |s| ==> s[i].amount >= cfg.price
  }

  ghost predicate Paid(g: State, cfg: Config) {
    && ActiveWorth(cfg, g.active) && InflightWorth(cfg, g.inflight)
    && AllWorth(cfg, g.settlements)
    && forall i :: 0 <= i < |g.served| ==> g.served[i].record.amount >= cfg.price
  }

  lemma {:induction false} WorthPut(cfg: Config, active: map<Nonce, Phase>, n: Nonce, ph: Phase)
    requires ActiveWorth(cfg, active) && PhaseWorth(cfg, ph)
    ensures ActiveWorth(cfg, active[n := ph]) && ActiveWorth(cfg, active - {n})
  {}

  lemma {:induction false} WorthAt(cfg: Config, active: map<Nonce, Phase>, n: Nonce)
    requires ActiveWorth(cfg, active) && n in active
    ensures PhaseWorth(cfg, active[n]) && ActiveWorth(cfg, active - {n})
  {}

  /** Only a verified payment gets past the chain of policies. */
  lemma {:induction false} UnverifiedIsRefused(g: State, cfg: Config, p: Payment, middle: seq<Decision>)
    ensures ChainDecide(g, cfg, p, false, middle, PreSettlement).0 == Decision(Reject, VerificationFailed)
  {
    assert ([AlwaysVerify(false)] + middle)[0] == AlwaysVerify(false);
  }

  lemma {:induction false} PaidDecide(g: State, cfg: Config, n: Nonce, middle: seq<Decision>, written: bool)
    requires Paid(g, cfg) && n in g.active && g.active[n].Verified?
    ensures Paid(DecideStep(g, cfg, n, middle, written), cfg)
  {
    hide ChainDecide, HeldBy, AppendEntry, ActiveWorth, InflightWorth, AllWorth;
    var p, valid := g.active[n].p, g.active[n].valid;
    WorthAt(cfg, g.active, n);
    if valid {
      var action := ChainDecide(g, cfg, p, valid, middle, PreSettlement).0.action;
      WorthPut(cfg, g.active, n, Settling(p, action != Approve, HeldBy(g, cfg, p, valid, middle)));
    } else {
      UnverifiedIsRefused(g, cfg, p, middle);
    }
  }

  lemma {:induction false} PaidSubmit(g: State, cfg: Config, n: Nonce, tx: TxHash, included: bool, reported: bool,
      block: nat)
    requires Paid(g, cfg) && n in g.active && g.active[n].Settling?
    ensures Paid(SubmitStep(g, cfg, n, tx, included, reported, block), cfg)
  {
    hide OnChain, Notified, ActiveWorth, InflightWorth, AllWorth;
    var ph := g.active[n];
    WorthAt(cfg, g.active, n);
    WorthPut(cfg, g.active, n, Mined(ph.p, ph.deferred, ph.held, tx, block));
  }

  lemma {:induction false} PaidJournal(g: State, cfg: Config, n: Nonce, written: bool)
    requires Paid(g, cfg) && n in g.active && g.active[n].Mined?
    ensures Paid(JournalStep(g, n, written), cfg)
  {
    hide Notified, AppendEntry, ActiveWorth, InflightWorth, AllWorth;
    var ph := g.active[n];
    WorthAt(cfg, g.active, n);
    WorthPut(cfg, g.active, n, Journaled(ph.p, ph.deferred, ph.held, RecordFor(g, ph.p, ph.tx), ph.block));
  }

  lemma {:induction false} PaidCommit(g: State, cfg: Config, n: Nonce)
    requires Paid(g, cfg) && n in g.active && g.active[n].Journaled?
    ensures Paid(CommitStep(g, n), cfg)
  {
    hide Notified, ActiveWorth, InflightWorth, AllWorth;
    var ph := g.active[n];
    WorthAt(cfg, g.active, n);
    WorthPut(cfg, g.active, n, Committed(ph.p, ph.deferred, ph.record, ph.block, g.now));
  }

  lemma {:induction false} PaidList(g: State, cfg: Config, n: Nonce)
    requires Paid(g, cfg) && n in g.active && g.active[n].Committed?
    ensures Paid(ListStep(g, n), cfg)
  {
    hide ActiveWorth, InflightWorth;
    var ph := g.active[n];
    WorthAt(cfg, g.active, n);
    WorthPut(cfg, g.active, n, Listed(ph.p, ph.deferred, ph.record, ph.block, ph.at));
  }

  lemma {:induction false} PaidStamp(g: State, cfg: Config, n: Nonce, written: bool, receiptKnown: bool)
    requires Paid(g, cfg) && n in g.active && g.active[n].Listed?
    ensures Paid(StampStep(g, n, written, receiptKnown), cfg)
  {
    hide AppendEntry, ActiveWorth, AllWorth;
    var ph := g.active[n];
    WorthAt(cfg, g.active, n);
    WorthPut(cfg, g.active, n, Delivering(ph.p, ph.record));
  }

  lemma {:induction false} PaidDeliver(g: State, cfg: Config, n: Nonce, delivered: bool, refundTx: TxHash,
      refund: Reply, written: bool)
    requires Paid(g, cfg) && n in g.active && g.active[n].Delivering?
    ensures Paid(DeliverStep(g, cfg, n, delivered, refundTx, refund, written), cfg)
  {
    hide AppendEntry, RefundOutcome, ActiveWorth, InflightWorth, AllWorth;
    WorthAt(cfg, g.active, n);
  }

  lemma {:induction false} PaidResume(g: State, cfg: Config, p: Payment, middle: seq<Decision>)
    requires Paid(g, cfg) && Enabled(g, Resume(p, middle))
    ensures Paid(ResumeStep(g, cfg, p, middle), cfg)
  {
    hide ChainDecide, ActiveWorth, AllWorth;
    WorthPut(cfg, g.active, p.auth.nonce, Delivering(g.inflight[p.auth.nonce].p, g.inflight[p.auth.nonce].record));
  }

  lemma {:induction false} PaidArrive(g: State, cfg: Config, p: Payment)
    requires Paid(g, cfg)
    ensures Paid(ArriveStep(g, cfg, p), cfg)
  {
    hide ActiveWorth, InflightWorth, AllWorth;
    WorthPut(cfg, g.active, p.auth.nonce, Verified(p, VerifyPayment(cfg, g.token, p, UnixSeconds(g.now))));
  }

  lemma {:induction false} PaidKept(g: State, cfg: Config, step: Step)
    requires Paid(g, cfg) && Enabled(g, step)
    ensures Paid(Next(g, cfg, step), cfg)
  {
    hide ArriveStep, DecideStep, SubmitStep, JournalStep, CommitStep, ListStep, StampStep, DeliverStep, ResumeStep,
         AppendEntry, Token.StateAfter;
    hide ActiveWorth, InflightWorth, AllWorth;
    match step
    case Arrive(p) => PaidArrive(g, cfg, p);
    case DecideOn(n, middle, written) => PaidDecide(g, cfg, n, middle, written);
    case Submit(n, tx, included, reported, block) => PaidSubmit(g, cfg, n, tx, included, reported, block);
    case Journal(n, written) => PaidJournal(g, cfg, n, written);
    case CommitIt(n) => PaidCommit(g, cfg, n);
    case ListIt(n) => PaidList(g, cfg, n);
    case StampIt(n, written, receiptKnown) => PaidStamp(g, cfg, n, written, receiptKnown);
    case Deliver(n, delivered, refundTx, refund, written) =>
      PaidDeliver(g, cfg, n, delivered, refundTx, refund, written);
    case Resume(p, middle) => PaidResume(g, cfg, p, middle);
    case _ =>
  }

  /** Whatever a gateway records as settled or serves was verified and paid at least the price. */
  lemma {:induction false} NothingBelowThePrice(token: Token.TokenState, head: nat, now: int, cfg: Config,
      steps: seq<Step>)
    requires ValidRun(Started(token, head, now), cfg, steps)
    ensures Paid(After(Started(token, head, now), cfg, steps), cfg)
  {
    hide Next;
    if steps != [] {
      hide Paid;
      NothingBelowThePrice(token, head, now, cfg, Init(steps));
      PaidKept(After(Started(token, head, now), cfg, Init(steps)), cfg, Last(steps));
    }
  }

  // ---- Refunds ----

  /** The authorization executed and the refund of its record leave every balance as it was, and the
      authorization spent. */
  lemma {:induction false} RefundUndoesPayment(g: State, cfg: Config, p: Payment, tx: TxHash)
    requires Worth(cfg, p) && OnChain(g, cfg, p).Done?
    requires RefundOutcome(g.(token := OnChain(g, cfg, p).state), cfg, RecordFor(g, p, tx)).Done?
    ensures var st := RefundOutcome(g.(token := OnChain(g, cfg, p).state), cfg, RecordFor(g, p, tx)).state;
            && (forall a: Address :: st.BalanceOf(a) == g.token.BalanceOf(a))
            && st.totalSupply == g.token.totalSupply
            && KeyOf(p) in st.used
  {
    var paid := OnChain(g, cfg, p).state;
    MoveBalances(g.token.(used := g.token.used + {KeyOf(p)}), p.auth.from, cfg.payTo, p.auth.value);
    MoveBalances(paid, cfg.payTo, p.auth.from, p.auth.value);
  }

  lemma {:induction false} MoveBalances(st: Token.TokenState, from: Address, to: Address, value: Token.Word)
    requires Token.Move(st, from, to, value).Done?
    ensures var st' := Token.Move(st, from, to, value).state;
            && st'.totalSupply == st.totalSupply && st'.used == st.used
            && forall a: Address ::
                 st'.BalanceOf(a) == st.BalanceOf(a) - (if a == from then value else 0) + (if a == to then value else 0)
  {}

  // ---- Revocations ----

  /** A revocation is never taken back. */
  lemma {:induction false} RevocationsLast(g: State, cfg: Config, steps: seq<Step>)
    requires ValidRun(g, cfg, steps)
    ensures g.revoked <= After(g, cfg, steps).revoked
  {
    if steps != [] {
      RevocationsLast(g, cfg, Init(steps));
      StepRevokes(After(g, cfg, Init(steps)), cfg, Last(steps));
    }
  }

  lemma {:induction false} StepRevokes(g: State, cfg: Config, step: Step)
    requires Enabled(g, step)
    ensures g.revoked <= Next(g, cfg, step).revoked
  {
    hide DecideStep, SubmitStep, DeliverStep, ResumeStep, ChainDecide, HeldBy, AppendEntry, Notified, RefundOutcome,
         VerifyPayment, Token.StateAfter;
    match step
    case DecideOn(n, middle, written) => DecideAsUpdate(g, cfg, n, middle, written);
    case Submit(n, tx, included, reported, block) => SubmitRevokesNothing(g, cfg, n, tx, included, reported, block);
    case Deliver(n, delivered, refundTx, refund, written) =>
      DeliverAsUpdate(g, cfg, n, delivered, refundTx, refund, written);
    case Resume(p, middle) => ResumeRevokesNothing(g, cfg, p, middle);
    case _ =>
  }

  lemma {:induction false} SubmitRevokesNothing(g: State, cfg: Config, n: Nonce, tx: TxHash, included: bool,
      reported: bool, block: nat)
    requires n in g.active && g.active[n].Settling?
    ensures SubmitStep(g, cfg, n, tx, included, reported, block).revoked == g.revoked
  {
    hide OnChain, Notified;
  }

  lemma {:induction false} ResumeRevokesNothing(g: State, cfg: Config, p: Payment, middle: seq<Decision>)
    requires p.auth.nonce in g.inflight
    ensures ResumeStep(g, cfg, p, middle).revoked == g.revoked
  {
    hide ChainDecide;
  }

  /** From a revocation on, no payment under the mandate is held, and none gets past the mandate
      policy at any stage. */
  lemma {:induction false} RevokedIsRefusedForGood(g: State, cfg: Config, steps: seq<Step>, p: Payment, m: Mandate,
      middle: seq<Decision>, valid: bool, stage: Stage)
    requires ValidRun(g, cfg, steps) && p.mandate == Some(m) && (m.delegator, m.id) in g.revoked
    ensures var g' := After(g, cfg, steps);
            && !HeldBy(g', cfg, p, valid, middle)
            && ChainDecide(g', cfg, p, valid, middle, stage).0.action != Approve
  {
    hide After, FirstVeto, PrefixAllowed, VerdictOf, OverCap;
    RevocationsLast(g, cfg, steps);
  }
}
