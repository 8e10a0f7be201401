/** Where settlements come from (x402/gateway.go): whatever a gateway records or serves arrived as a
    proper payment, was let through by the policies, and was executed by the token, in this order and
    each at a moment when the respective conditions held. And a payment that meets them is settled. */
module GatewayProvenance {
  import opened Common
  import opened MandateAccounts
  import opened Policy
  import opened Gateway
  import opened GatewaySafety
  import opened GatewayPlaces
  import PolicyLaws
  import TokenLaws
  import Token = Stablecoin

  // ---- The three gates, in terms of the payment and the state ----

  /** At the first gate: of the right form, bound to the resource, to the payee, at least the price, in
      time with five seconds to spare, signed by the payer, unused, covered, and the payer not frozen. */
  predicate Proper(g: State, cfg: Config, p: Payment) {
    var a, seconds := p.auth, g.now / SECOND;
    && p.bound && p.wellFormed
    && a.to == cfg.payTo && cfg.price <= a.value
    && a.validAfter < seconds && seconds + 5 < a.validBefore
    && p.recovered == a.from
    && (a.from, a.nonce) !in g.token.used
    && a.value <= g.token.BalanceOf(a.from)
    && a.from !in g.token.controls.frozen
  }

  /** At the second: the mandate is genuine, was granted to the payer, is in force and not revoked,
      covers the payee and the resource, and has room for the amount. */
  ghost predicate Licensed(g: State, cfg: Config, p: Payment) {
    && p.mandate.Some?
    && var m := p.mandate.value;
    && p.genuine && m.agent == p.auth.from
    && m.validAfter <= g.now / SECOND < m.validBefore
    && (m.delegator, m.id) !in g.revoked
    && PolicyLaws.Covers(m, cfg.payTo, p.resource)
    && PolicyLaws.UnderCap(m, p.auth.value, p.confirmed)
    && var acct := if m.id in g.accounts then g.accounts[m.id] else Account([], map[]);
    && PolicyLaws.InBudget(acct, m, p.auth.value, g.now, p.confirmed)
    && PolicyLaws.InRate(acct, m, g.now)
  }

  predicate AllApprove(ds: seq<Decision>, n: nat) {
    n <= |ds| && forall i :: 0 <= i < n ==> ds[i].action == Approve
  }

  /** Some policy before the mandate policy answers Defer, after approvals only. */
  predicate DefersEarly(ds: seq<Decision>) {
    exists k: nat :: k < |ds| && AllApprove(ds, k) && ds[k].action == Defer
  }

  /** The mandate policy holds it; or it is never asked, because another policy defers. */
  ghost predicate LetThrough(g: State, cfg: Config, p: Payment, middle: seq<Decision>) {
    (AllApprove(middle, |middle|) && Licensed(g, cfg, p)) || DefersEarly(middle)
  }

  /** At the third: what the token asks of the gateway's relayer. */
  predicate Executable(g: State, cfg: Config, p: Payment) {
    var seconds := if g.now < 0 then 0 else g.now / SECOND;
    && TokenLaws.Free(g.token.controls, p.auth.from, p.auth.to)
    && TokenLaws.Honourable(g.token, cfg.relayer, seconds, p.auth, p.recovered, false)
    && p.auth.value <= g.token.BalanceOf(p.auth.from)
  }

  // ---- The course of a payment, in a run ----

  ghost predicate Arrived(g0: State, cfg: Config, steps: seq<Step>, p: Payment)
    requires ValidRun(g0, cfg, steps)
  {
    steps != [] &&
    (|| Arrived(g0, cfg, Init(steps), p)
     || (Last(steps) == Arrive(p) && Proper(After(g0, cfg, Init(steps)), cfg, p)))
  }

  /** It had arrived before it was let through. */
  ghost predicate Passed(g0: State, cfg: Config, steps: seq<Step>, p: Payment)
    requires ValidRun(g0, cfg, steps)
  {
    steps != [] &&
    (|| Passed(g0, cfg, Init(steps), p)
     || (&& Last(steps).DecideOn? && Last(steps).nonce == p.auth.nonce
         && Arrived(g0, cfg, Init(steps), p)
         && LetThrough(After(g0, cfg, Init(steps)), cfg, p, Last(steps).middle)))
  }

  /** It had been let through before it was executed. */
  ghost predicate Executed(g0: State, cfg: Config, steps: seq<Step>, p: Payment, tx: TxHash)
    requires ValidRun(g0, cfg, steps)
  {
    steps != [] &&
    (|| Executed(g0, cfg, Init(steps), p, tx)
     || (&& Last(steps).Submit? && Last(steps).nonce == p.auth.nonce && Last(steps).tx == tx
         && Passed(g0, cfg, Init(steps), p)
         && Executable(After(g0, cfg, Init(steps)), cfg, p)))
  }

  /** The record names the payer, the amount and the transaction of such a payment. */
  ghost predicate Backed(g0: State, cfg: Config, steps: seq<Step>, r: Record)
    requires ValidRun(g0, cfg, steps)
  {
    exists p: Payment :: p.auth.from == r.payer && p.auth.value == r.amount && Executed(g0, cfg, steps, p, r.tx)
  }

  // ---- The gates are the code's ----

  lemma {:induction false} ProperIsVerified(g: State, cfg: Config, p: Payment)
    ensures Proper(g, cfg, p) <==> p.bound && VerifyPayment(cfg, g.token, p, UnixSeconds(g.now))
  {}

  lemma {:induction false} FirstVetoOf(ds: seq<Decision>)
    ensures FirstVeto(ds).action == Approve <==> AllApprove(ds, |ds|)
    ensures FirstVeto(ds).action == Defer <==> DefersEarly(ds)
  {
    FirstVetoSpec(ds);
    if k: nat :| k < |ds| && AllApprove(ds, k) && ds[k].action == Defer {
      var i :| 0 <= i < |ds| && ds[i] == FirstVeto(ds) && forall j :: 0 <= j < i ==> ds[j].action == Approve;
      assert i == k;
    }
    if FirstVeto(ds).action == Defer {
      var i :| 0 <= i < |ds| && ds[i] == FirstVeto(ds) && forall j :: 0 <= j < i ==> ds[j].action == Approve;
      assert AllApprove(ds, i);
    }
  }

  lemma {:induction false} VerifiedVeto(middle: seq<Decision>)
    ensures FirstVeto([AlwaysVerify(true)] + middle) == FirstVeto(middle)
  {
    assert ([AlwaysVerify(true)] + middle)[1..] == middle;
  }

  lemma {:induction false} LicensedIsHeld(g: State, cfg: Config, p: Payment)
    ensures Licensed(g, cfg, p) <==> Holds(cfg.settings, g.revoked, g.accounts, RequestOf(cfg, p), g.now)
  {
    var r := RequestOf(cfg, p);
    PolicyLaws.EntitlementTable(g.revoked, r, g.now);
    hide Entitlement, VerdictOf, PolicyLaws.InBudget, PolicyLaws.InRate, PolicyLaws.Covers;
    if p.mandate.Some? {
      PolicyLaws.VerdictIs(AccountOf(g.accounts, p.mandate.value.id), p.mandate.value, p.auth.value, g.now,
                           p.confirmed);
    }
  }

  /** A verified payment goes on to settlement exactly when it is let through. */
  lemma {:induction false} PassesIffLetThrough(g: State, cfg: Config, p: Payment, middle: seq<Decision>)
    ensures var action := ChainDecide(g, cfg, p, true, middle, PreSettlement).0.action;
            action == Approve || action == Defer <==> LetThrough(g, cfg, p, middle)
  {
    VerifiedVeto(middle);
    FirstVetoOf(middle);
    LicensedIsHeld(g, cfg, p);
    SettlesIffHeld(cfg.settings, g.revoked, g.accounts, RequestOf(cfg, p), g.now);
    hide Licensed, Holds, FirstVeto, Decide, DefersEarly;
  }

  lemma {:induction false} LandsOnlyIf(g: State, cfg: Config, p: Payment)
    ensures OnChain(g, cfg, p).Done? ==> Executable(g, cfg, p)
    ensures OnChain(g, cfg, p).Done? <== Executable(g, cfg, p) && Token.Solid(g.token)
  {
    var st := g.token.(used := g.token.used + {KeyOf(p)});
    if Token.Solid(g.token) {
      TokenLaws.MoveLaw(st, p.auth.from, p.auth.to, p.auth.value);
    }
  }

  // ---- What every request and every record has behind it ----

  ghost predicate PhaseBacked(g0: State, cfg: Config, steps: seq<Step>, ph: Phase)
    requires ValidRun(g0, cfg, steps)
  {
    match ph
    case Verified(p, valid) => valid ==> Arrived(g0, cfg, steps, p)
    case Settling(p, _, _) => Passed(g0, cfg, steps, p)
    case Mined(p, _, _, tx, _) => Executed(g0, cfg, steps, p, tx)
    case Journaled(_, _, _, record, _) => Backed(g0, cfg, steps, record)
    case Committed(_, _, record, _, _) => Backed(g0, cfg, steps, record)
    case Listed(_, _, record, _, _) => Backed(g0, cfg, steps, record)
    case Delivering(_, record) => Backed(g0, cfg, steps, record)
  }

  ghost predicate ActiveBacked(g0: State, cfg: Config, steps: seq<Step>, active: map<Nonce, Phase>)
    requires ValidRun(g0, cfg, steps)
  {
    forall n :: n in active ==> PhaseBacked(g0, cfg, steps, active[n])
  }

  ghost predicate InflightBacked(g0: State, cfg: Config, steps: seq<Step>, inflight: map<Nonce, Deferred>)
    requires ValidRun(g0, cfg, steps)
  {
    forall n :: n in inflight ==> Backed(g0, cfg, steps, inflight[n].record)
  }

  ghost predicate RecordsBacked(g0: State, cfg: Config, steps: seq<Step>, records: seq<Record>)
    requires ValidRun(g0, cfg, steps)
  {
    forall r :: r in records ==> Backed(g0, cfg, steps, r)
  }

  ghost predicate ServedBacked(g0: State, cfg: Config, steps: seq<Step>, served: seq<Served>)
    requires ValidRun(g0, cfg, steps)
  {
    forall s :: s in served ==> Backed(g0, cfg, steps, s.record)
  }

  ghost predicate AllBacked(g0: State, cfg: Config, steps: seq<Step>, g: State)
    requires ValidRun(g0, cfg, steps)
  {
    && ActiveBacked(g0, cfg, steps, g.active)
    && InflightBacked(g0, cfg, steps, g.inflight)
    && RecordsBacked(g0, cfg, steps, g.settlements)
    && ServedBacked(g0, cfg, steps, g.served)
  }

  lemma {:induction false} BackedStays(g0: State, cfg: Config, steps: seq<Step>, r: Record)
    requires ValidRun(g0, cfg, steps) && steps != [] && Backed(g0, cfg, Init(steps), r)
    ensures Backed(g0, cfg, steps, r)
  {
    hide After, Proper, LetThrough, Executable, Passed;
    var p: Payment :|
      p.auth.from == r.payer && p.auth.value == r.amount && Executed(g0, cfg, Init(steps), p, r.tx);
    assert Executed(g0, cfg, steps, p, r.tx);
  }

  lemma {:induction false} PhaseStays(g0: State, cfg: Config, steps: seq<Step>, ph: Phase)
    requires ValidRun(g0, cfg, steps) && steps != [] && PhaseBacked(g0, cfg, Init(steps), ph)
    ensures PhaseBacked(g0, cfg, steps, ph)
  {
    hide After, Proper, LetThrough, Executable, Backed, ValidRun;
    match ph
    case Journaled(_, _, _, record, _) => BackedStays(g0, cfg, steps, record);
    case Committed(_, _, record, _, _) => BackedStays(g0, cfg, steps, record);
    case Listed(_, _, record, _, _) => BackedStays(g0, cfg, steps, record);
    case Delivering(_, record) => BackedStays(g0, cfg, steps, record);
    case _ =>
  }

  lemma {:induction false} AllStays(g0: State, cfg: Config, steps: seq<Step>, g: State)
    requires ValidRun(g0, cfg, steps) && steps != [] && AllBacked(g0, cfg, Init(steps), g)
    ensures AllBacked(g0, cfg, steps, g)
  {
    hide After, Backed, PhaseBacked, ValidRun;
    forall n | n in g.active
      ensures PhaseBacked(g0, cfg, steps, g.active[n])
    {
      PhaseStays(g0, cfg, steps, g.active[n]);
    }
    forall n | n in g.inflight
      ensures Backed(g0, cfg, steps, g.inflight[n].record)
    {
      BackedStays(g0, cfg, steps, g.inflight[n].record);
    }
    forall r | r in g.settlements
      ensures Backed(g0, cfg, steps, r)
    {
      BackedStays(g0, cfg, steps, r);
    }
    forall s | s in g.served
      ensures Backed(g0, cfg, steps, s.record)
    {
      BackedStays(g0, cfg, steps, s.record);
    }
  }

  // ---- Each step ----

  /** A request moves to a phase that is backed, or ends. */
  lemma {:induction false} MoveBacked(g0: State, cfg: Config, steps: seq<Step>, g: State, g': State, n: Nonce,
      ph: Phase)
    requires ValidRun(g0, cfg, steps) && AllBacked(g0, cfg, steps, g) && PhaseBacked(g0, cfg, steps, ph)
    requires g'.active == g.active || g'.active == g.active[n := ph] || g'.active == g.active - {n}
    requires g'.inflight == g.inflight && g'.settlements == g.settlements && g'.served == g.served
    ensures AllBacked(g0, cfg, steps, g')
  {
    hide PhaseBacked, Backed, ValidRun;
  }

  lemma {:induction false} PhaseAt(g0: State, cfg: Config, steps: seq<Step>, g: State, n: Nonce)
    requires ValidRun(g0, cfg, steps) && AllBacked(g0, cfg, steps, g) && n in g.active
    ensures PhaseBacked(g0, cfg, steps, g.active[n])
  {
    hide PhaseBacked, Backed, ValidRun;
  }

  lemma {:induction false} BackedArrive(g0: State, cfg: Config, steps: seq<Step>, p: Payment)
    requires ValidRun(g0, cfg, steps) && steps != [] && Last(steps) == Arrive(p)
    requires AllBacked(g0, cfg, steps, After(g0, cfg, Init(steps)))
    ensures AllBacked(g0, cfg, steps, ArriveStep(After(g0, cfg, Init(steps)), cfg, p))
  {
    var g := After(g0, cfg, Init(steps));
    ProperIsVerified(g, cfg, p);
    hide Proper, VerifyPayment, AllBacked, After;
    var seen := Verified(p, VerifyPayment(cfg, g.token, p, UnixSeconds(g.now)));
    if p.bound {
      MoveBacked(g0, cfg, steps, g, ArriveStep(g, cfg, p), p.auth.nonce, seen);
    }
  }

  lemma {:induction false} BackedDecide(g0: State, cfg: Config, steps: seq<Step>, n: Nonce, middle: seq<Decision>,
      written: bool)
    requires ValidRun(g0, cfg, steps) && steps != [] && Last(steps) == DecideOn(n, middle, written)
    requires AllBacked(g0, cfg, steps, After(g0, cfg, Init(steps)))
    requires AllBacked(g0, cfg, Init(steps), After(g0, cfg, Init(steps))) && Shape(After(g0, cfg, Init(steps)))
    ensures AllBacked(g0, cfg, steps, DecideStep(After(g0, cfg, Init(steps)), cfg, n, middle, written))
  {
    var g := After(g0, cfg, Init(steps));
    assert Enabled(g, DecideOn(n, middle, written));
    var p, valid := g.active[n].p, g.active[n].valid;
    assert PhaseOk(g.landed, n, g.active[n]);
    PhaseAt(g0, cfg, Init(steps), g, n);
    DecideAsUpdate(g, cfg, n, middle, written);
    hide AllBacked, DecideStep, ChainDecide, HeldBy, AppendEntry, LetThrough, Shape, After, Arrived;
    var action := ChainDecide(g, cfg, p, valid, middle, PreSettlement).0.action;
    var next := Settling(p, action == Defer, HeldBy(g, cfg, p, valid, middle));
    if action == Approve || action == Defer {
      if valid {
        PassesIffLetThrough(g, cfg, p, middle);
      } else {
        UnverifiedStops(g, cfg, p, middle);
      }
      MoveBacked(g0, cfg, steps, g, DecideStep(g, cfg, n, middle, written), n, next);
    } else {
      MoveBacked(g0, cfg, steps, g, DecideStep(g, cfg, n, middle, written), n, Verified(p, false));
    }
  }

  lemma {:induction false} UnverifiedStops(g: State, cfg: Config, p: Payment, middle: seq<Decision>)
    ensures ChainDecide(g, cfg, p, false, middle, PreSettlement).0.action == Reject
  {
    assert ([AlwaysVerify(false)] + middle)[0] == AlwaysVerify(false);
  }

  lemma {:induction false} BackedSubmit(g0: State, cfg: Config, steps: seq<Step>, n: Nonce, tx: TxHash, included: bool,
      reported: bool, block: nat)
    requires ValidRun(g0, cfg, steps) && steps != [] && Last(steps) == Step.Submit(n, tx, included, reported, block)
    requires AllBacked(g0, cfg, steps, After(g0, cfg, Init(steps)))
    requires AllBacked(g0, cfg, Init(steps), After(g0, cfg, Init(steps))) && Shape(After(g0, cfg, Init(steps)))
    ensures AllBacked(g0, cfg, steps, SubmitStep(After(g0, cfg, Init(steps)), cfg, n, tx, included, reported, block))
  {
    var g := After(g0, cfg, Init(steps));
    assert Enabled(g, Step.Submit(n, tx, included, reported, block));
    var ph := g.active[n];
    assert PhaseOk(g.landed, n, ph);
    PhaseAt(g0, cfg, Init(steps), g, n);
    PhaseAt(g0, cfg, steps, g, n);
    LandsOnlyIf(g, cfg, ph.p);
    hide AllBacked, OnChain, Notified, Executable, Shape, After, Passed;
    var g' := SubmitStep(g, cfg, n, tx, included, reported, block);
    if included && OnChain(g, cfg, ph.p).Done? && reported {
      MoveBacked(g0, cfg, steps, g, g', n, Mined(ph.p, ph.deferred, ph.held, tx, block));
    } else {
      MoveBacked(g0, cfg, steps, g, g', n, ph);
    }
  }

  lemma {:induction false} BackedJournal(g0: State, cfg: Config, steps: seq<Step>, g: State, n: Nonce, written: bool)
    requires ValidRun(g0, cfg, steps) && AllBacked(g0, cfg, steps, g) && n in g.active && g.active[n].Mined?
    ensures AllBacked(g0, cfg, steps, JournalStep(g, n, written))
  {
    var ph := g.active[n];
    PhaseAt(g0, cfg, steps, g, n);
    hide AllBacked, Notified, AppendEntry, Executed;
    var r := RecordFor(g, ph.p, ph.tx);
    assert Executed(g0, cfg, steps, ph.p, r.tx) && r.payer == ph.p.auth.from && r.amount == ph.p.auth.value;
    MoveBacked(g0, cfg, steps, g, JournalStep(g, n, written), n,
               Journaled(ph.p, ph.deferred, ph.held, r, ph.block));
  }

  lemma {:induction false} BackedCommit(g0: State, cfg: Config, steps: seq<Step>, g: State, n: Nonce)
    requires ValidRun(g0, cfg, steps) && AllBacked(g0, cfg, steps, g) && n in g.active && g.active[n].Journaled?
    ensures AllBacked(g0, cfg, steps, CommitStep(g, n))
  {
    var ph := g.active[n];
    PhaseAt(g0, cfg, steps, g, n);
    hide AllBacked, Notified, Backed;
    MoveBacked(g0, cfg, steps, g, CommitStep(g, n), n, Committed(ph.p, ph.deferred, ph.record, ph.block, g.now));
  }

  lemma {:induction false} BackedList(g0: State, cfg: Config, steps: seq<Step>, g: State, n: Nonce)
    requires ValidRun(g0, cfg, steps) && AllBacked(g0, cfg, steps, g) && n in g.active && g.active[n].Committed?
    ensures AllBacked(g0, cfg, steps, ListStep(g, n))
  {
    var ph := g.active[n];
    PhaseAt(g0, cfg, steps, g, n);
    hide ActiveBacked, InflightBacked, ServedBacked, Backed, PhaseBacked;
    assert Backed(g0, cfg, steps, ph.record) by { ListedRecord(g0, cfg, steps, g, n); }
    PutBacked(g0, cfg, steps, g.active, n, Listed(ph.p, ph.deferred, ph.record, ph.block, ph.at));
  }

  lemma {:induction false} ListedRecord(g0: State, cfg: Config, steps: seq<Step>, g: State, n: Nonce)
    requires ValidRun(g0, cfg, steps) && n in g.active && g.active[n].Committed?
    requires PhaseBacked(g0, cfg, steps, g.active[n])
    ensures Backed(g0, cfg, steps, g.active[n].record)
    ensures var ph := g.active[n];
            PhaseBacked(g0, cfg, steps, Listed(ph.p, ph.deferred, ph.record, ph.block, ph.at))
  {
    hide Backed;
  }

  lemma {:induction false} PutBacked(g0: State, cfg: Config, steps: seq<Step>, active: map<Nonce, Phase>, n: Nonce,
      ph: Phase)
    requires ValidRun(g0, cfg, steps) && ActiveBacked(g0, cfg, steps, active)
    ensures ActiveBacked(g0, cfg, steps, active - {n})
    ensures PhaseBacked(g0, cfg, steps, ph) ==> ActiveBacked(g0, cfg, steps, active[n := ph])
  {
    hide PhaseBacked;
  }

  lemma {:induction false} BackedStamp(g0: State, cfg: Config, steps: seq<Step>, g: State, n: Nonce, written: bool,
      receiptKnown: bool)
    requires ValidRun(g0, cfg, steps) && AllBacked(g0, cfg, steps, g) && n in g.active && g.active[n].Listed?
    ensures AllBacked(g0, cfg, steps, StampStep(g, n, written, receiptKnown))
  {
    var ph := g.active[n];
    PhaseAt(g0, cfg, steps, g, n);
    hide ActiveBacked, RecordsBacked, ServedBacked, Backed, AppendEntry;
    PutBacked(g0, cfg, steps, g.active, n, Delivering(ph.p, ph.record));
  }

  lemma {:induction false} BackedDeliver(g0: State, cfg: Config, steps: seq<Step>, g: State, n: Nonce, delivered: bool,
      refundTx: TxHash, refund: Reply, written: bool)
    requires ValidRun(g0, cfg, steps) && AllBacked(g0, cfg, steps, g) && n in g.active && g.active[n].Delivering?
    ensures AllBacked(g0, cfg, steps, DeliverStep(g, cfg, n, delivered, refundTx, refund, written))
  {
    var ph := g.active[n];
    PhaseAt(g0, cfg, steps, g, n);
    DeliverAsUpdate(g, cfg, n, delivered, refundTx, refund, written);
    hide ActiveBacked, RecordsBacked, InflightBacked, Backed, AppendEntry, RefundOutcome, DeliverStep;
    PutBacked(g0, cfg, steps, g.active, n, ph);
  }

  lemma {:induction false} BackedResume(g0: State, cfg: Config, steps: seq<Step>, g: State, p: Payment,
      middle: seq<Decision>)
    requires ValidRun(g0, cfg, steps) && AllBacked(g0, cfg, steps, g) && Enabled(g, Resume(p, middle))
    ensures AllBacked(g0, cfg, steps, ResumeStep(g, cfg, p, middle))
  {
    var n := p.auth.nonce;
    hide ActiveBacked, RecordsBacked, ServedBacked, Backed, ChainDecide;
    assert Backed(g0, cfg, steps, g.inflight[n].record);
    PutBacked(g0, cfg, steps, g.active, n, Delivering(g.inflight[n].p, g.inflight[n].record));
  }

  /** The steps that pass no gate. */
  lemma {:induction false} OthersKept(g0: State, cfg: Config, steps: seq<Step>, g: State, step: Step)
    requires ValidRun(g0, cfg, steps) && AllBacked(g0, cfg, steps, g) && Enabled(g, step)
    requires !step.Arrive? && !step.DecideOn? && !step.Submit?
    ensures AllBacked(g0, cfg, steps, Next(g, cfg, step))
  {
    hide After, ValidRun, JournalStep, CommitStep, ListStep, StampStep, DeliverStep, ResumeStep, AppendEntry,
         ActiveBacked, InflightBacked, RecordsBacked, ServedBacked, Token.StateAfter;
    match step
    case Journal(n, written) => BackedJournal(g0, cfg, steps, g, n, written);
    case CommitIt(n) => BackedCommit(g0, cfg, steps, g, n);
    case ListIt(n) => BackedList(g0, cfg, steps, g, n);
    case StampIt(n, written, receiptKnown) => BackedStamp(g0, cfg, steps, g, n, written, receiptKnown);
    case Deliver(n, delivered, refundTx, refund, written) =>
      BackedDeliver(g0, cfg, steps, g, n, delivered, refundTx, refund, written);
    case Resume(p, middle) => BackedResume(g0, cfg, steps, g, p, middle);
    case _ =>
  }

  lemma {:induction false} AllKept(g0: State, cfg: Config, steps: seq<Step>)
    requires ValidRun(g0, cfg, steps) && steps != [] && Shape(After(g0, cfg, Init(steps)))
    requires AllBacked(g0, cfg, Init(steps), After(g0, cfg, Init(steps)))
    ensures AllBacked(g0, cfg, steps, Next(After(g0, cfg, Init(steps)), cfg, Last(steps)))
  {
    var g := After(g0, cfg, Init(steps));
    assert Enabled(g, Last(steps));
    AllStays(g0, cfg, steps, g);
    hide After, ValidRun, ArriveStep, DecideStep, SubmitStep, Shape, AllBacked;
    match Last(steps)
    case Arrive(p) => BackedArrive(g0, cfg, steps, p);
    case DecideOn(n, middle, written) => BackedDecide(g0, cfg, steps, n, middle, written);
    case Submit(n, tx, included, reported, block) => BackedSubmit(g0, cfg, steps, n, tx, included, reported, block);
    case _ => OthersKept(g0, cfg, steps, g, Last(steps));
  }

  lemma {:induction false} StartBacked(token: Token.TokenState, head: nat, now: int, cfg: Config)
    ensures AllBacked(Started(token, head, now), cfg, [], Started(token, head, now))
  {}

  /** In every reachable state: behind each recorded settlement and each served one there is a payment of
      that payer and amount that arrived proper, then was held under a genuine mandate granted to its
      payer with room for it, or let through by a policy that defers, and then was executed by its
      transaction, fresh and in time. */
  lemma {:induction false} EverySettlementIsBacked(token: Token.TokenState, head: nat, now: int, cfg: Config,
      steps: seq<Step>)
    requires ValidRun(Started(token, head, now), cfg, steps)
    ensures var g0 := Started(token, head, now);
            AllBacked(g0, cfg, steps, After(g0, cfg, steps))
  {
    hide Next, AllBacked, ValidRun, Shape, Places;
    if steps == [] {
      StartBacked(token, head, now, cfg);
    } else {
      assert ValidRun(Started(token, head, now), cfg, Init(steps))
        by { ValidInit(Started(token, head, now), cfg, steps); }
      EverySettlementIsBacked(token, head, now, cfg, Init(steps));
      RunPlaced(token, head, now, cfg, Init(steps));
      AllKept(Started(token, head, now), cfg, steps);
    }
  }

  lemma {:induction false} ValidInit(g0: State, cfg: Config, steps: seq<Step>)
    requires ValidRun(g0, cfg, steps) && steps != []
    ensures ValidRun(g0, cfg, Init(steps))
  {}
}
