/** What a gateway settles under a mandate is a run of that mandate's accounting, so the window
    bounds of the accounting carry over to settled payments. */
module GatewayMandates {
  import opened Common
  import opened MandateAccounts
  import opened Policy
  import opened Gateway
  import opened GatewayAccounting
  import Bounds = MandateBounds
  import Token = Stablecoin

  // ---- What a step means for one mandate ----

  ghost function OpOf(g: State, cfg: Config, step: Step, m: Mandate): Option<Bounds.Op>
    requires Enabled(g, step)
  {
    match step
    case DecideOn(n, middle, _) =>
      var p := g.active[n].p;
      if MandateIdOf(p) == Some(m.id) && Reaches(g, cfg, p, g.active[n].valid, middle)
      then Some(Bounds.Reserving(p.auth.nonce, p.auth.value, p.confirmed)) else None
    case Submit(n, tx, included, reported, block) =>
      var p := g.active[n].p;
      if MandateIdOf(p) == Some(m.id) && !(included && OnChain(g, cfg, p).Done? && reported)
      then Some(Bounds.Releasing(p.auth.nonce)) else None
    case Journal(n, written) =>
      var p := g.active[n].p;
      if MandateIdOf(p) == Some(m.id) && !written then Some(Bounds.Releasing(p.auth.nonce)) else None
    case CommitIt(n) =>
      var p := g.active[n].p;
      if MandateIdOf(p) == Some(m.id) then Some(Bounds.Committing(p.auth.nonce)) else None
    case _ => None
  }

  /** The settled payment a step counts under the mandate. */
  ghost function SettledBy(g: State, step: Step, m: Mandate): seq<Bounds.Committed>
    requires Enabled(g, step)
  {
    match step
    case CommitIt(n) =>
      var p := g.active[n].p;
      if MandateIdOf(p) == Some(m.id) then [Bounds.Committed(g.now, p.auth.value, p.confirmed)] else []
    case _ => []
  }

  /** The accounting events of a run, for one mandate. */
  ghost function Trace(g0: State, cfg: Config, steps: seq<Step>, m: Mandate): seq<Bounds.Event>
    requires ValidRun(g0, cfg, steps)
  {
    if steps == [] then []
    else
      var g := After(g0, cfg, Init(steps));
      Trace(g0, cfg, Init(steps), m) +
      match OpOf(g, cfg, Last(steps), m)
      case Some(op) => [Bounds.Event(g.now, op)]
      case None => []
  }

  /** The settled payments the policy was told of under the mandate, in order. */
  ghost function SettledUnder(g0: State, cfg: Config, steps: seq<Step>, m: Mandate): seq<Bounds.Committed>
    requires ValidRun(g0, cfg, steps)
  {
    if steps == [] then []
    else SettledUnder(g0, cfg, Init(steps), m) + SettledBy(After(g0, cfg, Init(steps)), Last(steps), m)
  }

  // ---- Hypotheses about the requests ----

  /** A mandate id stands for one set of terms. */
  predicate SameTerms(p: Payment, m: Mandate) { MandateIdOf(p) == Some(m.id) ==> p.mandate == Some(m) }

  /** No policy between verification and the mandate policy answers Defer, which would settle the
      payment without asking the mandate policy. */
  predicate NoMiddleDefer(middle: seq<Decision>) { FirstVeto(middle).action != Defer }

  predicate Regular(step: Step, m: Mandate) {
    && (step.Arrive? ==> SameTerms(step.p, m))
    && (step.DecideOn? ==> NoMiddleDefer(step.middle))
  }

  ghost predicate AllRegular(steps: seq<Step>, m: Mandate) {
    forall i :: 0 <= i < |steps| ==> Regular(steps[i], m)
  }

  lemma {:induction false} RegularInit(steps: seq<Step>, m: Mandate)
    requires AllRegular(steps, m) && steps != []
    ensures AllRegular(Init(steps), m) && Regular(Last(steps), m)
  {
    assert forall i :: 0 <= i < |Init(steps)| ==> Init(steps)[i] == steps[i];
  }

  /** A middle Defer is the only way past the mandate policy: a request goes on to settlement
      without being held exactly when verification passed and a middle policy defers first. */
  lemma {:induction false} UnheldSettlesIff(g: State, cfg: Config, n: Nonce, middle: seq<Decision>, written: bool)
    requires n in g.active && g.active[n].Verified?
    ensures var g' := DecideStep(g, cfg, n, middle, written);
            n in g'.active && g'.active[n].Settling? && !g'.active[n].held <==>
              g.active[n].valid && FirstVeto(middle).action == Defer
  {
    hide Decide, Holds, AppendEntry, FirstVeto;
    var p, valid := g.active[n].p, g.active[n].valid;
    VerifiedFirst(valid, middle);
    SettlesIffHeld(cfg.settings, g.revoked, g.accounts, RequestOf(cfg, p), g.now);
  }

  /** A payment without any mandate. */
  const BarePayment: Payment :=
    Payment(Token.Authorization(1, 2, 10, 0, 1000, 5), 1, true, true, None, false, false, "")

  /** Such a payment, which the mandate policy refuses, settles when a middle policy answers Defer. */
  lemma {:induction false} MiddleDeferSettlesUnheld(token: Token.TokenState, cfg: Config)
    ensures var g := Started(token, 0, 0).(active := map[5 := Verified(BarePayment, true)]);
            && Decide(cfg.settings, g.revoked, g.accounts, RequestOf(cfg, BarePayment), g.now, PreSettlement).0
                 == Decision(Reject, MandateMissing)
            && DecideStep(g, cfg, 5, [Decision(Defer, PaymentDeferred)], true).active ==
                 map[5 := Settling(BarePayment, true, false)]
  {
    hide AppendEntry;
    var middle := [Decision(Defer, PaymentDeferred)];
    assert middle[1..] == [];
    VerifiedFirst(true, middle);
  }

  lemma {:induction false} VerifiedFirst(valid: bool, middle: seq<Decision>)
    ensures FirstVeto([AlwaysVerify(valid)] + middle) == if valid then FirstVeto(middle) else AlwaysVerify(false)
  {
    assert ([AlwaysVerify(valid)] + middle)[1..] == middle;
  }

  // ---- The link ----

  /** Under these hypotheses whatever is being settled is held, and on the mandate's own terms. */
  predicate Lawful(ph: Phase, m: Mandate) {
    && (ph.Verified? || ph.Settling? || ph.Mined? || ph.Journaled? ==> SameTerms(ph.p, m))
    && (ph.Settling? || ph.Mined? || ph.Journaled? ==> ph.held)
  }

  ghost predicate AllLawful(active: map<Nonce, Phase>, m: Mandate) {
    forall n :: n in active ==> Lawful(active[n], m)
  }

  /** Of the payments held, the accounting knows which came with a confirmation. */
  ghost predicate WaivedOk(active: map<Nonce, Phase>, m: Mandate, waived: set<Nonce>) {
    forall n :: Held(active, m.id, n) ==> (n in waived <==> active[n].p.confirmed)
  }

  ghost predicate Linked(g: State, m: Mandate, t: Bounds.Tracked) {
    && t.acct == AccountOf(g.accounts, m.id)
    && AllLawful(g.active, m)
    && WaivedOk(g.active, m, t.waived)
  }

  ghost function Tracked(t: Bounds.Tracked, m: Mandate, now: int, op: Option<Bounds.Op>): Bounds.Tracked {
    match op
    case Some(o) => Bounds.Step(t, m, Bounds.Event(now, o))
    case None => t
  }

  lemma {:induction false} LawfulPut(active: map<Nonce, Phase>, m: Mandate, n: Nonce, ph: Phase)
    requires AllLawful(active, m)
    ensures Lawful(ph, m) ==> AllLawful(active[n := ph], m)
    ensures AllLawful(active - {n}, m)
    ensures n in active ==> Lawful(active[n], m)
  {}

  lemma {:induction false} WaivedPut(active: map<Nonce, Phase>, m: Mandate, waived: set<Nonce>, waived': set<Nonce>,
      n: Nonce, ph: Phase)
    requires WaivedOk(active, m, waived) && forall k :: k != n ==> (k in waived' <==> k in waived)
    ensures (HoldsFor(ph, m.id) ==> (n in waived' <==> ph.p.confirmed)) ==> WaivedOk(active[n := ph], m, waived')
    ensures WaivedOk(active - {n}, m, waived')
    ensures Held(active, m.id, n) ==> (n in waived <==> active[n].p.confirmed)
  {
    forall k | k != n && Held(active[n := ph], m.id, k)
      ensures k in waived' <==> active[k].p.confirmed
    {
      assert Held(active, m.id, k);
    }
    forall k | Held(active - {n}, m.id, k)
      ensures k in waived' <==> active[k].p.confirmed
    {
      assert Held(active, m.id, k);
    }
  }

  lemma {:induction false} LinkDecide(g: State, cfg: Config, n: Nonce, middle: seq<Decision>, written: bool, m: Mandate,
      t: Bounds.Tracked)
    requires Filed(g.active) && Linked(g, m, t) && n in g.active && g.active[n].Verified? && NoMiddleDefer(middle)
    ensures Linked(DecideStep(g, cfg, n, middle, written), m,
                   Tracked(t, m, g.now, OpOf(g, cfg, DecideOn(n, middle, written), m)))
  {
    hide AppendEntry, ChainDecide, HeldBy, AccountOf, AllLawful, WaivedOk, Reaches, FirstVeto, Bounds.Step;
    var p, valid := g.active[n].p, g.active[n].valid;
    assert p.auth.nonce == n;
    hide Filed;
    var t' := Tracked(t, m, g.now, OpOf(g, cfg, DecideOn(n, middle, written), m));
    var next := Settling(p, ChainDecide(g, cfg, p, valid, middle, PreSettlement).0.action == Defer,
                         HeldBy(g, cfg, p, valid, middle));
    LawfulPut(g.active, m, n, next);
    DecideTracked(g, cfg, n, middle, written, m, t, t');
    UnheldSettlesIff(g, cfg, n, middle, written);
    WaivedPut(g.active, m, t.waived, t'.waived, n, next);
  }

  /** The decision and the accounting agree on the account, and on who is held with a waiver. */
  lemma {:induction false} DecideTracked(g: State, cfg: Config, n: Nonce, middle: seq<Decision>, written: bool,
      m: Mandate, t: Bounds.Tracked, t': Bounds.Tracked)
    requires n in g.active && g.active[n].Verified? && g.active[n].p.auth.nonce == n && SameTerms(g.active[n].p, m)
    requires t.acct == AccountOf(g.accounts, m.id)
    requires t' == Tracked(t, m, g.now, OpOf(g, cfg, DecideOn(n, middle, written), m))
    ensures var p, valid := g.active[n].p, g.active[n].valid;
            && t'.acct == AccountOf(ChainDecide(g, cfg, p, valid, middle, PreSettlement).1, m.id)
            && (forall k :: k != n ==> (k in t'.waived <==> k in t.waived))
            && (HeldBy(g, cfg, p, valid, middle) && MandateIdOf(p) == Some(m.id) ==> (n in t'.waived <==> p.confirmed))
  {
    hide ChainDecide, HeldBy, AccountOf, VerdictOf, Reaches, ReserveIn, FirstVeto;
    var p, valid := g.active[n].p, g.active[n].valid;
    DecideAt(g, cfg, p, valid, middle, m.id);
    HeldReaches(g, cfg, p, valid, middle);
    if MandateIdOf(p) == Some(m.id) && Reaches(g, cfg, p, valid, middle) {
      HeldMeansFits(g, cfg, p, valid, middle, m.id);
    }
  }

  /** Once the windows are reached, the payment is held exactly when it fits them. */
  lemma {:induction false} HeldMeansFits(g: State, cfg: Config, p: Payment, valid: bool, middle: seq<Decision>,
      id: MandateId)
    requires Reaches(g, cfg, p, valid, middle) && MandateIdOf(p) == Some(id)
    ensures HeldBy(g, cfg, p, valid, middle) <==>
              VerdictOf(AccountOf(g.accounts, id), p.mandate.value, p.auth.value, g.now, p.confirmed) == Fits
  {
    hide VerdictOf, FirstVeto, Entitlement, AccountOf;
  }

  lemma {:induction false} HeldReaches(g: State, cfg: Config, p: Payment, valid: bool, middle: seq<Decision>)
    ensures HeldBy(g, cfg, p, valid, middle) ==> Reaches(g, cfg, p, valid, middle)
  {
    hide VerdictOf, FirstVeto;
  }

  /** A settle that fails releases, as the accounting does. */
  lemma {:induction false} LinkFail(g: State, n: Nonce, m: Mandate, t: Bounds.Tracked)
    requires Filed(g.active) && Linked(g, m, t) && n in g.active
    ensures var p := g.active[n].p;
            var op := if MandateIdOf(p) == Some(m.id) then Some(Bounds.Releasing(p.auth.nonce)) else None;
            && Tracked(t, m, g.now, op).acct == AccountOf(Notified(g, p, false), m.id)
            && AllLawful(g.active - {n}, m)
            && WaivedOk(g.active - {n}, m, Tracked(t, m, g.now, op).waived)
  {
    hide AllLawful, WaivedOk, Notified, AccountOf;
    var p := g.active[n].p;
    ReleaseAt(g, p, m.id);
    LawfulPut(g.active, m, n, g.active[n]);
    WaivedPut(g.active, m, t.waived, t.waived, n, g.active[n]);
  }

  /** Within settle a request keeps its payment and its hold. */
  lemma {:induction false} LinkMove(active: map<Nonce, Phase>, m: Mandate, waived: set<Nonce>, n: Nonce, ph: Phase)
    requires AllLawful(active, m) && WaivedOk(active, m, waived) && n in active
    requires active[n].Settling? || active[n].Mined?
    requires ph.Mined? || ph.Journaled?
    requires ph.p == active[n].p && ph.held == active[n].held
    ensures AllLawful(active[n := ph], m) && WaivedOk(active[n := ph], m, waived)
  {
    hide AllLawful, WaivedOk;
    LawfulPut(active, m, n, ph);
    WaivedPut(active, m, waived, waived, n, ph);
  }

  lemma {:induction false} LinkSubmit(g: State, cfg: Config, n: Nonce, tx: TxHash, included: bool, reported: bool,
      block: nat, m: Mandate, t: Bounds.Tracked)
    requires Filed(g.active) && Linked(g, m, t) && Enabled(g, Submit(n, tx, included, reported, block))
    ensures Linked(SubmitStep(g, cfg, n, tx, included, reported, block), m,
                   Tracked(t, m, g.now, OpOf(g, cfg, Submit(n, tx, included, reported, block), m)))
  {
    hide AllLawful, WaivedOk, Notified, AccountOf, OnChain, Filed, Bounds.Step;
    var ph := g.active[n];
    LinkFail(g, n, m, t);
    LinkMove(g.active, m, t.waived, n, Mined(ph.p, ph.deferred, ph.held, tx, block));
  }

  lemma {:induction false} LinkJournal(g: State, cfg: Config, n: Nonce, written: bool, m: Mandate, t: Bounds.Tracked)
    requires Filed(g.active) && Linked(g, m, t) && Enabled(g, Journal(n, written))
    ensures Linked(JournalStep(g, n, written), m, Tracked(t, m, g.now, OpOf(g, cfg, Journal(n, written), m)))
  {
    hide AllLawful, WaivedOk, Notified, AccountOf, AppendEntry, Filed, Bounds.Step;
    var ph := g.active[n];
    LinkFail(g, n, m, t);
    LinkMove(g.active, m, t.waived, n, Journaled(ph.p, ph.deferred, ph.held, RecordFor(g, ph.p, ph.tx), ph.block));
  }

  /** A settlement the policy is told of is one commit, of the payment's own amount. */
  lemma {:induction false} LinkCommit(g: State, cfg: Config, n: Nonce, m: Mandate, t: Bounds.Tracked)
    requires Books(g) && Linked(g, m, t) && Enabled(g, CommitIt(n))
    ensures var t' := Tracked(t, m, g.now, OpOf(g, cfg, CommitIt(n), m));
            Linked(CommitStep(g, n), m, t') && t'.history == t.history + SettledBy(g, CommitIt(n), m)
  {
    hide AllLawful, WaivedOk, Notified, AccountOf, Exact, CommitIn;
    var ph := g.active[n];
    var next := Committed(ph.p, ph.deferred, ph.record, ph.block, g.now);
    assert ph.p.auth.nonce == n;
    hide Filed;
    CommitAt(g, ph.p, m.id);
    LawfulPut(g.active, m, n, next);
    WaivedPut(g.active, m, t.waived, t.waived, n, next);
    if MandateIdOf(ph.p) == Some(m.id) {
      HeldIsReserved(g, n, m.id);
    }
  }

  /** What happens to a request after its commit does not concern the accounting. */
  lemma {:induction false} LinkAfter(active: map<Nonce, Phase>, m: Mandate, waived: set<Nonce>, n: Nonce, ph: Phase)
    requires AllLawful(active, m) && WaivedOk(active, m, waived)
    requires ph.Committed? || ph.Listed? || ph.Delivering?
    ensures AllLawful(active[n := ph], m) && WaivedOk(active[n := ph], m, waived)
    ensures AllLawful(active - {n}, m) && WaivedOk(active - {n}, m, waived)
  {
    hide AllLawful, WaivedOk;
    LawfulPut(active, m, n, ph);
    WaivedPut(active, m, waived, waived, n, ph);
  }

  lemma {:induction false} LinkList(g: State, n: Nonce, m: Mandate, t: Bounds.Tracked)
    requires Linked(g, m, t) && Enabled(g, ListIt(n))
    ensures Linked(ListStep(g, n), m, t)
  {
    hide AllLawful, WaivedOk, AccountOf;
    var ph := g.active[n];
    LinkAfter(g.active, m, t.waived, n, Listed(ph.p, ph.deferred, ph.record, ph.block, ph.at));
  }

  lemma {:induction false} LinkStamp(g: State, n: Nonce, written: bool, receiptKnown: bool, m: Mandate,
      t: Bounds.Tracked)
    requires Linked(g, m, t) && Enabled(g, StampIt(n, written, receiptKnown))
    ensures Linked(StampStep(g, n, written, receiptKnown), m, t)
  {
    hide AllLawful, WaivedOk, AccountOf, AppendEntry;
    LinkAfter(g.active, m, t.waived, n, Delivering(g.active[n].p, g.active[n].record));
  }

  lemma {:induction false} HeldIsReserved(g: State, n: Nonce, id: MandateId)
    requires Books(g) && Held(g.active, id, n)
    ensures var reserved := AccountOf(g.accounts, id).reserved;
            n in reserved && reserved[n].amount == g.active[n].p.auth.value
  {
    hide AccountOf;
    assert Reserved(g.accounts, id, n);
  }

  lemma {:induction false} LinkArrive(g: State, cfg: Config, p: Payment, m: Mandate, t: Bounds.Tracked)
    requires Linked(g, m, t) && Enabled(g, Arrive(p)) && SameTerms(p, m)
    ensures Linked(ArriveStep(g, cfg, p), m, t)
  {
    hide AllLawful, WaivedOk, AccountOf, VerifyPayment;
    var ph := Verified(p, VerifyPayment(cfg, g.token, p, UnixSeconds(g.now)));
    LawfulPut(g.active, m, p.auth.nonce, ph);
    WaivedPut(g.active, m, t.waived, t.waived, p.auth.nonce, ph);
  }

  lemma {:induction false} LinkDeliver(g: State, cfg: Config, n: Nonce, delivered: bool, refundTx: TxHash,
      refund: Reply, written: bool, m: Mandate, t: Bounds.Tracked)
    requires Linked(g, m, t) && n in g.active && g.active[n].Delivering?
    ensures Linked(DeliverStep(g, cfg, n, delivered, refundTx, refund, written), m, t)
  {
    hide AllLawful, WaivedOk, AccountOf, AppendEntry, RefundOutcome;
    LawfulPut(g.active, m, n, g.active[n]);
    WaivedPut(g.active, m, t.waived, t.waived, n, g.active[n]);
  }

  lemma {:induction false} LinkResume(g: State, cfg: Config, p: Payment, middle: seq<Decision>, m: Mandate,
      t: Bounds.Tracked)
    requires Linked(g, m, t) && Enabled(g, Resume(p, middle))
    ensures Linked(ResumeStep(g, cfg, p, middle), m, t)
  {
    hide AllLawful, WaivedOk, AccountOf, ChainDecide;
    var df := g.inflight[p.auth.nonce];
    LinkAfter(g.active, m, t.waived, p.auth.nonce, Delivering(df.p, df.record));
  }

  lemma {:induction false} LinkKept(g: State, cfg: Config, step: Step, m: Mandate, t: Bounds.Tracked)
    requires Books(g) && Linked(g, m, t) && Enabled(g, step) && Regular(step, m)
    ensures var t' := Tracked(t, m, g.now, OpOf(g, cfg, step, m));
            Linked(Next(g, cfg, step), m, t') && t'.history == t.history + SettledBy(g, step, m)
  {
    hide ArriveStep, DecideStep, SubmitStep, JournalStep, CommitStep, ListStep, StampStep, DeliverStep, ResumeStep,
         AppendEntry;
    hide Token.StateAfter, AllLawful, WaivedOk, AccountOf, Exact, NoMiddleDefer, Reaches, OnChain;
    assert step.DecideOn? ==> NoMiddleDefer(step.middle);
    ConcatEmpty(t.history);
    match step
    case Arrive(p) => LinkArrive(g, cfg, p, m, t);
    case DecideOn(n, middle, written) => LinkDecide(g, cfg, n, middle, written, m, t);
    case Submit(n, tx, included, reported, block) => LinkSubmit(g, cfg, n, tx, included, reported, block, m, t);
    case Journal(n, written) => LinkJournal(g, cfg, n, written, m, t);
    case CommitIt(n) => LinkCommit(g, cfg, n, m, t);
    case ListIt(n) => LinkList(g, n, m, t);
    case StampIt(n, written, receiptKnown) => LinkStamp(g, n, written, receiptKnown, m, t);
    case Deliver(n, delivered, refundTx, refund, written) =>
      LinkDeliver(g, cfg, n, delivered, refundTx, refund, written, m, t);
    case Resume(p, middle) => LinkResume(g, cfg, p, middle, m, t);
    case RevokeIt(_, _, _) =>
    case Outside(_) =>
    case Tick(_, _) =>
  }

  /** The gateway's account of a mandate is what the accounting of its trace says, and the commits
      of that accounting are the settled payments. */
  lemma {:induction false} RunLinked(token: Token.TokenState, head: nat, now: int, cfg: Config, steps: seq<Step>,
      m: Mandate)
    requires ValidRun(Started(token, head, now), cfg, steps) && AllRegular(steps, m)
    ensures var g0 := Started(token, head, now);
            var t := Bounds.Run(m, Trace(g0, cfg, steps, m));
            && Linked(After(g0, cfg, steps), m, t)
            && t.acct == AccountOf(After(g0, cfg, steps).accounts, m.id)
            && t.history == SettledUnder(g0, cfg, steps, m)
  {
    hide Next, OpOf, SettledBy, AllLawful, WaivedOk, Bounds.Step;
    var g0 := Started(token, head, now);
    if steps == [] {
      StartLinked(token, head, now, m);
    } else {
      var before := Init(steps);
      RegularInit(steps, m);
      RunLinked(token, head, now, cfg, before, m);
      RunBooks(token, head, now, cfg, before);
      var g := After(g0, cfg, before);
      var trace := Trace(g0, cfg, before, m);
      LinkKept(g, cfg, Last(steps), m, Bounds.Run(m, trace));
      match OpOf(g, cfg, Last(steps), m)
      case Some(op) => RunSnoc(m, trace, Bounds.Event(g.now, op));
      case None => ConcatEmpty(trace);
    }
  }

  lemma {:induction false} StartLinked(token: Token.TokenState, head: nat, now: int, m: Mandate)
    ensures Linked(Started(token, head, now), m, Bounds.Start)
  {}

  lemma {:induction false} RunSnoc(m: Mandate, events: seq<Bounds.Event>, e: Bounds.Event)
    ensures Bounds.Run(m, events + [e]) == Bounds.Step(Bounds.Run(m, events), m, e)
  {
    hide Bounds.Step;
    InitOfSnoc(events, e);
  }

  ghost predicate ClockedUpTo(events: seq<Bounds.Event>, now: int) {
    Bounds.Clocked(events) && forall e :: e in events ==> e.now <= now
  }

  lemma {:induction false} ClockedSnoc(events: seq<Bounds.Event>, e: Bounds.Event)
    requires ClockedUpTo(events, e.now)
    ensures ClockedUpTo(events + [e], e.now)
  {
    forall i, j | 0 <= i < j < |events + [e]|
      ensures (events + [e])[i].now <= (events + [e])[j].now
    {
      assert events[i] in events;
    }
  }

  lemma {:induction false} DeliverKeepsNow(g: State, cfg: Config, n: Nonce, delivered: bool, refundTx: TxHash,
      refund: Reply, written: bool)
    requires n in g.active && g.active[n].Delivering?
    ensures DeliverStep(g, cfg, n, delivered, refundTx, refund, written).now == g.now
  {
    hide AppendEntry, RefundOutcome;
  }

  lemma {:induction false} DecideKeepsNow(g: State, cfg: Config, n: Nonce, middle: seq<Decision>, written: bool)
    requires n in g.active && g.active[n].Verified?
    ensures DecideStep(g, cfg, n, middle, written).now == g.now
  {
    hide ChainDecide, HeldBy, AppendEntry;
  }

  lemma {:induction false} NowKept(g: State, cfg: Config, step: Step)
    requires Enabled(g, step)
    ensures g.now <= Next(g, cfg, step).now
  {
    hide DecideStep, DeliverStep, ChainDecide, AppendEntry, OnChain, Notified, VerifyPayment, Token.StateAfter;
    match step
    case DecideOn(n, middle, written) => DecideKeepsNow(g, cfg, n, middle, written);
    case Deliver(n, delivered, refundTx, refund, written) =>
      DeliverKeepsNow(g, cfg, n, delivered, refundTx, refund, written);
    case _ =>
  }

  lemma {:induction false} TraceClocked(token: Token.TokenState, head: nat, now: int, cfg: Config, steps: seq<Step>,
      m: Mandate)
    requires ValidRun(Started(token, head, now), cfg, steps)
    ensures var g0 := Started(token, head, now); ClockedUpTo(Trace(g0, cfg, steps, m), After(g0, cfg, steps).now)
  {
    hide Next, OpOf;
    var g0 := Started(token, head, now);
    if steps != [] {
      var before := Init(steps);
      TraceClocked(token, head, now, cfg, before, m);
      var g := After(g0, cfg, before);
      var trace := Trace(g0, cfg, before, m);
      NowKept(g, cfg, Last(steps));
      match OpOf(g, cfg, Last(steps), m)
      case Some(op) => ClockedSnoc(trace, Bounds.Event(g.now, op));
      case None => ConcatEmpty(trace);
    }
  }

  /** Over a whole run of the gateway, for every interleaving of requests: the payments settled
      under a mandate without the delegator's confirmation, in any closed interval no longer than
      its budget window, total at most its budget. */
  lemma {:induction false} SettledWithinBudget(token: Token.TokenState, head: nat, now: int, cfg: Config,
      steps: seq<Step>, m: Mandate, lo: int, hi: int)
    requires ValidRun(Started(token, head, now), cfg, steps) && AllRegular(steps, m)
    requires m.budgetAmount > 0 && hi - lo <= WindowDur(m.budgetWindowSeconds)
    ensures Bounds.Between(SettledUnder(Started(token, head, now), cfg, steps, m), lo, hi, false) <= m.budgetAmount
  {
    hide WindowDur, Trace, Bounds.Run, SettledUnder, After, ValidRun, AllRegular;
    RunLinked(token, head, now, cfg, steps, m);
    TraceClocked(token, head, now, cfg, steps, m);
    Bounds.BudgetHolds(m, Trace(Started(token, head, now), cfg, steps, m), lo, hi);
  }

  /** And all of them, confirmed or not, number at most its rate cap. */
  lemma {:induction false} SettledWithinRate(token: Token.TokenState, head: nat, now: int, cfg: Config,
      steps: seq<Step>, m: Mandate, lo: int, hi: int)
    requires ValidRun(Started(token, head, now), cfg, steps) && AllRegular(steps, m)
    requires m.maxPaymentsPerWindow > 0 && hi - lo <= WindowDur(m.rateWindowSeconds)
    ensures Bounds.CountBetween(SettledUnder(Started(token, head, now), cfg, steps, m), lo, hi) <=
              m.maxPaymentsPerWindow
  {
    hide WindowDur, Trace, Bounds.Run, SettledUnder, After, ValidRun, AllRegular;
    RunLinked(token, head, now, cfg, steps, m);
    TraceClocked(token, head, now, cfg, steps, m);
    Bounds.RateHolds(m, Trace(Started(token, head, now), cfg, steps, m), lo, hi);
  }
}
