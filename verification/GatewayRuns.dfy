/** Concrete runs of the gateway, for the places where it does less than it says: the course of one
    payment that is alone, and what runs made of such courses end in. */
module GatewayRuns {
  import opened Common
  import opened MandateAccounts
  import opened Policy
  import opened Gateway
  import opened GatewaySafety
  import opened GatewayProvenance
  import opened GatewayService
  import GatewayMandates
  import Token = Stablecoin

  ghost predicate Reaches(g0: State, cfg: Config, steps: seq<Step>, g: State) {
    ValidRun(g0, cfg, steps) && After(g0, cfg, steps) == g
  }

  lemma {:induction false} ReachesStart(g0: State, cfg: Config)
    ensures Reaches(g0, cfg, [], g0)
  {}

  lemma {:induction false} OneMore(g0: State, cfg: Config, steps: seq<Step>, g: State, step: Step)
    requires Reaches(g0, cfg, steps, g) && Enabled(g, step)
    ensures Reaches(g0, cfg, steps + [step], Next(g, cfg, step))
  {
    hide Next, Enabled;
    InitOfSnoc(steps, step);
  }

  // ---- The course of one payment ----

  /** A payment whose transaction is tx, included in a block; every journal line is written. */
  datatype Trip = Trip(p: Payment, m: Mandate, tx: TxHash, block: nat, receiptKnown: bool)

  function EnvOf(t: Trip): Env {
    Env([], true, t.tx, true, true, t.block, true, true, t.receiptKnown, true, 0, NotIncluded, true)
  }

  function Decided(t: Trip): seq<Step> { [] + [Arrive(t.p)] + [DecideOn(t.p.auth.nonce, [], true)] }

  function Submitted(t: Trip): Step { Step.Submit(t.p.auth.nonce, t.tx, true, true, t.block) }

  function Recorded(t: Trip): seq<Step> {
    var n := t.p.auth.nonce;
    [] + [Step.Journal(n, true)] + [CommitIt(n)] + [ListIt(n)] + [StampIt(n, true, t.receiptKnown)]
  }

  /** It arrives, is held by its mandate's policy, and settles. */
  ghost predicate Ready(g: State, cfg: Config, t: Trip) {
    var n := t.p.auth.nonce;
    && t.p.bound && t.p.mandate == Some(t.m)
    && n !in g.active && n !in g.inflight && t.tx !in g.txs && g.head < t.block
    && VerifyPayment(cfg, g.token, t.p, UnixSeconds(g.now))
    && Holds(cfg.settings, g.revoked, g.accounts, RequestOf(cfg, t.p), g.now)
    && OnChain(g, cfg, t.p).Done?
  }

  /** Held, and about to be submitted. */
  ghost function AfterDecision(g: State, cfg: Config, t: Trip): State {
    var p := t.p;
    g.(accounts := Reserve(g.accounts, t.m, p.auth.nonce, p.auth.value, g.now, p.confirmed),
       journal := AppendEntry(g.journal, DecisionEntry(p, g.now, false), true),
       active := g.active[p.auth.nonce := Settling(p, Large(cfg, p.auth.value), true)])
  }

  lemma {:induction false} DecidesToSettle(g: State, cfg: Config, t: Trip)
    requires Ready(g, cfg, t)
    ensures Enabled(g, Arrive(t.p))
    ensures var g1 := Next(g, cfg, Arrive(t.p));
            var step := DecideOn(t.p.auth.nonce, [], true);
            Enabled(g1, step) && Next(g1, cfg, step) == AfterDecision(g, cfg, t)
  {
    hide VerifyPayment, OnChain, Holds, Decide, Reserve, AppendEntry, DecisionEntry, DecideStep, Next;
    var p, n := t.p, t.p.auth.nonce;
    NextIsArrive(g, cfg, p);
    var g1 := ArriveStep(g, cfg, p);
    NextIsDecide(g1, cfg, n, EnvOf(t));
    DecideAsUpdate(g1, cfg, n, [], true);
    GatewayMandates.VerifiedFirst(true, []);
    SettlesIffHeld(cfg.settings, g.revoked, g.accounts, RequestOf(cfg, p), g.now);
    HeldIsDelivered(cfg.settings, g.revoked, g.accounts, RequestOf(cfg, p), g.now);
    assert g.active[n := Verified(p, true)][n := Settling(p, Large(cfg, p.auth.value), true)] ==
      g.active[n := Settling(p, Large(cfg, p.auth.value), true)];
  }

  lemma {:induction false} DecidedRun(g0: State, cfg: Config, steps: seq<Step>, g: State, t: Trip)
    requires Reaches(g0, cfg, steps, g) && Ready(g, cfg, t)
    ensures Reaches(g0, cfg, steps + Decided(t), AfterDecision(g, cfg, t))
  {
    DecidesToSettle(g, cfg, t);
    hide Next, Enabled, Ready, Reaches, AfterDecision;
    var a, b := Arrive(t.p), DecideOn(t.p.auth.nonce, [], true);
    OneMore(g0, cfg, steps, g, a);
    OneMore(g0, cfg, steps + [a], Next(g, cfg, a), b);
    ConcatAssoc(steps, [a], [b]);
    ConcatEmpty([a]);
  }

  ghost function AfterSubmission(g: State, cfg: Config, t: Trip): State
    requires OnChain(g, cfg, t.p).Done?
  {
    AfterDecision(g, cfg, t).(
      token := OnChain(g, cfg, t.p).state,
      landed := g.landed[t.tx := KeyOf(t.p)],
      txs := g.txs + {t.tx},
      head := t.block,
      active := g.active[t.p.auth.nonce := Mined(t.p, Large(cfg, t.p.auth.value), true, t.tx, t.block)])
  }

  lemma {:induction false} SubmitsAndLands(g: State, cfg: Config, t: Trip)
    requires Ready(g, cfg, t)
    ensures Enabled(AfterDecision(g, cfg, t), Submitted(t))
    ensures Next(AfterDecision(g, cfg, t), cfg, Submitted(t)) == AfterSubmission(g, cfg, t)
  {
    var d, n := AfterDecision(g, cfg, t), t.p.auth.nonce;
    assert OnChain(d, cfg, t.p) == OnChain(g, cfg, t.p);
    hide VerifyPayment, OnChain, Holds, Reserve, AppendEntry, DecisionEntry, Notified;
    var mined := Mined(t.p, Large(cfg, t.p.auth.value), true, t.tx, t.block);
    assert d.active[n := mined] == g.active[n := mined];
  }

  function Settlement(g: State, t: Trip): Record { Record(t.p.auth.from, t.p.auth.value, t.tx, g.now) }

  /** Settled, counted, listed and stamped; kept in flight, or about to be handed over. */
  ghost function AfterTrip(g: State, cfg: Config, t: Trip): State
    requires OnChain(g, cfg, t.p).Done?
  {
    var p, n, r := t.p, t.p.auth.nonce, Settlement(g, t);
    var held := AfterSubmission(g, cfg, t);
    held.(
      accounts := Commit(held.accounts, t.m, n, g.now),
      settlements := g.settlements + [r],
      journal := AppendEntry(AppendEntry(held.journal, SettlementEntry(r), true), DecisionEntry(p, g.now, true), true),
      active := if Large(cfg, p.auth.value) then g.active else g.active[n := Delivering(p, r)],
      inflight := if Large(cfg, p.auth.value)
                  then g.inflight[n := Deferred(p, r, BlockShown(t.block, t.receiptKnown))] else g.inflight)
  }

  /** From a transaction on: counted, listed and stamped, and kept in flight or about to be handed over. */
  ghost function AfterRecording(g: State, n: Nonce, receiptKnown: bool): State
    requires n in g.active && g.active[n].Mined?
  {
    var ph := g.active[n];
    var r := RecordFor(g, ph.p, ph.tx);
    var kept := Deferred(ph.p, r, BlockShown(ph.block, receiptKnown));
    var journaled := AppendEntry(g.journal, SettlementEntry(r), true);
    g.(accounts := Notified(g, ph.p, true),
       settlements := g.settlements + [r],
       journal := AppendEntry(journaled, DecisionEntry(ph.p, g.now, true), true),
       active := if ph.deferred then g.active - {n} else g.active[n := Delivering(ph.p, r)],
       inflight := if ph.deferred then g.inflight[n := kept] else g.inflight)
  }

  /** The steps of a request that is alone lead there. */
  lemma {:induction false} RecordsAll(g: State, cfg: Config, n: Nonce, receiptKnown: bool)
    requires n in g.active && g.active[n].Mined?
    ensures var a := Next(g, cfg, Step.Journal(n, true));
            && Enabled(g, Step.Journal(n, true))
            && Enabled(a, CommitIt(n))
            && var b := Next(a, cfg, CommitIt(n));
            && Enabled(b, ListIt(n))
            && var c := Next(b, cfg, ListIt(n));
            && Enabled(c, StampIt(n, true, receiptKnown))
            && Next(c, cfg, StampIt(n, true, receiptKnown)) == AfterRecording(g, n, receiptKnown)
  {
    hide Commit, MandateAccounts.Release, AppendEntry, DecisionEntry, JournalStep, CommitStep, ListStep, StampStep,
         Next, Enabled;
    var ph := g.active[n];
    var r := RecordFor(g, ph.p, ph.tx);
    JournalsIt(g, cfg, n);
    var a := JournalStep(g, n, true);
    NextIsCommit(a, cfg, n);
    var b := CommitStep(a, n);
    NextIsList(b, cfg, n);
    var c := ListStep(b, n);
    NextIsStamp(c, cfg, n, true, receiptKnown);
    OnlyOne(g.active, n, Journaled(ph.p, ph.deferred, ph.held, r, ph.block),
            Committed(ph.p, ph.deferred, r, ph.block, g.now),
            Listed(ph.p, ph.deferred, r, ph.block, g.now));
    PutTwice(g.active, n, Listed(ph.p, ph.deferred, r, ph.block, g.now), Delivering(ph.p, r));
  }

  lemma {:induction false} PutTwice(active: map<Nonce, Phase>, n: Nonce, a: Phase, b: Phase)
    ensures active[n := a][n := b] == active[n := b] && active[n := a] - {n} == active - {n}
  {}

  lemma {:induction false} JournalsIt(g: State, cfg: Config, n: Nonce)
    requires n in g.active && g.active[n].Mined?
    ensures Enabled(g, Step.Journal(n, true)) && Next(g, cfg, Step.Journal(n, true)) == JournalStep(g, n, true)
    ensures var ph := g.active[n];
            var r := RecordFor(g, ph.p, ph.tx);
            JournalStep(g, n, true) ==
              g.(journal := AppendEntry(g.journal, SettlementEntry(r), true),
                 active := g.active[n := Journaled(ph.p, ph.deferred, ph.held, r, ph.block)])
  {
    hide Notified, AppendEntry;
  }

  function StepsOf(t: Trip): seq<Step> { Decided(t) + [Submitted(t)] + Recorded(t) }

  lemma {:induction false} RecordedRun(g0: State, cfg: Config, steps: seq<Step>, g: State, t: Trip)
    requires Reaches(g0, cfg, steps, g)
    requires t.p.auth.nonce in g.active && g.active[t.p.auth.nonce].Mined?
    ensures Reaches(g0, cfg, steps + Recorded(t), AfterRecording(g, t.p.auth.nonce, t.receiptKnown))
  {
    var n := t.p.auth.nonce;
    RecordsAll(g, cfg, n, t.receiptKnown);
    hide Next, Enabled, Reaches, AfterRecording;
    var a := Next(g, cfg, Step.Journal(n, true));
    var b := Next(a, cfg, CommitIt(n));
    OneMore(g0, cfg, steps, g, Step.Journal(n, true));
    OneMore(g0, cfg, steps + [Step.Journal(n, true)], a, CommitIt(n));
    OneMore(g0, cfg, steps + [Step.Journal(n, true)] + [CommitIt(n)], b, ListIt(n));
    OneMore(g0, cfg, steps + [Step.Journal(n, true)] + [CommitIt(n)] + [ListIt(n)], Next(b, cfg, ListIt(n)),
            StampIt(n, true, t.receiptKnown));
    var x, y, z := [Step.Journal(n, true)], [CommitIt(n)], [ListIt(n)];
    ConcatEmpty(x);
    ConcatAssoc(steps, x, y);
    ConcatAssoc(steps, x + y, z);
    ConcatAssoc(steps, x + y + z, [StampIt(n, true, t.receiptKnown)]);
  }

  lemma {:induction false} TripEnds(g: State, cfg: Config, t: Trip)
    requires Ready(g, cfg, t)
    ensures OnChain(g, cfg, t.p).Done?
    ensures var m, n := AfterSubmission(g, cfg, t), t.p.auth.nonce;
            && n in m.active && m.active[n].Mined?
            && AfterTrip(g, cfg, t) == AfterRecording(m, n, t.receiptKnown)
  {
    hide VerifyPayment, OnChain, Holds, Reserve, Commit, AppendEntry, DecisionEntry;
    var n := t.p.auth.nonce;
    var mined := Mined(t.p, Large(cfg, t.p.auth.value), true, t.tx, t.block);
    OnlyOne(g.active, n, mined, mined, Delivering(t.p, Settlement(g, t)));
    assert g.active[n := mined] - {n} == g.active;
  }

  /** A payment that is held and lands, with no other request in between, is settled in seven steps, and
      then delivered or kept. */
  lemma {:induction false} TripRun(g0: State, cfg: Config, steps: seq<Step>, g: State, t: Trip)
    requires Reaches(g0, cfg, steps, g) && Ready(g, cfg, t)
    ensures Reaches(g0, cfg, steps + StepsOf(t), AfterTrip(g, cfg, t))
  {
    TripEnds(g, cfg, t);
    hide Next, Enabled, Reaches, Ready, AfterDecision, AfterSubmission, AfterTrip, AfterRecording, OnChain, Decided,
         Submitted, Recorded;
    SubmittedRun(g0, cfg, steps, g, t);
    RecordedRun(g0, cfg, steps + Decided(t) + [Submitted(t)], AfterSubmission(g, cfg, t), t);
    ConcatAssoc(steps, Decided(t), [Submitted(t)]);
    ConcatAssoc(steps, Decided(t) + [Submitted(t)], Recorded(t));
  }

  lemma {:induction false} SubmittedRun(g0: State, cfg: Config, steps: seq<Step>, g: State, t: Trip)
    requires Reaches(g0, cfg, steps, g) && Ready(g, cfg, t)
    ensures Reaches(g0, cfg, steps + Decided(t) + [Submitted(t)], AfterSubmission(g, cfg, t))
  {
    assert OnChain(g, cfg, t.p).Done?;
    hide Next, Enabled, Reaches, Ready, AfterDecision, AfterSubmission, OnChain, Decided, Submitted;
    DecidedRun(g0, cfg, steps, g, t);
    SubmitsAndLands(g, cfg, t);
    OneMore(g0, cfg, steps + Decided(t), AfterDecision(g, cfg, t), Submitted(t));
  }

  /** So a payment that is proper, licensed by its mandate and executable by the token, with nothing in
      flight under its nonce, is settled and listed, from any state a run has reached. */
  lemma {:induction false} GoodPaymentIsSettled(g0: State, cfg: Config, steps: seq<Step>, g: State, t: Trip)
    requires Reaches(g0, cfg, steps, g) && Token.Solid(g.token)
    requires Proper(g, cfg, t.p) && Licensed(g, cfg, t.p) && t.p.mandate == Some(t.m)
    requires Executable(g, cfg, t.p)
    requires t.p.auth.nonce !in g.active && t.p.auth.nonce !in g.inflight && t.tx !in g.txs && g.head < t.block
    ensures OnChain(g, cfg, t.p).Done?
    ensures Reaches(g0, cfg, steps + StepsOf(t), AfterTrip(g, cfg, t))
    ensures AfterTrip(g, cfg, t).settlements ==
              g.settlements + [Record(t.p.auth.from, t.p.auth.value, t.tx, g.now)]
  {
    ProperIsVerified(g, cfg, t.p);
    LicensedIsHeld(g, cfg, t.p);
    LandsOnlyIf(g, cfg, t.p);
    assert t.p.bound;
    hide VerifyPayment, Holds, OnChain, Proper, Licensed, Executable, Token.Solid, StepsOf, Reaches, AppendEntry;
    TripRun(g0, cfg, steps, g, t);
  }
}
