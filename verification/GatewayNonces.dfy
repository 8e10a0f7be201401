/** Settled lines are keyed by the nonce alone, and a nonce belongs to a payer: when two payers use one
    nonce, the second settled line is taken for a repetition, and a restart misses its spend. */
module GatewayNonces {
  import opened Common
  import opened MandateAccounts
  import opened Policy
  import opened Gateway
  import opened GatewaySafety
  import opened GatewayPlaces
  import opened GatewayRestart
  import opened GatewayMirror
  import opened GatewayRuns
  import Token = Stablecoin

  /** The nonces whose settled lines the run has written. */
  function StampedNonces(steps: seq<Step>): set<Nonce> {
    if steps == [] then {}
    else StampedNonces(Init(steps)) + if Last(steps).StampIt? && Last(steps).written then {Last(steps).nonce} else {}
  }

  lemma {:induction false} SettledLineByStep(g: State, cfg: Config, step: Step, n: Nonce)
    requires Enabled(g, step) && ActiveOk(g.landed, g.active)
    ensures HasId(Next(g, cfg, step).journal, OfDecision(n, true)) <==>
              HasId(g.journal, OfDecision(n, true)) || (step.StampIt? && step.written && step.nonce == n)
  {
    assert step.StampIt? ==> PhaseOk(g.landed, step.nonce, g.active[step.nonce]);
    hide Next, HasId, AppendEntry, ActiveOk, RefundOutcome;
    StepAppends(g, cfg, step);
    match LineOf(g, cfg, step)
    case None =>
    case Some(line) => HasIdAppend(g.journal, line.0, line.1, OfDecision(n, true));
  }

  lemma {:induction false} SettledLines(token: Token.TokenState, head: nat, now: int, cfg: Config, steps: seq<Step>,
      n: Nonce)
    requires ValidRun(Started(token, head, now), cfg, steps)
    ensures HasId(After(Started(token, head, now), cfg, steps).journal, OfDecision(n, true)) <==>
              n in StampedNonces(steps)
  {
    hide Next;
    if steps != [] {
      hide HasId;
      SettledLines(token, head, now, cfg, Init(steps), n);
      RunPlaced(token, head, now, cfg, Init(steps));
      SettledLineByStep(After(Started(token, head, now), cfg, Init(steps)), cfg, Last(steps), n);
    }
  }

  /** Every settled line of the mandate is written, and is the first one under its nonce, whoever paid. */
  ghost predicate FirstOfTheirNonce(g0: State, cfg: Config, steps: seq<Step>, m: Mandate)
    requires ValidRun(g0, cfg, steps)
  {
    steps != [] ==>
      && FirstOfTheirNonce(g0, cfg, Init(steps), m)
      && (Stamps(After(g0, cfg, Init(steps)), Last(steps), m) ==>
            Last(steps).written && Last(steps).nonce !in StampedNonces(Init(steps)))
  }

  /** A mandate loses no settled line exactly when each one is written and none repeats a nonce. */
  lemma {:induction false} NothingLostIff(token: Token.TokenState, head: nat, now: int, cfg: Config, steps: seq<Step>,
      m: Mandate)
    requires ValidRun(Started(token, head, now), cfg, steps)
    ensures var g0 := Started(token, head, now);
            LostUnder(g0, cfg, steps, m) == [] <==> FirstOfTheirNonce(g0, cfg, steps, m)
  {
    hide Next;
    if steps != [] {
      var g0 := Started(token, head, now);
      NothingLostIff(token, head, now, cfg, Init(steps), m);
      var g := After(g0, cfg, Init(steps));
      RunPlaced(token, head, now, cfg, Init(steps));
      if Stamps(g, Last(steps), m) {
        assert PhaseOk(g.landed, Last(steps).nonce, g.active[Last(steps).nonce]);
        SettledLines(token, head, now, cfg, Init(steps), Last(steps).nonce);
      }
    }
  }

  // ---- A run ----

  const Till: Config := Config(2, 1, 0, Settings(false, 0), false, false, 9)

  const Purses: Token.TokenState :=
    Token.TokenState(Token.Controls(9, false, {}, false, {}, 0), 20, map[1 := 10, 3 := 10], map[], {})

  const Opening: State := Started(Purses, 100, 100 * SECOND)

  /** The mandate of an agent, without limits. */
  function Terms(agent: Address): Mandate { Mandate(70 + agent, 8, agent, 0, [], [], 0, 1000, 0, 0, 0, 0) }

  function Paying(agent: Address): Payment {
    Payment(Token.Authorization(agent, 2, 5, 0, 1000, 5), agent, true, true, Some(Terms(agent)), true, false, "")
  }

  const First: Trip := Trip(Paying(1), Terms(1), 11, 101, true)
  const Second: Trip := Trip(Paying(3), Terms(3), 12, 102, true)

  const Pass: Step := Step.Deliver(5, true, 13, NotIncluded, true)

  /** Agents 1 and 3 pay five each, under the same nonce. */
  function BothPay(): seq<Step> { StepsOf(First) + [Pass] + StepsOf(Second) + [Pass] }

  lemma {:induction false} Unlimited(m: Mandate, acct: Account)
    requires m.budgetAmount == 0 && m.maxPaymentsPerWindow == 0
    ensures VerdictOf(acct, m, 5, 100 * SECOND, false) == Fits
  {}

  /** The request is over, and its payment served. */
  lemma {:induction false} Passes(g: State, r: Record, p: Payment)
    requires 5 in g.active && g.active[5] == Delivering(p, r) && 13 !in g.txs
    ensures Enabled(g, Pass)
    ensures Next(g, Till, Pass) ==
              g.(active := g.active - {5}, served := g.served + [Served(r, 5)], fates := g.fates[r.tx := Delivered])
  {
    hide DeliverStep;
    DeliverAsUpdate(g, Till, 5, true, 13, NotIncluded, true);
  }

  /** What the chain knows after both. */
  lemma {:induction false} FirstLands(g: State)
    requires g.token == Purses && g.now == 100 * SECOND
    ensures VerifyPayment(Till, g.token, Paying(1), 100) && OnChain(g, Till, Paying(1)).Done?
    ensures OnChain(g, Till, Paying(1)).state ==
              Token.TokenState(Purses.controls, 20, map[1 := 5, 3 := 10, 2 := 5], map[], {(1, 5)})
  {}

  lemma {:induction false} SecondLands(g: State)
    requires g.token == Token.TokenState(Purses.controls, 20, map[1 := 5, 3 := 10, 2 := 5], map[], {(1, 5)})
    requires g.now == 100 * SECOND
    ensures VerifyPayment(Till, g.token, Paying(3), 100) && OnChain(g, Till, Paying(3)).Done?
  {}

  /** The accounts and the journal of one payment of five. */
  lemma {:induction false} OneCounted(accounts: Accounts, m: Mandate)
    requires m.budgetAmount == 0 && m.maxPaymentsPerWindow == 0 && m.budgetWindowSeconds == 0
    requires m.rateWindowSeconds == 0
    requires AccountOf(accounts, m.id) == NewAccount
    ensures var after := Commit(Reserve(accounts, m, 5, 5, 100 * SECOND, false), m, 5, 100 * SECOND);
            after == accounts[m.id := Account([Spend(100 * SECOND, 5)], map[])]
  {
    Unlimited(m, NewAccount);
    var s := Spend(100 * SECOND, 5);
    assert MaxWindow(m) == ALL_TIME;
    OneIsKept(s, s.at - ALL_TIME);
    hide VerdictOf, MaxWindow, Pruned;
    assert map[5 := s] - {5} == map[];
    assert [] + [s] == [s];
    var held := accounts[m.id := Account([], map[5 := s])];
    assert Reserve(accounts, m, 5, 5, s.at, false) == held;
    assert CommitIn(held[m.id], m, 5, s.at) == Account([s], map[]);
  }

  lemma {:induction false} OneIsKept(s: Spend, cutoff: int)
    requires cutoff <= s.at
    ensures Pruned([s], cutoff) == [s]
  {
    assert Init([s]) == [];
    assert [] + [s] == [s];
  }

  function LinesOf(t: Trip): seq<Entry> {
    [DecisionEntry(t.p, 100 * SECOND, false), SettlementEntry(Settlement(Opening, t)),
     DecisionEntry(t.p, 100 * SECOND, true)]
  }

  lemma {:induction false} FirstLines()
    ensures AppendEntry(AppendEntry(AppendEntry([], LinesOf(First)[0], true), LinesOf(First)[1], true),
                        LinesOf(First)[2], true) == LinesOf(First)
  {
    var a, b, c := LinesOf(First)[0], LinesOf(First)[1], LinesOf(First)[2];
    assert AppendEntry([], a, true) == [a];
    assert AppendEntry([a], b, true) == [a, b];
    assert AppendEntry([a, b], c, true) == [a, b, c];
  }

  /** Of the second payment only the settlement line is new. */
  lemma {:induction false} SecondLines()
    ensures AppendEntry(AppendEntry(AppendEntry(LinesOf(First), LinesOf(Second)[0], true), LinesOf(Second)[1], true),
                        LinesOf(Second)[2], true)
         == LinesOf(First) + [LinesOf(Second)[1]]
  {
    var j := LinesOf(First);
    var a, b, c := LinesOf(Second)[0], LinesOf(Second)[1], LinesOf(Second)[2];
    assert j[0].id == a.id && j[2].id == c.id;
    assert AppendEntry(j, a, true) == j;
    assert AppendEntry(j, b, true) == j + [b];
    assert (j + [b])[2].id == c.id;
  }

  lemma {:induction false} SecondIsMissing()
    ensures RestoredSpends(LinesOf(First) + [LinesOf(Second)[1]], Terms(3).id) == []
  {
    var a, b, c, d := LinesOf(First)[0], LinesOf(First)[1], LinesOf(First)[2], LinesOf(Second)[1];
    var id := Terms(3).id;
    assert SpendIn(a, id) == SpendIn(b, id) == SpendIn(c, id) == SpendIn(d, id) == [];
    assert LinesOf(First) == [] + [a] + [b] + [c];
    hide LinesOf, SpendIn;
    assert RestoredSpends([], id) == [];
    OneMoreLine([], a, id);
    OneMoreLine([] + [a], b, id);
    OneMoreLine([] + [a] + [b], c, id);
    OneMoreLine([] + [a] + [b] + [c], d, id);
  }

  lemma {:induction false} OneMoreLine(journal: seq<Entry>, e: Entry, id: MandateId)
    ensures RestoredSpends(journal + [e], id) == RestoredSpends(journal, id) + SpendIn(e, id)
  {
    hide SpendIn;
    InitOfSnoc(journal, e);
  }

  /** After the first payment. */
  ghost predicate OnePaid(g: State) {
    && g.active == map[] && g.inflight == map[] && g.txs == {11} && g.head == 101 && g.now == 100 * SECOND
    && g.revoked == {}
    && g.token == Token.TokenState(Purses.controls, 20, map[1 := 5, 3 := 10, 2 := 5], map[], {(1, 5)})
    && g.accounts == map[71 := Account([Spend(100 * SECOND, 5)], map[])]
    && g.journal == LinesOf(First) && |g.served| == 1
  }

  lemma {:induction false} FirstReady()
    ensures Ready(Opening, Till, First)
  {
    Unlimited(Terms(1), NewAccount);
    FirstLands(Opening);
    hide VerdictOf, OnChain, VerifyPayment;
  }

  lemma {:induction false} FirstLeaves()
    requires OnChain(Opening, Till, First.p).Done?
    ensures var g := AfterTrip(Opening, Till, First);
            && g.active == map[5 := Delivering(Paying(1), Settlement(Opening, First))] && g.txs == {11}
            && g.served == []
            && OnePaid(g.(active := g.active - {5}, served := g.served + [Served(Settlement(Opening, First), 5)]))
  {
    FirstLands(Opening);
    OneCounted(map[], Terms(1));
    FirstLines();
    hide AppendEntry, OnChain, Reserve, Commit;
    assert AfterTrip(Opening, Till, First).active == map[5 := Delivering(Paying(1), Settlement(Opening, First))];
    assert AfterTrip(Opening, Till, First).active - {5} == map[];
  }

  lemma {:induction false} FirstRun() returns (g: State)
    ensures Reaches(Opening, Till, StepsOf(First) + [Pass], g) && OnePaid(g)
  {
    FirstReady();
    FirstLands(Opening);
    FirstLeaves();
    hide Reaches, Ready, StepsOf, OnChain, OnePaid, AfterTrip, Next, Enabled, Settlement;
    ReachesStart(Opening, Till);
    TripRun(Opening, Till, [], Opening, First);
    ConcatEmpty(StepsOf(First));
    var g0 := AfterTrip(Opening, Till, First);
    Passes(g0, Settlement(Opening, First), Paying(1));
    OneMore(Opening, Till, StepsOf(First), g0, Pass);
    g := Next(g0, Till, Pass);
    FatesAside(g0.(active := g0.active - {5}, served := g0.served + [Served(Settlement(Opening, First), 5)]), g);
  }

  /** Being paid says nothing of outcomes. */
  lemma {:induction false} FatesAside(g: State, g': State)
    requires OnePaid(g) && g' == g.(fates := g'.fates)
    ensures OnePaid(g')
  {}

  lemma {:induction false} SecondReady(g: State)
    requires OnePaid(g)
    ensures Ready(g, Till, Second) && OnChain(g, Till, Paying(3)).Done?
  {
    Unlimited(Terms(3), NewAccount);
    SecondLands(g);
    hide VerdictOf, OnChain, VerifyPayment;
  }

  lemma {:induction false} SecondLeaves(g: State)
    requires OnePaid(g) && OnChain(g, Till, Paying(3)).Done?
    ensures var g' := AfterTrip(g, Till, Second);
            && g'.active == map[5 := Delivering(Paying(3), Settlement(g, Second))] && g'.txs == {11, 12}
            && g'.served == g.served
            && AccountOf(g'.accounts, 73) == Account([Spend(100 * SECOND, 5)], map[])
            && g'.journal == LinesOf(First) + [LinesOf(Second)[1]]
  {
    OneCounted(g.accounts, Terms(3));
    SecondLines();
    hide AppendEntry, OnChain, Reserve, Commit;
  }

  /** Both payments settle and are served, and both count in the accounts; after a restart the second one
      does not. */
  lemma {:induction false} SecondPayerIsForgotten()
    ensures ValidRun(Opening, Till, BothPay())
    ensures var g := After(Opening, Till, BothPay());
            && |g.served| == 2
            && AccountOf(g.accounts, Terms(3).id).spends == [Spend(100 * SECOND, 5)]
            && AccountOf(Restarted(g).accounts, Terms(3).id).spends == []
  {
    var g1 := FirstRun();
    SecondReady(g1);
    SecondLeaves(g1);
    SecondIsMissing();
    hide Ready, StepsOf, OnChain, Next, Enabled, AfterTrip, OnePaid, LinesOf, RestoredSpends, RestoredAccounts,
         RestoredRevoked, RestoredSettlements, ValidRun, After;
    var s := StepsOf(First) + [Pass];
    TripRun(Opening, Till, s, g1, Second);
    var g2 := AfterTrip(g1, Till, Second);
    Passes(g2, Settlement(g1, Second), Paying(3));
    OneMore(Opening, Till, s + StepsOf(Second), g2, Pass);
    var g := Next(g2, Till, Pass);
    RestoredAccount(map[], g.journal, 73);
    ConcatEmpty(RestoredSpends(g.journal, 73));
  }
}
