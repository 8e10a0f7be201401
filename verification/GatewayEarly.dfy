/** Runs of one payment at or above DeferAbove: two in which it is served with nothing on top of its block,
    and one that a restart cuts off before it is served at all. */
module GatewayEarly {
  import opened Common
  import opened MandateAccounts
  import opened Policy
  import opened Gateway
  import opened GatewaySafety
  import opened GatewayService
  import opened GatewayRuns
  import GatewayLives
  import Token = Stablecoin

  /** Ten and more wait for five confirmations. */
  const Till: Config := Config(2, 1, 5, Settings(false, 10), false, false, 3)

  const Terms: Mandate := Mandate(7, 8, 1, 0, [], [], 0, 1000, 0, 0, 0, 0)

  const Purse: Token.TokenState :=
    Token.TokenState(Token.Controls(9, false, {}, false, {}, 0), 20, map[1 := 20], map[], {})

  const Opening: State := Started(Purse, 100, 100 * SECOND)

  function Paying(amount: Token.Word): Payment {
    Payment(Token.Authorization(1, 2, amount, 0, 1000, 5), 1, true, true, Some(Terms), true, false, "")
  }

  /** Ten, settled in block 101. */
  function Ten(receiptKnown: bool): Trip { Trip(Paying(10), Terms, 11, 101, receiptKnown) }

  const Settled: Record := Record(1, 10, 11, 100 * SECOND)

  /** Settle ten, and retry for an amount. */
  function Retry(receiptKnown: bool, amount: Token.Word): seq<Step> {
    StepsOf(Ten(receiptKnown)) + [Resume(Paying(amount), [])]
  }

  function HandOver(receiptKnown: bool, amount: Token.Word): seq<Step> {
    Retry(receiptKnown, amount) + [Step.Deliver(5, true, 12, NotIncluded, true)]
  }

  lemma {:induction false} NothingLimits(amount: nat)
    ensures VerdictOf(NewAccount, Terms, amount, 100 * SECOND, false) == Fits
  {}

  lemma {:induction false} TenIsReady(receiptKnown: bool)
    ensures Ready(Opening, Till, Ten(receiptKnown))
  {
    NothingLimits(10);
    hide VerdictOf;
  }

  /** Settled and kept in flight. */
  ghost predicate Waits(g: State, receiptKnown: bool) {
    && g.active == map[] && g.served == [] && g.fates == map[] && g.head == 101 && g.now == 100 * SECOND && 12 !in g.txs
    && g.revoked == {}
    && g.inflight == map[5 := Deferred(Paying(10), Settled, BlockShown(101, receiptKnown))]
  }

  lemma {:induction false} TenLeaves(receiptKnown: bool)
    requires OnChain(Opening, Till, Ten(receiptKnown).p).Done?
    ensures var g := AfterTrip(Opening, Till, Ten(receiptKnown));
            Waits(g, receiptKnown) && g.settlements == [Settled] && g.landed == map[11 := (1, 5)] && g.txs == {11}
  {
    hide OnChain, AppendEntry, DecisionEntry, SettlementEntry, Reserve, Commit, BlockShown;
    assert [] + [Settled] == [Settled];
  }

  lemma {:induction false} TenWaits(receiptKnown: bool) returns (g: State)
    ensures Reaches(Opening, Till, StepsOf(Ten(receiptKnown)), g) && Waits(g, receiptKnown)
    ensures g.settlements == [Settled] && g.landed == map[11 := (1, 5)] && g.txs == {11}
  {
    TenIsReady(receiptKnown);
    hide Reaches, Ready, OnChain, AfterTrip, StepsOf, Waits, Next;
    ReadyLands(Opening, Till, Ten(receiptKnown));
    ReachesStart(Opening, Till);
    TripRun(Opening, Till, [], Opening, Ten(receiptKnown));
    ConcatEmpty(StepsOf(Ten(receiptKnown)));
    g := AfterTrip(Opening, Till, Ten(receiptKnown));
    TenLeaves(receiptKnown);
  }

  lemma {:induction false} ReadyLands(g: State, cfg: Config, t: Trip)
    requires Ready(g, cfg, t)
    ensures OnChain(g, cfg, t.p).Done?
  {}

  /** The policies approve a retry for nine, and one for ten only when confirmed. */
  lemma {:induction false} RetryApprovedIff(g: State, amount: Token.Word, stage: Stage)
    requires g.revoked == {} && g.now == 100 * SECOND && stage != PreSettlement
    ensures ChainDecide(g, Till, Retried(Paying(amount), 1), true, [], stage).0.action == Approve <==>
              amount < 10 || stage == Confirmed
  {
    assert [AlwaysVerify(true)][1..] == [];
    assert [AlwaysVerify(true)] + [] == [AlwaysVerify(true)];
  }

  /** Served at once, or still waiting, from the receipt and from the amount of the retry. */
  lemma {:induction false} RetryRun(receiptKnown: bool, amount: Token.Word) returns (g: State)
    ensures Reaches(Opening, Till, Retry(receiptKnown, amount), g)
    ensures if amount < 10 || !receiptKnown
            then g.active == map[5 := Delivering(Paying(10), Settled)] && g.served == [] && g.head == 101
              && 12 !in g.txs
            else Waits(g, receiptKnown)
  {
    hide Reaches, ChainDecide, Next;
    var g0 := TenWaits(receiptKnown);
    var step := Resume(Paying(amount), []);
    NextIsResume(g0, Till, Paying(amount), []);
    ResumeFields(g0, Till, Paying(amount), []);
    RetryApprovedIff(g0, amount, if receiptKnown then Submitted else Confirmed);
    OneMore(Opening, Till, StepsOf(Ten(receiptKnown)), g0, step);
    g := Next(g0, Till, step);
    ResumeFates(g0, Till, Paying(amount), []);
  }

  lemma {:induction false} ResumeFates(g: State, cfg: Config, p: Payment, middle: seq<Decision>)
    requires Enabled(g, Resume(p, middle))
    ensures ResumeStep(g, cfg, p, middle).fates == g.fates
  {
    hide ChainDecide;
  }

  lemma {:induction false} ServedRun(receiptKnown: bool, amount: Token.Word)
    requires amount < 10 || !receiptKnown
    ensures ValidRun(Opening, Till, HandOver(receiptKnown, amount))
    ensures var g := After(Opening, Till, HandOver(receiptKnown, amount));
            g.served == [Served(Settled, 5)] && g.head == 101
  {
    hide DeliverStep;
    var g := RetryRun(receiptKnown, amount);
    DeliverAsUpdate(g, Till, 5, true, 12, NotIncluded, true);
    OneMore(Opening, Till, Retry(receiptKnown, amount), g, Step.Deliver(5, true, 12, NotIncluded, true));
  }

  /** With its receipt at hand, a payment of ten that landed in block 101 is served at head 101 after a
      retry that names nine, and not after one that names ten. */
  lemma {:induction false} SmallerRetryServes()
    ensures ValidRun(Opening, Till, HandOver(true, 9))
    ensures var g := After(Opening, Till, HandOver(true, 9));
            && g.served == [Served(Settled, 5)] && g.head == 101 < 101 + Till.confirmDepth
            && Large(Till, Settled.amount)
    ensures ValidRun(Opening, Till, Retry(true, 10)) && 5 in After(Opening, Till, Retry(true, 10)).inflight
  {
    ServedRun(true, 9);
    var g := RetryRun(true, 10);
  }

  /** Without its receipt it is served there after a retry for ten as well. */
  lemma {:induction false} MissingReceiptServes()
    ensures ValidRun(Opening, Till, HandOver(false, 10))
    ensures var g := After(Opening, Till, HandOver(false, 10));
            && g.served == [Served(Settled, 5)] && g.head == 101 < 101 + Till.confirmDepth
            && Large(Till, Settled.amount)
  {
    ServedRun(false, 10);
  }

  /** If the gateway stops while the ten are deferred, they are settled and listed by every restart, and
      never served, refunded or noted as owed; the payer's retry does not even verify. */
  lemma {:induction false} TenIsStranded(lives: seq<seq<Step>>, later: seq<Step>)
    requires ValidRun(Opening, Till, StepsOf(Ten(true)))
    requires GatewayLives.ValidLives(Restarted(After(Opening, Till, StepsOf(Ten(true)))), Till, lives)
    requires ValidRun(GatewayLives.Woken(Restarted(After(Opening, Till, StepsOf(Ten(true)))), Till, lives), Till, later)
    ensures var g := After(Opening, Till, StepsOf(Ten(true)));
            var g' := After(GatewayLives.Woken(Restarted(g), Till, lives), Till, later);
            && g.settlements == [Settled] && Settled.tx !in g'.fates
            && !VerifyPayment(Till, g'.token, Paying(10), UnixSeconds(g'.now))
  {
    var g := TenWaits(true);
    hide ValidRun, After, Restarted, StepsOf, GatewayLives.Woken, GatewayLives.ValidLives, VerifyPayment;
    GatewayLives.RestartStrandsDeferred(Purse, 100, 100 * SECOND, Till, StepsOf(Ten(true)), lives, later, 5,
                                        Paying(10));
  }

  /** There is such a stop. */
  lemma {:induction false} TenCanBeStranded()
    ensures ValidRun(Opening, Till, StepsOf(Ten(true)))
    ensures var w := Restarted(After(Opening, Till, StepsOf(Ten(true))));
            GatewayLives.ValidLives(w, Till, []) && ValidRun(GatewayLives.Woken(w, Till, []), Till, [])
  {
    var g := TenWaits(true);
  }
}
