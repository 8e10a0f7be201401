/** A run of the gateway in which two payments swap places over a restart: the first is journaled first
    and listed second. */
module GatewaySwap {
  import opened Common
  import opened MandateAccounts
  import opened Policy
  import opened Gateway
  import opened GatewaySafety
  import opened GatewayMandates
  import opened GatewayMirror
  import Token = Stablecoin

  const Shop: Config := Config(2, 10, 0, Settings(false, 0), false, false, 3)

  const Coins: Token.TokenState :=
    Token.TokenState(Token.Controls(9, false, {}, false, {}, 0), 20, map[1 := 20], map[], {})

  /** A payment of ten from account 1 to account 2. */
  function Ten(nonce: Nonce): Payment {
    Payment(Token.Authorization(1, 2, 10, 0, 1000, nonce), 1, true, true, None, false, false, "")
  }

  const Opening: State := Started(Coins, 0, 100 * SECOND)

  const Held: seq<Decision> := [Decision(Defer, PaymentDeferred)]

  /** Both requests up to their transactions. */
  const Submissions: seq<Step> := [
    Arrive(Ten(5)), Arrive(Ten(6)), DecideOn(5, Held, true), DecideOn(6, Held, true),
    Submit(5, 11, true, true, 1), Submit(6, 12, true, true, 2)]

  /** Journaled 5 before 6, listed 6 before 5. */
  const Endings: seq<Step> := [
    Journal(5, true), Journal(6, true), CommitIt(5), CommitIt(6), ListIt(6), ListIt(5), StampIt(5, true, true),
      StampIt(6, true, true)]

  /** Where a run stands, as far as its next steps are concerned. */
  ghost predicate At(steps: seq<Step>, g: State, journaled: seq<Nonce>, listed: seq<Nonce>) {
    && ValidRun(Opening, Shop, steps) && After(Opening, Shop, steps) == g
    && JournalOrder(steps) == journaled && ListOrder(steps) == listed
  }

  lemma {:induction false} Extend(steps: seq<Step>, g: State, journaled: seq<Nonce>, listed: seq<Nonce>, step: Step)
    requires At(steps, g, journaled, listed) && Enabled(g, step)
    ensures At(steps + [step], Next(g, Shop, step),
               if step.Journal? && step.written then journaled + [step.nonce] else journaled,
               if step.ListIt? then listed + [step.nonce] else listed)
  {
    hide Next;
    InitOfSnoc(steps, step);
  }

  lemma {:induction false} DeferredDecision(g: State, n: Nonce)
    requires n in g.active && g.active[n] == Verified(Ten(n), true)
    ensures var g' := DecideStep(g, Shop, n, Held, true);
            g' == g.(journal := g'.journal, active := g.active[n := Settling(Ten(n), true, false)])
  {
    hide DecideStep, AppendEntry, Decide, Holds;
    DecideAsUpdate(g, Shop, n, Held, true);
    assert Held[1..] == [];
    VerifiedFirst(true, Held);
  }

  /** A payment of ten settles while account 1 has ten left. */
  lemma {:induction false} TenSettles(g: State, n: Nonce)
    requires g.token.controls == Coins.controls && g.token.BalanceOf(1) >= 10 && g.token.BalanceOf(2) <= 10
    requires (1, n) !in g.token.used && g.now == 100 * SECOND
    ensures OnChain(g, Shop, Ten(n)).Done?
    ensures var st := OnChain(g, Shop, Ten(n)).state;
            && st.controls == Coins.controls && st.used == g.token.used + {(1, n)}
            && st.BalanceOf(1) == g.token.BalanceOf(1) - 10 && st.BalanceOf(2) == g.token.BalanceOf(2) + 10
  {}

  lemma {:induction false} TenVerifies(g: State, n: Nonce)
    requires g.token == Coins && g.now == 100 * SECOND
    ensures VerifyPayment(Shop, g.token, Ten(n), UnixSeconds(g.now))
  {}

  lemma {:induction false} ArrivalsRun() returns (g: State)
    ensures At(Submissions[..4], g, [], [])
    ensures g.active == map[5 := Settling(Ten(5), true, false), 6 := Settling(Ten(6), true, false)]
    ensures g.token == Coins && g.now == 100 * SECOND && g.head == 0 && g.txs == {} && g.inflight == map[]
  {
    hide VerifyPayment, DecideStep, AppendEntry;
    var a, b, c, d := Submissions[0], Submissions[1], Submissions[2], Submissions[3];
    assert At([], Opening, [], []);
    Extend([], Opening, [], [], a);
    TenVerifies(Opening, 5);
    var g1 := Next(Opening, Shop, a);
    assert g1 == Opening.(active := map[5 := Verified(Ten(5), true)]);
    Extend([] + [a], g1, [], [], b);
    TenVerifies(g1, 6);
    var g2 := Next(g1, Shop, b);
    assert g2 == Opening.(active := map[5 := Verified(Ten(5), true), 6 := Verified(Ten(6), true)]);
    Extend([] + [a] + [b], g2, [], [], c);
    DeferredDecision(g2, 5);
    var g3 := Next(g2, Shop, c);
    Extend([] + [a] + [b] + [c], g3, [], [], d);
    DeferredDecision(g3, 6);
    g := Next(g3, Shop, d);
    assert [] + [a] + [b] + [c] + [d] == Submissions[..4];
    assert g.active == map[5 := Settling(Ten(5), true, false), 6 := Settling(Ten(6), true, false)];
  }

  lemma {:induction false} SubmissionsRun() returns (g: State)
    ensures At(Submissions, g, [], [])
    ensures g.active == map[5 := Mined(Ten(5), true, false, 11, 1), 6 := Mined(Ten(6), true, false, 12, 2)]
    ensures g.inflight == map[] && g.now == 100 * SECOND
  {
    hide OnChain, ValidRun, After;
    var a, b := Submissions[4], Submissions[5];
    var g0 := ArrivalsRun();
    Extend(Submissions[..4], g0, [], [], a);
    TenSettles(g0, 5);
    var g1 := Next(g0, Shop, a);
    assert g1.active == map[5 := Mined(Ten(5), true, false, 11, 1), 6 := Settling(Ten(6), true, false)];
    Extend(Submissions[..4] + [a], g1, [], [], b);
    TenSettles(g1, 6);
    g := Next(g1, Shop, b);
    assert g.active == map[5 := Mined(Ten(5), true, false, 11, 1), 6 := Mined(Ten(6), true, false, 12, 2)];
    assert Submissions[..4] + [a] + [b] == Submissions;
  }

  /** The record of a settlement of the run. */
  function RecordOf(tx: TxHash): Record { Record(1, 10, tx, 100 * SECOND) }

  /** Both are journaled, 5 first. */
  lemma {:induction false} JournaledRun() returns (g: State)
    ensures At(Submissions + Endings[..2], g, [5, 6], [])
    ensures g.active == map[5 := Journaled(Ten(5), true, false, RecordOf(11), 1),
                            6 := Journaled(Ten(6), true, false, RecordOf(12), 2)]
  {
    hide ValidRun, After, AppendEntry, At;
    var g0 := SubmissionsRun();
    var g1, g2 := Next(g0, Shop, Endings[0]), Next(Next(g0, Shop, Endings[0]), Shop, Endings[1]);
    Extend(Submissions, g0, [], [], Endings[0]);
    assert [] + [5] == [5];
    assert g1.active == map[5 := Journaled(Ten(5), true, false, RecordOf(11), 1),
                            6 := Mined(Ten(6), true, false, 12, 2)];
    Extend(Submissions + [Endings[0]], g1, [5], [], Endings[1]);
    assert [5] + [6] == [5, 6];
    g := g2;
    assert g2.active == map[5 := Journaled(Ten(5), true, false, RecordOf(11), 1),
                            6 := Journaled(Ten(6), true, false, RecordOf(12), 2)];
    assert Submissions + [Endings[0]] + [Endings[1]] == Submissions + Endings[..2];
  }

  /** Both are committed. */
  lemma {:induction false} CommittedRun() returns (g: State, at: int)
    ensures At(Submissions + Endings[..4], g, [5, 6], [])
    ensures g.active == map[5 := Committed(Ten(5), true, RecordOf(11), 1, at),
                            6 := Committed(Ten(6), true, RecordOf(12), 2, at)]
  {
    hide ValidRun, After, Notified, At;
    var s := Submissions + Endings[..2];
    var g0 := JournaledRun();
    at := g0.now;
    Extend(s, g0, [5, 6], [], Endings[2]);
    var g1 := Next(g0, Shop, Endings[2]);
    assert g1.active == map[5 := Committed(Ten(5), true, RecordOf(11), 1, at),
                            6 := Journaled(Ten(6), true, false, RecordOf(12), 2)];
    Extend(s + [Endings[2]], g1, [5, 6], [], Endings[3]);
    g := Next(g1, Shop, Endings[3]);
    assert g.active == map[5 := Committed(Ten(5), true, RecordOf(11), 1, at),
                           6 := Committed(Ten(6), true, RecordOf(12), 2, at)];
    assert s + [Endings[2]] + [Endings[3]] == Submissions + Endings[..4];
  }

  /** Both are listed, 6 first. */
  lemma {:induction false} ListedRun() returns (g: State, at: int)
    ensures At(Submissions + Endings[..6], g, [5, 6], [6, 5])
    ensures g.active == map[5 := Listed(Ten(5), true, RecordOf(11), 1, at),
                            6 := Listed(Ten(6), true, RecordOf(12), 2, at)]
  {
    hide ValidRun, After, At;
    var s := Submissions + Endings[..4];
    var g0: State;
    g0, at := CommittedRun();
    Extend(s, g0, [5, 6], [], Endings[4]);
    var g1 := Next(g0, Shop, Endings[4]);
    assert [] + [6] == [6];
    assert g1.active == map[5 := Committed(Ten(5), true, RecordOf(11), 1, at),
                            6 := Listed(Ten(6), true, RecordOf(12), 2, at)];
    Extend(s + [Endings[4]], g1, [5, 6], [6], Endings[5]);
    assert [6] + [5] == [6, 5];
    g := Next(g1, Shop, Endings[5]);
    assert g.active == map[5 := Listed(Ten(5), true, RecordOf(11), 1, at),
                           6 := Listed(Ten(6), true, RecordOf(12), 2, at)];
    assert s + [Endings[4]] + [Endings[5]] == Submissions + Endings[..6];
  }

  /** The settlements pass the journal as 5, 6 and the list as 6, 5. */
  lemma {:induction false} EndingsRun() returns (g: State)
    ensures At(Submissions + Endings, g, [5, 6], [6, 5]) && g.active == map[]
  {
    hide ValidRun, After, AppendEntry, At;
    var s := Submissions + Endings[..6];
    var g0, at := ListedRun();
    Extend(s, g0, [5, 6], [6, 5], Endings[6]);
    var g1 := Next(g0, Shop, Endings[6]);
    assert g1.active == map[6 := Listed(Ten(6), true, RecordOf(12), 2, at)];
    Extend(s + [Endings[6]], g1, [5, 6], [6, 5], Endings[7]);
    g := Next(g1, Shop, Endings[7]);
    assert g.active == map[];
    assert s + [Endings[6]] + [Endings[7]] == Submissions + Endings;
  }

  /** A restart after this run lists the two settlements the other way round. */
  lemma {:induction false} SwappedOverRestart()
    ensures ValidRun(Opening, Shop, Submissions + Endings)
    ensures var g := After(Opening, Shop, Submissions + Endings);
            g.active == map[] && Restarted(g).settlements != Seconds(g.settlements)
  {
    hide RestoredSettlements, RestoredAccounts, RestoredRevoked, Seconds;
    var g := EndingsRun();
    RestartKeepsOrderIff(Coins, 0, 100 * SECOND, Shop, Submissions + Endings);
    assert [5, 6][0] != [6, 5][0];
  }
}
