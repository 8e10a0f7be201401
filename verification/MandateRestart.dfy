/** Rebuilding the accounting from the journal (x402/gateway.go, restoreAccounting): when a
    restarted gateway judges every later payment as the one that never stopped. The journal keeps
    whole seconds and every spend; the live account keeps nanoseconds and prunes. */
module MandateRestart {
  import opened Common
  import opened MandateAccounts
  import opened MandateBounds

  /** The account rebuilt from the journaled stamps (in seconds) of the committed payments. */
  function Rebuilt(h: seq<Committed>, stamps: seq<int>): Account
    requires |h| == |stamps|
  {
    Account(RebuiltSpends(h, stamps), map[])
  }

  function RebuiltSpends(h: seq<Committed>, stamps: seq<int>): seq<Spend>
    requires |h| == |stamps|
  {
    if h == [] then []
    else RebuiltSpends(Init(h), Init(stamps)) + [Spend(Last(stamps) * SECOND, Last(h).amount)]
  }

  /** A spend whose two readings fall on different sides of a window's edge. */
  predicate Straddles(c: Committed, stamp: int, cutoff: int) {
    (c.at >= cutoff) != (stamp * SECOND >= cutoff)
  }

  ghost predicate NoneStraddles(h: seq<Committed>, stamps: seq<int>, cutoff: int)
    requires |h| == |stamps|
  {
    forall i :: 0 <= i < |h| ==> !Straddles(h[i], stamps[i], cutoff)
  }

  lemma {:induction false} RebuiltWindow(h: seq<Committed>, stamps: seq<int>, cutoff: int)
    requires |h| == |stamps| && NoneStraddles(h, stamps, cutoff)
    ensures AmountFrom(RebuiltSpends(h, stamps), cutoff) == Since(h, cutoff, true)
    ensures CountFrom(RebuiltSpends(h, stamps), cutoff) == CountSince(h, cutoff)
  {
    if h != [] {
      assert NoneStraddles(Init(h), Init(stamps), cutoff) by {
        assert forall i :: 0 <= i < |Init(h)| ==> Init(h)[i] == h[i] && Init(stamps)[i] == stamps[i];
      }
      RebuiltWindow(Init(h), Init(stamps), cutoff);
      AmountSnoc(RebuiltSpends(Init(h), Init(stamps)), Spend(Last(stamps) * SECOND, Last(h).amount), cutoff);
      assert !Straddles(h[|h| - 1], stamps[|h| - 1], cutoff);
    }
  }

  /** Spends the live account still counts and the rebuilt one does not: stamped before the edge. */
  predicate Forgotten(c: Committed, stamp: int, cutoff: int) { stamp * SECOND < cutoff <= c.at }

  /** Spends the rebuilt account still counts and the live one does not: stamped late. */
  predicate Postponed(c: Committed, stamp: int, cutoff: int) { c.at < cutoff <= stamp * SECOND }

  function ForgottenAmount(h: seq<Committed>, stamps: seq<int>, cutoff: int): nat
    requires |h| == |stamps|
  {
    if h == [] then 0
    else
      var rest := ForgottenAmount(Init(h), Init(stamps), cutoff);
      if Forgotten(Last(h), Last(stamps), cutoff) then rest + Last(h).amount else rest
  }

  function PostponedAmount(h: seq<Committed>, stamps: seq<int>, cutoff: int): nat
    requires |h| == |stamps|
  {
    if h == [] then 0
    else
      var rest := PostponedAmount(Init(h), Init(stamps), cutoff);
      if Postponed(Last(h), Last(stamps), cutoff) then rest + Last(h).amount else rest
  }

  function ForgottenCount(h: seq<Committed>, stamps: seq<int>, cutoff: int): nat
    requires |h| == |stamps|
  {
    if h == [] then 0
    else
      var rest := ForgottenCount(Init(h), Init(stamps), cutoff);
      if Forgotten(Last(h), Last(stamps), cutoff) then rest + 1 else rest
  }

  function PostponedCount(h: seq<Committed>, stamps: seq<int>, cutoff: int): nat
    requires |h| == |stamps|
  {
    if h == [] then 0
    else
      var rest := PostponedCount(Init(h), Init(stamps), cutoff);
      if Postponed(Last(h), Last(stamps), cutoff) then rest + 1 else rest
  }

  /** Whatever the stamps: the live account is the rebuilt one, plus what is forgotten, minus what is
      postponed. */
  lemma {:induction false} RestartShiftsWindow(h: seq<Committed>, stamps: seq<int>, cutoff: int)
    requires |h| == |stamps|
    ensures Since(h, cutoff, true) ==
              AmountFrom(RebuiltSpends(h, stamps), cutoff) + ForgottenAmount(h, stamps, cutoff)
                - PostponedAmount(h, stamps, cutoff)
    ensures CountSince(h, cutoff) ==
              CountFrom(RebuiltSpends(h, stamps), cutoff) + ForgottenCount(h, stamps, cutoff)
                - PostponedCount(h, stamps, cutoff)
  {
    if h != [] {
      var n := |h| - 1;
      RestartShiftsWindow(Init(h), Init(stamps), cutoff);
      AmountSnoc(RebuiltSpends(Init(h), Init(stamps)), Spend(stamps[n] * SECOND, h[n].amount), cutoff);
    }
  }

  /** A stamp that reads the same instant as the commit. */
  ghost predicate Truncated(h: seq<Committed>, stamps: seq<int>) {
    |h| == |stamps| && forall i :: 0 <= i < |h| ==> stamps[i] * SECOND <= h[i].at < stamps[i] * SECOND + SECOND
  }

  /** When every stamp reads the same instant as its commit nothing is postponed: a restart can only
      forget. */
  lemma {:induction false} PromptStampsOnlyForget(h: seq<Committed>, stamps: seq<int>, cutoff: int)
    requires Truncated(h, stamps)
    ensures PostponedAmount(h, stamps, cutoff) == 0 && PostponedCount(h, stamps, cutoff) == 0
  {
    if h != [] {
      var n := |h| - 1;
      assert Truncated(Init(h), Init(stamps)) by {
        assert forall i :: 0 <= i < n ==> Init(h)[i] == h[i] && Init(stamps)[i] == stamps[i];
      }
      PromptStampsOnlyForget(Init(h), Init(stamps), cutoff);
      assert stamps[n] * SECOND <= h[n].at;
    }
  }

  // ---- The rest of the run ----

  ghost function NextAccount(a: Account, m: Mandate, e: Event): Account {
    match e.op
    case Reserving(nonce, amount, skip) => ReserveIn(a, m, nonce, amount, e.now, skip)
    case Committing(nonce) => CommitIn(a, m, nonce, e.now)
    case Releasing(nonce) => ReleaseIn(a, nonce)
  }

  /** The verdicts of the reservations among the later events, in order. */
  ghost function Verdicts(a: Account, m: Mandate, later: seq<Event>): seq<Verdict>
    decreases |later|
  {
    if later == [] then []
    else
      var rest := Verdicts(NextAccount(a, m, later[0]), m, later[1..]);
      match later[0].op
      case Reserving(_, amount, skip) => [VerdictOf(a, m, amount, later[0].now, skip)] + rest
      case _ => rest
  }

  /** The edges of the two windows as an event at time now sees them. */
  predicate IsCutoff(m: Mandate, now: int, k: int) {
    k == now - WindowDur(m.budgetWindowSeconds) || k == now - WindowDur(m.rateWindowSeconds)
  }

  /** Two accounts answer alike every window query the later events may ask. */
  ghost predicate SameView(a: Account, b: Account, m: Mandate, later: seq<Event>) {
    && a.reserved == b.reserved
    && forall e, k :: e in later && IsCutoff(m, e.now, k) ==>
         AmountFrom(a.spends, k) == AmountFrom(b.spends, k) && CountFrom(a.spends, k) == CountFrom(b.spends, k)
  }

  lemma {:induction false} SameVerdict(a: Account, b: Account, m: Mandate, later: seq<Event>, amount: nat, skip: bool)
    requires later != [] && SameView(a, b, m, later)
    ensures VerdictOf(a, m, amount, later[0].now, skip) == VerdictOf(b, m, amount, later[0].now, skip)
  {
    hide WindowDur, Int64;
    var now := later[0].now;
    assert later[0] in later;
    assert IsCutoff(m, now, now - WindowDur(m.budgetWindowSeconds));
    assert IsCutoff(m, now, now - WindowDur(m.rateWindowSeconds));
  }

  lemma {:induction false} SameViewAfterCommit(a: Account, b: Account, m: Mandate, later: seq<Event>, nonce: Nonce)
    requires later != [] && Clocked(later) && SameView(a, b, m, later) && nonce in a.reserved
    ensures SameView(CommitIn(a, m, nonce, later[0].now), CommitIn(b, m, nonce, later[0].now), m, later[1..])
  {
    hide WindowDur, AmountFrom, CountFrom, Pruned;
    var now := later[0].now;
    var s := Spend(now, a.reserved[nonce].amount);
    var cutoff := now - MaxWindow(m);
    forall e, k | e in later[1..] && IsCutoff(m, e.now, k)
      ensures AmountFrom(Pruned(a.spends + [s], cutoff), k) == AmountFrom(Pruned(b.spends + [s], cutoff), k)
      ensures CountFrom(Pruned(a.spends + [s], cutoff), k) == CountFrom(Pruned(b.spends + [s], cutoff), k)
    {
      assert e in later && now <= e.now;
      PrunedKeeps(a.spends + [s], cutoff, k);
      PrunedKeeps(b.spends + [s], cutoff, k);
      AmountSnoc(a.spends, s, k);
      AmountSnoc(b.spends, s, k);
    }
  }

  lemma {:induction false} SameViewKept(a: Account, b: Account, m: Mandate, later: seq<Event>)
    requires later != [] && Clocked(later) && SameView(a, b, m, later)
    ensures SameView(NextAccount(a, m, later[0]), NextAccount(b, m, later[0]), m, later[1..])
  {
    hide WindowDur, AmountFrom, CountFrom, Pruned, VerdictOf;
    match later[0].op
    case Reserving(nonce, amount, skip) => SameVerdict(a, b, m, later, amount, skip);
    case Releasing(nonce) =>
    case Committing(nonce) =>
      if nonce in a.reserved {
        SameViewAfterCommit(a, b, m, later, nonce);
      }
  }

  lemma {:induction false} SameVerdicts(a: Account, b: Account, m: Mandate, later: seq<Event>)
    requires Clocked(later) && SameView(a, b, m, later)
    ensures Verdicts(a, m, later) == Verdicts(b, m, later)
    decreases later
  {
    if later != [] {
      SameViewKept(a, b, m, later);
      SameVerdicts(NextAccount(a, m, later[0]), NextAccount(b, m, later[0]), m, later[1..]);
      match later[0].op
      case Reserving(_, amount, skip) => SameVerdict(a, b, m, later, amount, skip);
      case _ =>
    }
  }

  /** The same payments in whatever order, as far as any window can tell. */
  ghost predicate SameWindows(a: seq<Committed>, b: seq<Committed>) {
    forall k :: Since(a, k, true) == Since(b, k, true) && CountSince(a, k) == CountSince(b, k)
  }

  /** After a restart with nothing in flight, every later reservation gets the verdict it would
      have got without the restart, as long as no old spend straddles an edge of a window that is
      asked about. The payments may have been stamped in another order than they were committed, and
      pruning before or after the restart makes no difference. */
  lemma {:induction false} RestartKeepsVerdicts(m: Mandate, events: seq<Event>, h: seq<Committed>, stamps: seq<int>,
      later: seq<Event>)
    requires Clocked(events + later)
    requires Run(m, events).acct.reserved == map[]
    requires |stamps| == |h| && SameWindows(h, Run(m, events).history)
    requires forall e, k :: e in later && IsCutoff(m, e.now, k) ==> NoneStraddles(h, stamps, k)
    ensures Verdicts(Run(m, events).acct, m, later) == Verdicts(Rebuilt(h, stamps), m, later)
  {
    hide WindowDur, Run, Since, CountSince;
    var t := Run(m, events);
    if later != [] {
      var now := later[0].now;
      ClockedParts(events, later);
      RunKeeps(m, events, now);
      forall e, k | e in later && IsCutoff(m, e.now, k)
        ensures AmountFrom(t.acct.spends, k) == AmountFrom(RebuiltSpends(h, stamps), k)
        ensures CountFrom(t.acct.spends, k) == CountFrom(RebuiltSpends(h, stamps), k)
      {
        RebuiltWindow(h, stamps, k);
        assert k >= now - MaxWindow(m);
        assert Since(h, k, true) == Since(t.history, k, true);
      }
      SameVerdicts(t.acct, Rebuilt(h, stamps), m, later);
    }
  }

  lemma {:induction false} ClockedParts(a: seq<Event>, b: seq<Event>)
    requires Clocked(a + b)
    ensures Clocked(a) && Clocked(b)
    ensures a != [] && b != [] ==> Last(a).now <= b[0].now
    ensures forall e :: e in b ==> b[0].now <= e.now
  {
    var s := a + b;
    forall i, j | 0 <= i < j < |a|
      ensures a[i].now <= a[j].now
    {
      assert s[i] == a[i] && s[j] == a[j];
    }
    forall i, j | 0 <= i < j < |b|
      ensures b[i].now <= b[j].now
    {
      assert s[|a| + i] == b[i] && s[|a| + j] == b[j];
    }
    if a != [] && b != [] {
      assert s[|a| - 1] == Last(a) && s[|a|] == b[0];
    }
  }

  // ---- Exactly how much a restart shifts ----

  /** For one reservation right after the restart: each check of the running gateway is the check of the
      restarted one with the forgotten spends added and the postponed ones taken off. So a restart is
      looser by what is forgotten and stricter by what is postponed. */
  lemma {:induction false} RestartShiftsVerdict(m: Mandate, events: seq<Event>, h: seq<Committed>, stamps: seq<int>,
      amount: nat, now: int)
    requires Clocked(events) && (events != [] ==> Last(events).now <= now)
    requires Run(m, events).acct.reserved == map[]
    requires |stamps| == |h| && SameWindows(h, Run(m, events).history)
    ensures var live, rebuilt := Run(m, events).acct, Rebuilt(h, stamps);
            var b, r := now - WindowDur(m.budgetWindowSeconds), now - WindowDur(m.rateWindowSeconds);
            && (BudgetAllows(live, m, amount, now) <==>
                  (m.budgetAmount > 0 ==>
                     AmountFrom(rebuilt.spends, b) + ForgottenAmount(h, stamps, b) - PostponedAmount(h, stamps, b)
                       + amount
                       <= m.budgetAmount))
            && (RateAllows(live, m, now) <==>
                  (m.maxPaymentsPerWindow > 0 ==>
                     CountFrom(rebuilt.spends, r) + ForgottenCount(h, stamps, r) - PostponedCount(h, stamps, r) + 1
                       <= Int64(m.maxPaymentsPerWindow)))
  {
    hide WindowDur, Int64, Run, AmountFrom, CountFrom, Since, CountSince, ForgottenAmount, ForgottenCount,
         PostponedAmount, PostponedCount, RebuiltSpends, ReservedAmount, WithinBudget, WithinRate, BudgetEverywhere,
         RateEverywhere;
    var t := Run(m, events);
    RunKeeps(m, events, now);
    EmptySum();
    var b, r := now - WindowDur(m.budgetWindowSeconds), now - WindowDur(m.rateWindowSeconds);
    RestartShiftsWindow(h, stamps, b);
    RestartShiftsWindow(h, stamps, r);
    assert AmountFrom(t.acct.spends, b) == Since(t.history, b, true) == Since(h, b, true);
    assert CountFrom(t.acct.spends, r) == CountSince(t.history, r) == CountSince(h, r);
  }

  const OneSecondBudget: Mandate := Mandate(1, 1, 2, 0, [], [], 0, 100, 10, 1, 0, 0)

  /** A payment of the whole budget, committed at an instant of second 1. */
  function WholeBudgetAt(at: int): seq<Event> { [Event(at, Reserving(7, 10, false)), Event(at, Committing(7))] }

  /** What that run leaves: one committed payment, nothing reserved. */
  lemma {:induction false} WholeBudgetOutcome(at: int)
    requires 0 <= at < 2 * SECOND
    ensures var t := Run(OneSecondBudget, WholeBudgetAt(at));
            t.history == [Committed(at, 10, false)] && t.acct == Account([Spend(at, 10)], map[])
  {
    var m := OneSecondBudget;
    var reserving, committing := WholeBudgetAt(at)[0], WholeBudgetAt(at)[1];
    EmptySum();
    assert Init(WholeBudgetAt(at)) == [reserving] && Init([reserving]) == [];
    var held := Step(Start, m, reserving);
    assert held.acct == Account([], map[7 := Spend(at, 10)]);
    assert held.waived == {};
    assert MaxWindow(m) == ALL_TIME;
    var s := Spend(at, 10);
    assert [] + [s] == [s] && Init([s]) == [];
    assert Pruned([s], at - ALL_TIME) == [s] by {
      assert Pruned([], at - ALL_TIME) == [];
    }
    var done := Step(held, m, committing);
    assert done.acct.reserved == map[];
    assert Run(m, [reserving]) == held;
    assert Run(m, WholeBudgetAt(at)) == done;
  }

  /** One spend of ten, read at an instant, against the budget of ten. */
  lemma {:induction false} OneSpendAllows(at: int, now: int)
    ensures BudgetAllows(Account([Spend(at, 10)], map[]), OneSecondBudget, 1, now) <==> at < now - SECOND
  {
    EmptySum();
    assert WindowDur(1) == SECOND;
    assert Init([Spend(at, 10)]) == [] && AmountFrom([], now - SECOND) == 0;
    assert AmountFrom([Spend(at, 10)], now - SECOND) == if at >= now - SECOND then 10 else 0;
  }

  /** A restart can let a payment through that the running gateway refuses: the payment was committed
      half way through second 1, and the journal reads it at its start. */
  lemma {:induction false} TruncationLetsOneThrough()
    ensures var t := Run(OneSecondBudget, WholeBudgetAt(1_500_000_000));
            && t.history == [Committed(1_500_000_000, 10, false)]
            && !BudgetAllows(t.acct, OneSecondBudget, 1, 2_200_000_000)
            && BudgetAllows(Rebuilt(t.history, [1]), OneSecondBudget, 1, 2_200_000_000)
  {
    hide Run, BudgetAllows;
    WholeBudgetOutcome(1_500_000_000);
    OneSpendAllows(1_500_000_000, 2_200_000_000);
    OneSpendAllows(SECOND, 2_200_000_000);
    assert RebuiltSpends([Committed(1_500_000_000, 10, false)], [1]) == [Spend(SECOND, 10)];
  }

  /** And it can refuse one that the running gateway lets through: the payment was committed in the last
      nanosecond of second 1, and stamped in second 2. */
  lemma {:induction false} LateStampRefusesOne()
    ensures var t := Run(OneSecondBudget, WholeBudgetAt(1_999_999_999));
            && t.history == [Committed(1_999_999_999, 10, false)]
            && BudgetAllows(t.acct, OneSecondBudget, 1, 3_000_000_000)
            && !BudgetAllows(Rebuilt(t.history, [2]), OneSecondBudget, 1, 3_000_000_000)
  {
    hide Run, BudgetAllows;
    WholeBudgetOutcome(1_999_999_999);
    OneSpendAllows(1_999_999_999, 3_000_000_000);
    OneSpendAllows(2 * SECOND, 3_000_000_000);
    assert RebuiltSpends([Committed(1_999_999_999, 10, false)], [2]) == [Spend(2 * SECOND, 10)];
  }

  lemma {:induction false} EmptySum()
    ensures ReservedAmount(map[]) == 0
  {
    assert Amounts(map[]) == map[];
    SumEmpty();
  }
}
