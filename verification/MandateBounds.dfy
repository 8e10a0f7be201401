/** What the sliding-window accounting guarantees over whole histories, pruned spends included,
    for every interleaving of reserve, commit and release under one mandate. */
module MandateBounds {
  import opened Common
  import opened MandateAccounts

  /** A committed payment as it really happened. `waived` marks one whose reservation carried the
      delegator's confirmation and so skipped the budget check. */
  datatype Committed = Committed(at: int, amount: nat, waived: bool)

  datatype Op =
    | Reserving(nonce: Nonce, amount: nat, skipBudget: bool)
    | Committing(nonce: Nonce)
    | Releasing(nonce: Nonce)

  datatype Event = Event(now: int, op: Op)

  /** The account, the whole history of commits, and which reservations skipped the budget. */
  datatype Tracked = Tracked(acct: Account, history: seq<Committed>, waived: set<Nonce>)

  const Start: Tracked := Tracked(NewAccount, [], {})

  ghost function Step(t: Tracked, m: Mandate, e: Event): Tracked {
    match e.op
    case Reserving(nonce, amount, skipBudget) =>
      Tracked(
        ReserveIn(t.acct, m, nonce, amount, e.now, skipBudget),
        t.history,
        if VerdictOf(t.acct, m, amount, e.now, skipBudget) != Fits then t.waived
        else if skipBudget then t.waived + {nonce} else t.waived - {nonce})
    case Committing(nonce) =>
      Tracked(
        CommitIn(t.acct, m, nonce, e.now),
        if nonce !in t.acct.reserved then t.history
        else t.history + [Committed(e.now, t.acct.reserved[nonce].amount, nonce in t.waived)],
        t.waived)
    case Releasing(nonce) => t.(acct := ReleaseIn(t.acct, nonce))
  }

  ghost function Run(m: Mandate, events: seq<Event>): Tracked {
    if events == [] then Start else Step(Run(m, Init(events)), m, Last(events))
  }

  /** The clock never goes back. */
  predicate Clocked(events: seq<Event>) {
    forall i, j :: 0 <= i < j < |events| ==> events[i].now <= events[j].now
  }

  function Counted(c: Committed, all: bool): nat {
    if all || !c.waived then c.amount else 0
  }

  /** The amount committed since lo; waived commits count only if `all`. */
  function Since(h: seq<Committed>, lo: int, all: bool): nat {
    if h == [] then 0 else Since(Init(h), lo, all) + if Last(h).at >= lo then Counted(Last(h), all) else 0
  }

  /** The amount committed in the closed interval from lo to hi. */
  function Between(h: seq<Committed>, lo: int, hi: int, all: bool): nat {
    if h == [] then 0
    else Between(Init(h), lo, hi, all) + if lo <= Last(h).at <= hi then Counted(Last(h), all) else 0
  }

  function CountSince(h: seq<Committed>, lo: int): nat {
    if h == [] then 0 else CountSince(Init(h), lo) + if Last(h).at >= lo then 1 else 0
  }

  function CountBetween(h: seq<Committed>, lo: int, hi: int): nat {
    if h == [] then 0 else CountBetween(Init(h), lo, hi) + if lo <= Last(h).at <= hi then 1 else 0
  }

  function Unwaived(reserved: map<Nonce, Spend>, waived: set<Nonce>): map<Nonce, int> {
    map n | n in reserved :: if n in waived then 0 else reserved[n].amount
  }

  ghost predicate TimesUpTo(h: seq<Committed>, now: int) {
    forall i :: 0 <= i < |h| ==> h[i].at <= now
  }

  /** The pruned list still answers every window query that can be asked from now on. */
  ghost predicate Faithful(t: Tracked, m: Mandate, now: int) {
    forall k :: k >= now - MaxWindow(m) ==>
      && AmountFrom(t.acct.spends, k) == Since(t.history, k, true)
      && CountFrom(t.acct.spends, k) == CountSince(t.history, k)
  }

  /** Committed in the current window plus reserved never exceeds the budget. */
  ghost predicate WithinBudget(t: Tracked, m: Mandate, now: int) {
    m.budgetAmount > 0 ==>
      Since(t.history, now - WindowDur(m.budgetWindowSeconds), false) + Sum(Unwaived(t.acct.reserved, t.waived))
        <= m.budgetAmount
  }

  ghost predicate WithinRate(t: Tracked, m: Mandate, now: int) {
    m.maxPaymentsPerWindow > 0 ==>
      CountSince(t.history, now - WindowDur(m.rateWindowSeconds)) + |t.acct.reserved| <= m.maxPaymentsPerWindow
  }

  /** No closed interval of the budget window holds more than the budget, anywhere in history. */
  ghost predicate BudgetEverywhere(t: Tracked, m: Mandate) {
    m.budgetAmount > 0 ==>
      forall lo, hi :: hi - lo <= WindowDur(m.budgetWindowSeconds) ==>
        Between(t.history, lo, hi, false) <= m.budgetAmount
  }

  ghost predicate RateEverywhere(t: Tracked, m: Mandate) {
    m.maxPaymentsPerWindow > 0 ==>
      forall lo, hi :: hi - lo <= WindowDur(m.rateWindowSeconds) ==>
        CountBetween(t.history, lo, hi) <= m.maxPaymentsPerWindow
  }

  ghost predicate Inv(t: Tracked, m: Mandate, now: int) {
    && TimesUpTo(t.history, now)
    && Faithful(t, m, now)
    && WithinBudget(t, m, now)
    && WithinRate(t, m, now)
    && BudgetEverywhere(t, m)
    && RateEverywhere(t, m)
  }

  // ---- Window arithmetic ----

  lemma {:induction false} SinceShrinks(h: seq<Committed>, lo: int, hi: int, all: bool)
    requires lo <= hi
    ensures Since(h, hi, all) <= Since(h, lo, all) && CountSince(h, hi) <= CountSince(h, lo)
  {
    if h != [] {
      SinceShrinks(Init(h), lo, hi, all);
    }
  }

  lemma {:induction false} UnwaivedAtMostAll(h: seq<Committed>, lo: int)
    ensures Since(h, lo, false) <= Since(h, lo, true)
  {
    if h != [] {
      UnwaivedAtMostAll(Init(h), lo);
    }
  }

  lemma {:induction false} BetweenWithinSince(h: seq<Committed>, lo: int, hi: int, all: bool)
    ensures Between(h, lo, hi, all) <= Since(h, lo, all) && CountBetween(h, lo, hi) <= CountSince(h, lo)
  {
    if h != [] {
      BetweenWithinSince(Init(h), lo, hi, all);
    }
  }

  lemma {:induction false} SinceSnoc(h: seq<Committed>, c: Committed, lo: int, hi: int, all: bool)
    ensures Since(h + [c], lo, all) == Since(h, lo, all) + if c.at >= lo then Counted(c, all) else 0
    ensures CountSince(h + [c], lo) == CountSince(h, lo) + if c.at >= lo then 1 else 0
    ensures Between(h + [c], lo, hi, all) == Between(h, lo, hi, all) + if lo <= c.at <= hi then Counted(c, all) else 0
    ensures CountBetween(h + [c], lo, hi) == CountBetween(h, lo, hi) + if lo <= c.at <= hi then 1 else 0
  {
    InitOfSnoc(h, c);
  }

  lemma {:induction false} PrunedKeeps(spends: seq<Spend>, cutoff: int, k: int)
    requires k >= cutoff
    ensures AmountFrom(Pruned(spends, cutoff), k) == AmountFrom(spends, k)
    ensures CountFrom(Pruned(spends, cutoff), k) == CountFrom(spends, k)
  {
    if spends != [] {
      PrunedKeeps(Init(spends), cutoff, k);
      if Last(spends).at >= cutoff {
        InitOfSnoc(Pruned(Init(spends), cutoff), Last(spends));
      }
    }
  }

  lemma {:induction false} AmountSnoc(spends: seq<Spend>, s: Spend, k: int)
    ensures AmountFrom(spends + [s], k) == AmountFrom(spends, k) + if s.at >= k then s.amount else 0
    ensures CountFrom(spends + [s], k) == CountFrom(spends, k) + if s.at >= k then 1 else 0
  {
    InitOfSnoc(spends, s);
  }

  // ---- Each step ----

  /** Letting time pass keeps everything. */
  lemma {:induction false} TimePasses(t: Tracked, m: Mandate, now: int, later: int)
    requires Inv(t, m, now) && now <= later
    ensures Inv(t, m, later)
  {
    hide WindowDur, MaxWindow;
    SinceShrinks(t.history, now - WindowDur(m.budgetWindowSeconds), later - WindowDur(m.budgetWindowSeconds), false);
    SinceShrinks(t.history, now - WindowDur(m.rateWindowSeconds), later - WindowDur(m.rateWindowSeconds), false);
  }

  lemma {:induction false} UnwaivedPut(reserved: map<Nonce, Spend>, waived: set<Nonce>, nonce: Nonce, s: Spend,
      skip: bool)
    ensures var waived' := if skip then waived + {nonce} else waived - {nonce};
            Sum(Unwaived(reserved[nonce := s], waived'))
              == Sum(Unwaived(reserved, waived)) - Lookup(Unwaived(reserved, waived), nonce)
                 + if skip then 0 else s.amount
  {
    var waived' := if skip then waived + {nonce} else waived - {nonce};
    assert Unwaived(reserved[nonce := s], waived') == Unwaived(reserved, waived)[nonce := if skip then 0 else s.amount];
    SumUpdate(Unwaived(reserved, waived), nonce, if skip then 0 else s.amount);
  }

  lemma {:induction false} UnwaivedDrop(reserved: map<Nonce, Spend>, waived: set<Nonce>, nonce: Nonce)
    ensures Sum(Unwaived(reserved - {nonce}, waived))
         == Sum(Unwaived(reserved, waived)) - Lookup(Unwaived(reserved, waived), nonce)
  {
    assert Unwaived(reserved - {nonce}, waived) == Unwaived(reserved, waived) - {nonce};
    SumRemove(Unwaived(reserved, waived), nonce);
  }

  lemma {:induction false} UnwaivedWithinReserved(reserved: map<Nonce, Spend>, waived: set<Nonce>)
    ensures Sum(Unwaived(reserved, waived)) <= ReservedAmount(reserved)
  {
    SumMonotone(Unwaived(reserved, waived), Amounts(reserved));
  }

  lemma {:induction false} DropSize<V>(m: map<Nonce, V>, n: Nonce)
    ensures |m - {n}| == if n in m then |m| - 1 else |m|
  {
    assert (m - {n}).Keys == m.Keys - {n};
    assert |m.Keys| == |m| && |(m - {n}).Keys| == |m - {n}|;
  }

  lemma {:induction false} PutSize<V>(m: map<Nonce, V>, n: Nonce, v: V)
    ensures |m[n := v]| <= |m| + 1
  {
    assert m[n := v].Keys == m.Keys + {n};
    assert |m.Keys| == |m| && |m[n := v].Keys| == |m[n := v]|;
  }

  lemma {:induction false} ReserveKeeps(t: Tracked, m: Mandate, nonce: Nonce, amount: nat, now: int, skip: bool)
    requires Inv(t, m, now)
    ensures Inv(Step(t, m, Event(now, Reserving(nonce, amount, skip))), m, now)
  {
    hide WindowDur;
    if VerdictOf(t.acct, m, amount, now, skip) == Fits {
      var lo := now - WindowDur(m.budgetWindowSeconds);
      UnwaivedPut(t.acct.reserved, t.waived, nonce, Spend(now, amount), skip);
      UnwaivedWithinReserved(t.acct.reserved, t.waived);
      UnwaivedAtMostAll(t.history, lo);
      PutSize(t.acct.reserved, nonce, Spend(now, amount));
      Int64AtMost(m.maxPaymentsPerWindow);
      assert Lookup(Unwaived(t.acct.reserved, t.waived), nonce) >= 0;
      assert AmountFrom(t.acct.spends, lo) == Since(t.history, lo, true);
      var rlo := now - WindowDur(m.rateWindowSeconds);
      assert CountFrom(t.acct.spends, rlo) == CountSince(t.history, rlo);
    }
  }

  lemma {:induction false} Int64AtMost(x: int)
    ensures x > 0 ==> Int64(x) <= x
  {}

  lemma {:induction false} ReleaseKeeps(t: Tracked, m: Mandate, nonce: Nonce, now: int)
    requires Inv(t, m, now)
    ensures Inv(Step(t, m, Event(now, Releasing(nonce))), m, now)
  {
    hide WindowDur, MaxWindow, Unwaived, Between, CountBetween;
    UnwaivedDrop(t.acct.reserved, t.waived, nonce);
    UnwaivedWeight(t.acct.reserved, t.waived, nonce);
    DropSize(t.acct.reserved, nonce);
  }

  lemma {:induction false} UnwaivedWeight(reserved: map<Nonce, Spend>, waived: set<Nonce>, nonce: Nonce)
    ensures Lookup(Unwaived(reserved, waived), nonce) >= 0
  {}

  /** One window query after a commit, at or above the cutoff that pruning keeps. */
  lemma {:induction false} CommitQuery(spends: seq<Spend>, h: seq<Committed>, c: Committed, cutoff: int, k: int)
    requires k >= cutoff
    requires AmountFrom(spends, k) == Since(h, k, true) && CountFrom(spends, k) == CountSince(h, k)
    ensures AmountFrom(Pruned(spends + [Spend(c.at, c.amount)], cutoff), k) == Since(h + [c], k, true)
    ensures CountFrom(Pruned(spends + [Spend(c.at, c.amount)], cutoff), k) == CountSince(h + [c], k)
  {
    hide AmountFrom, CountFrom, Pruned, Since, CountSince;
    PrunedKeeps(spends + [Spend(c.at, c.amount)], cutoff, k);
    AmountSnoc(spends, Spend(c.at, c.amount), k);
    SinceSnoc(h, c, k, k, true);
  }

  lemma {:induction false} CommitFaithful(t: Tracked, m: Mandate, nonce: Nonce, now: int)
    requires Faithful(t, m, now) && nonce in t.acct.reserved
    ensures Faithful(Step(t, m, Event(now, Committing(nonce))), m, now)
  {
    hide MaxWindow, AmountFrom, CountFrom, Pruned, Since, CountSince;
    var c := Committed(now, t.acct.reserved[nonce].amount, nonce in t.waived);
    var t' := Step(t, m, Event(now, Committing(nonce)));
    forall k | k >= now - MaxWindow(m)
      ensures AmountFrom(t'.acct.spends, k) == Since(t'.history, k, true)
      ensures CountFrom(t'.acct.spends, k) == CountSince(t'.history, k)
    {
      CommitQuery(t.acct.spends, t.history, c, now - MaxWindow(m), k);
    }
  }

  /** The reservation turns into a committed spend of the same weight, so the budget holds in the
      window that ends now; every interval of that length that contains now lies inside it. */
  lemma {:induction false} CommitBudget(t: Tracked, m: Mandate, nonce: Nonce, now: int)
    requires Inv(t, m, now) && nonce in t.acct.reserved && m.budgetAmount > 0
    ensures var t' := Step(t, m, Event(now, Committing(nonce))); WithinBudget(t', m, now) && BudgetEverywhere(t', m)
  {
    hide WindowDur, MaxWindow;
    var c := Committed(now, t.acct.reserved[nonce].amount, nonce in t.waived);
    var w := WindowDur(m.budgetWindowSeconds);
    var h := t.history + [c];
    var t' := Step(t, m, Event(now, Committing(nonce)));
    assert t'.history == h;
    UnwaivedDrop(t.acct.reserved, t.waived, nonce);
    SinceSnoc(t.history, c, now - w, now, false);
    assert WithinBudget(t', m, now);
    forall lo, hi | hi - lo <= w
      ensures Between(h, lo, hi, false) <= m.budgetAmount
    {
      SinceSnoc(t.history, c, lo, hi, false);
      assert Between(t.history, lo, hi, false) <= m.budgetAmount;
      if lo <= now <= hi {
        BetweenWithinSince(h, lo, hi, false);
        SinceShrinks(h, now - w, lo, false);
        UnwaivedNonNegative(t'.acct.reserved, t.waived);
      }
    }
  }

  lemma {:induction false} UnwaivedNonNegative(reserved: map<Nonce, Spend>, waived: set<Nonce>)
    ensures Sum(Unwaived(reserved, waived)) >= 0
  {
    SumBoundsOne(Unwaived(reserved, waived), 0);
  }

  lemma {:induction false} CommitRate(t: Tracked, m: Mandate, nonce: Nonce, now: int)
    requires Inv(t, m, now) && nonce in t.acct.reserved && m.maxPaymentsPerWindow > 0
    ensures var t' := Step(t, m, Event(now, Committing(nonce))); WithinRate(t', m, now) && RateEverywhere(t', m)
  {
    hide WindowDur, MaxWindow;
    var c := Committed(now, t.acct.reserved[nonce].amount, nonce in t.waived);
    var w := WindowDur(m.rateWindowSeconds);
    var h := t.history + [c];
    var t' := Step(t, m, Event(now, Committing(nonce)));
    assert t'.history == h;
    DropSize(t.acct.reserved, nonce);
    SinceSnoc(t.history, c, now - w, now, true);
    assert WithinRate(t', m, now);
    forall lo, hi | hi - lo <= w
      ensures CountBetween(h, lo, hi) <= m.maxPaymentsPerWindow
    {
      SinceSnoc(t.history, c, lo, hi, true);
      assert CountBetween(t.history, lo, hi) <= m.maxPaymentsPerWindow;
      if lo <= now <= hi {
        BetweenWithinSince(h, lo, hi, true);
        SinceShrinks(h, now - w, lo, true);
      }
    }
  }

  lemma {:induction false} StepKeeps(t: Tracked, m: Mandate, now: int, e: Event)
    requires Inv(t, m, now) && now <= e.now
    ensures Inv(Step(t, m, e), m, e.now)
  {
    TimePasses(t, m, now, e.now);
    match e.op
    case Reserving(nonce, amount, skip) => ReserveKeeps(t, m, nonce, amount, e.now, skip);
    case Releasing(nonce) => ReleaseKeeps(t, m, nonce, e.now);
    case Committing(nonce) =>
      if nonce in t.acct.reserved {
        CommitFaithful(t, m, nonce, e.now);
        if m.budgetAmount > 0 {
          CommitBudget(t, m, nonce, e.now);
        }
        if m.maxPaymentsPerWindow > 0 {
          CommitRate(t, m, nonce, e.now);
        }
      }
  }

  lemma {:induction false} StartInv(m: Mandate, now: int)
    ensures Inv(Start, m, now)
  {
    assert Unwaived(Start.acct.reserved, Start.waived) == map[];
    SumEmpty();
  }

  /** Every reachable state of the accounting satisfies the invariant at its last clock reading. */
  lemma {:induction false} RunKeeps(m: Mandate, events: seq<Event>, now: int)
    requires Clocked(events) && (events != [] ==> Last(events).now <= now)
    ensures Inv(Run(m, events), m, now)
  {
    if events == [] {
      StartInv(m, now);
    } else {
      var before := Init(events);
      assert Clocked(before);
      RunKeeps(m, before, Last(events).now);
      StepKeeps(Run(m, before), m, Last(events).now, Last(events));
      TimePasses(Run(m, events), m, Last(events).now, now);
    }
  }

  /** For every interleaving: unconfirmed payments committed in any closed interval no longer than
      the budget window total at most the budget, over the whole history. */
  lemma {:induction false} BudgetHolds(m: Mandate, events: seq<Event>, lo: int, hi: int)
    requires Clocked(events) && m.budgetAmount > 0 && hi - lo <= WindowDur(m.budgetWindowSeconds)
    ensures Between(Run(m, events).history, lo, hi, false) <= m.budgetAmount
  {
    RunKeeps(m, events, if events == [] then 0 else Last(events).now);
  }

  /** Without confirmations every committed payment counts. */
  lemma {:induction false} BudgetHoldsUnconfirmed(m: Mandate, events: seq<Event>, lo: int, hi: int)
    requires Clocked(events) && m.budgetAmount > 0 && hi - lo <= WindowDur(m.budgetWindowSeconds)
    requires forall e :: e in events && e.op.Reserving? ==> !e.op.skipBudget
    ensures Between(Run(m, events).history, lo, hi, true) <= m.budgetAmount
  {
    BudgetHolds(m, events, lo, hi);
    NothingWaived(m, events);
    AllUnwaived(Run(m, events).history, lo, hi);
  }

  lemma {:induction false} NothingWaived(m: Mandate, events: seq<Event>)
    requires forall e :: e in events && e.op.Reserving? ==> !e.op.skipBudget
    ensures Run(m, events).waived == {}
    ensures forall c :: c in Run(m, events).history ==> !c.waived
  {
    if events != [] {
      NothingWaived(m, Init(events));
      assert Last(events) in events;
    }
  }

  lemma {:induction false} AllUnwaived(h: seq<Committed>, lo: int, hi: int)
    requires forall c :: c in h ==> !c.waived
    ensures Between(h, lo, hi, true) == Between(h, lo, hi, false)
  {
    if h != [] {
      AllUnwaived(Init(h), lo, hi);
      assert Last(h) in h;
    }
  }

  /** Every commit, confirmed or not, counts against the rate cap, over the whole history. */
  lemma {:induction false} RateHolds(m: Mandate, events: seq<Event>, lo: int, hi: int)
    requires Clocked(events) && m.maxPaymentsPerWindow > 0 && hi - lo <= WindowDur(m.rateWindowSeconds)
    ensures CountBetween(Run(m, events).history, lo, hi) <= m.maxPaymentsPerWindow
  {
    RunKeeps(m, events, if events == [] then 0 else Last(events).now);
  }

  // ---- Overlong windows ----

  /** A window longer than 64 bits of nanoseconds may wrap to a negative one, and then no committed
      payment is ever counted: the budget check sees only the payments in flight. */
  lemma {:induction false} NegativeWindowForgets(t: Tracked, m: Mandate, amount: nat, now: int)
    requires Inv(t, m, now) && WindowDur(m.budgetWindowSeconds) < 0
    ensures BudgetAllows(t.acct, m, amount, now) <==>
              m.budgetAmount > 0 ==> ReservedAmount(t.acct.reserved) + amount <= m.budgetAmount
  {
    hide WindowDur;
    var k := now - WindowDur(m.budgetWindowSeconds);
    NothingLater(t.history, now, k);
    assert AmountFrom(t.acct.spends, k) == Since(t.history, k, true);
  }

  lemma {:induction false} NothingLater(h: seq<Committed>, now: int, k: int)
    requires TimesUpTo(h, now) && k > now
    ensures Since(h, k, true) == 0
  {
    if h != [] {
      assert forall i :: 0 <= i < |Init(h)| ==> Init(h)[i] == h[i];
      NothingLater(Init(h), now, k);
    }
  }

  /** The shortest such window. */
  lemma {:induction false} OverlongWindowIsNegative()
    ensures WindowDur(LONGEST_WINDOW_SECONDS + 1) < 0
  {}

  /** A payment of an amount reserved and committed at one moment. */
  function Round(nonce: Nonce, amount: nat): seq<Event> {
    [Event(0, Reserving(nonce, amount, false)), Event(0, Committing(nonce))]
  }

  /** Under such a window both are committed. */
  lemma {:induction false} WrappedWindowOverspends(m: Mandate)
    requires m.budgetAmount == 5 && m.budgetWindowSeconds == LONGEST_WINDOW_SECONDS + 1
    requires m.maxPaymentsPerWindow == 0 && m.rateWindowSeconds == 0
    ensures Between(Run(m, Round(1, 5) + Round(2, 5)).history, 0, 0, false) == 10 > m.budgetAmount
  {
    OverlongWindowIsNegative();
    assert MaxWindow(m) >= 0;
    hide Run, Step, Between, MaxWindow, WindowDur, Round;
    NothingRun(m);
    ConcatEmpty(Round(1, 5));
    RoundCommits(m, [], 1, [], []);
    RoundCommits(m, Round(1, 5), 2, [] + [Spend(0, 5)], [] + [Committed(0, 5, false)]);
    BothCounted();
  }

  lemma {:induction false} NothingRun(m: Mandate)
    ensures Run(m, []) == Tracked(Account([], map[]), [], {})
  {}

  lemma {:induction false} RunSnoc(m: Mandate, events: seq<Event>, e: Event)
    ensures Run(m, events + [e]) == Step(Run(m, events), m, e)
  {
    hide Step;
    InitOfSnoc(events, e);
  }

  lemma {:induction false} RoundCommits(m: Mandate, events: seq<Event>, nonce: Nonce, spends: seq<Spend>,
      h: seq<Committed>)
    requires m.budgetAmount == 5 && WindowDur(m.budgetWindowSeconds) < 0 && m.maxPaymentsPerWindow == 0
    requires MaxWindow(m) >= 0
    requires forall s :: s in spends ==> s.at == 0
    requires Run(m, events) == Tracked(Account(spends, map[]), h, {})
    ensures Run(m, events + Round(nonce, 5))
         == Tracked(Account(spends + [Spend(0, 5)], map[]), h + [Committed(0, 5, false)], {})
  {
    hide Run, Step, MaxWindow, WindowDur;
    var first, second := Event(0, Reserving(nonce, 5, false)), Event(0, Committing(nonce));
    RunSnoc(m, events, first);
    RunSnoc(m, events + [first], second);
    ReservesWhole(m, nonce, spends, h);
    CommitsOne(m, nonce, spends, h);
    assert events + [first] + [second] == events + Round(nonce, 5);
  }

  lemma {:induction false} ReservesWhole(m: Mandate, nonce: Nonce, spends: seq<Spend>, h: seq<Committed>)
    requires m.budgetAmount == 5 && WindowDur(m.budgetWindowSeconds) < 0 && m.maxPaymentsPerWindow == 0
    requires forall s :: s in spends ==> s.at == 0
    ensures Step(Tracked(Account(spends, map[]), h, {}), m, Event(0, Reserving(nonce, 5, false)))
         == Tracked(Account(spends, map[nonce := Spend(0, 5)]), h, {})
  {
    hide WindowDur;
    NoneCounted(spends, -WindowDur(m.budgetWindowSeconds));
    assert Amounts(map[]) == map[];
    SumEmpty();
  }

  lemma {:induction false} NoneCounted(spends: seq<Spend>, k: int)
    requires k > 0 && forall s :: s in spends ==> s.at == 0
    ensures AmountFrom(spends, k) == 0
  {
    if spends != [] {
      assert Last(spends) in spends && forall s :: s in Init(spends) ==> s in spends;
      NoneCounted(Init(spends), k);
    }
  }

  lemma {:induction false} CommitsOne(m: Mandate, nonce: Nonce, spends: seq<Spend>, h: seq<Committed>)
    requires MaxWindow(m) >= 0 && forall s :: s in spends ==> s.at == 0
    ensures Step(Tracked(Account(spends, map[nonce := Spend(0, 5)]), h, {}), m, Event(0, Committing(nonce)))
         == Tracked(Account(spends + [Spend(0, 5)], map[]), h + [Committed(0, 5, false)], {})
  {
    hide MaxWindow;
    var all := spends + [Spend(0, 5)];
    assert forall s :: s in all ==> s.at == 0;
    NonePruned(all, -MaxWindow(m));
    assert map[nonce := Spend(0, 5)] - {nonce} == map[];
  }

  lemma {:induction false} NonePruned(spends: seq<Spend>, k: int)
    requires k <= 0 && forall s :: s in spends ==> s.at == 0
    ensures Pruned(spends, k) == spends
  {
    if spends != [] {
      assert Last(spends) in spends && forall s :: s in Init(spends) ==> s in spends;
      NonePruned(Init(spends), k);
    }
  }

  lemma {:induction false} BothCounted()
    ensures Between([] + [Committed(0, 5, false)] + [Committed(0, 5, false)], 0, 0, false) == 10
  {
    assert Between([], 0, 0, false) == 0;
    SinceSnoc([], Committed(0, 5, false), 0, 0, false);
    SinceSnoc([] + [Committed(0, 5, false)], Committed(0, 5, false), 0, 0, false);
  }
}
