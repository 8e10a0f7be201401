/** The two enforcers of one mandate: what the gateway's sliding-window accounting commits, the
    contract's fixed window accepts. The converse fails, and so does agreement at one instant. */
module Parity {
  import opened Common
  import opened MandateAccounts
  import opened MandateBounds
  import Policy
  import DelegatedSpend
  import Stablecoin

  /** A mandate registered on chain with the same terms. Resources stay off chain, so there are
      none, and both caps are real ones: the gateway reads zero as "no cap". */
  predicate SameTerms(m: Mandate, o: DelegatedSpend.OnchainMandate) {
    && m.delegator == o.delegator
    && m.agent == o.terms.agent
    && m.maxAmountPerPayment == o.terms.maxAmountPerPayment > 0
    && m.validAfter == o.terms.validAfter
    && m.validBefore == o.terms.validBefore
    && m.budgetAmount == o.terms.budgetAmount > 0
    && m.budgetWindowSeconds == o.terms.budgetWindowSeconds <= LONGEST_WINDOW_SECONDS
    && m.allowedPayees == o.terms.payees
    && m.allowedResources == []
  }

  function Seconds(at: int): nat {
    if at < 0 then 0 else at / SECOND
  }

  /** Off the first instant of validity, and only off it, a payment that passes the gateway's
      entitlement checks and cap is in the contract's scope. */
  lemma {:induction false} InScopeIff(m: Mandate, o: DelegatedSpend.OnchainMandate, revoked: Policy.Revocations,
      r: Policy.Request, now: int)
    requires SameTerms(m, o) && r.mandate == Some(m) && now >= 0
    requires Policy.Entitlement(revoked, r, now).None? && !Policy.OverCap(m, r) && !r.confirmed
    requires !o.revoked
    ensures r.payer.Some? && r.amount < Stablecoin.WORD_SPACE
    ensures DelegatedSpend.InScope(o, r.payer.value, Seconds(now), r.payTo, r.amount) <==> Seconds(now) != m.validAfter
  {}

  /** At that instant the two differ: the gateway admits every payment of the mandate within its cap,
      the contract none. */
  lemma {:induction false} FirstInstantDiffers(m: Mandate, o: DelegatedSpend.OnchainMandate, r: Policy.Request,
      now: int)
    requires SameTerms(m, o) && r.mandate == Some(m) && r.genuine && r.payer == Some(m.agent)
    requires m.validAfter < m.validBefore && (m.allowedPayees == [] || r.payTo in m.allowedPayees)
    requires now >= 0 && Seconds(now) == m.validAfter && r.amount <= m.maxAmountPerPayment
    ensures Policy.Entitlement({}, r, now).None? && !Policy.OverCap(m, r)
    ensures !DelegatedSpend.InScope(o, m.agent, Seconds(now), r.payTo, r.amount)
  {}

  /** A payment as it is replayed on chain, at the whole second of its commit. */
  datatype Payment = Payment(to: Address, amount: Stablecoin.Word)

  /** The mandate after replaying the committed payments on its budget, or None if one is refused. */
  function Replay(o: DelegatedSpend.OnchainMandate, h: seq<Committed>): Option<DelegatedSpend.OnchainMandate>
    requires forall c :: c in h ==> c.amount < Stablecoin.WORD_SPACE
  {
    if h == [] then Some(o)
    else
      assert forall c :: c in Init(h) ==> c in h;
      assert Last(h) in h;
      match Replay(o, Init(h))
      case None => None
      case Some(o') => DelegatedSpend.Charge(o', Seconds(Last(h).at), Last(h).amount)
  }

  /** History as the accounting produces it. */
  ghost predicate Chronological(h: seq<Committed>) {
    && (forall i :: 0 <= i < |h| ==> h[i].at >= 0)
    && (forall i, j :: 0 <= i < j < |h| ==> h[i].at <= h[j].at)
  }

  /** What the contract's counter means in the gateway's terms: the amount committed since the
      current fixed window began, a stretch that never exceeds the sliding window. */
  ghost predicate InStep(o: DelegatedSpend.OnchainMandate, h: seq<Committed>, registered: nat) {
    && registered <= o.windowStart
    && (h == [] ==> o.windowStart == registered)
    && o.windowSpent == Since(h, o.windowStart * SECOND, true)
    && (h != [] ==> o.windowStart <= Seconds(Last(h).at))
    && (h != [] && o.terms.budgetWindowSeconds > 0 ==>
          Seconds(Last(h).at) < o.windowStart + o.terms.budgetWindowSeconds)
    && (o.terms.budgetWindowSeconds == 0 ==> o.windowStart == registered)
  }

  lemma {:induction false} SecondsBounds(at: int)
    requires at >= 0
    ensures Seconds(at) * SECOND <= at < Seconds(at) * SECOND + SECOND
  {}

  lemma {:induction false} SecondsMonotone(a: int, b: int)
    requires 0 <= a <= b
    ensures Seconds(a) <= Seconds(b)
  {}

  /** When a payment opens a new fixed window, all earlier ones lie before that second. */
  lemma {:induction false} EarlierSecond(h: seq<Committed>, start: nat)
    requires Chronological(h) && (h != [] ==> Seconds(Last(h).at) < start)
    ensures Since(h, start * SECOND, true) == 0
  {
    if h != [] {
      var before := Init(h);
      assert Chronological(before) by {
        assert forall i :: 0 <= i < |before| ==> before[i] == h[i];
      }
      SecondsBounds(Last(h).at);
      if before != [] {
        assert Last(before) == h[|h| - 2] && h[|h| - 2].at <= h[|h| - 1].at;
        SecondsMonotone(Last(before).at, Last(h).at);
      }
      EarlierSecond(before, start);
    }
  }

  lemma {:induction false} SinceIsBetween(h: seq<Committed>, lo: int, hi: int)
    requires forall i :: 0 <= i < |h| ==> h[i].at <= hi
    ensures Since(h, lo, true) == Between(h, lo, hi, true)
  {
    if h != [] {
      assert forall i :: 0 <= i < |Init(h)| ==> Init(h)[i] == h[i];
      SinceIsBetween(Init(h), lo, hi);
    }
  }

  /** No interval of the sliding window holds more than the budget. */
  ghost predicate SlidingHolds(h: seq<Committed>, seconds: nat, budget: int) {
    forall lo, hi :: hi - lo <= WindowDur(seconds) ==> Between(h, lo, hi, true) <= budget
  }

  lemma {:induction false} SlidingHoldsInit(h: seq<Committed>, seconds: nat, budget: int)
    requires h != [] && SlidingHolds(h, seconds, budget)
    ensures SlidingHolds(Init(h), seconds, budget)
  {
    hide WindowDur;
    forall lo, hi | hi - lo <= WindowDur(seconds)
      ensures Between(Init(h), lo, hi, true) <= budget
    {
      assert Between(h, lo, hi, true) <= budget;
    }
  }

  /** One more payment: whatever the fixed window counts, the sliding window counts too. */
  lemma {:induction false} ChargeAccepted(o: DelegatedSpend.OnchainMandate, h: seq<Committed>, c: Committed,
      registered: nat)
    requires Chronological(h + [c]) && InStep(o, h, registered) && c.amount < Stablecoin.WORD_SPACE
    requires var w := o.terms.budgetWindowSeconds;
             w <= LONGEST_WINDOW_SECONDS && o.windowStart + w <= Stablecoin.MAX_WORD
    requires SlidingHolds(h + [c], o.terms.budgetWindowSeconds, o.terms.budgetAmount)
    requires registered <= Seconds(c.at)
    requires (o.terms.budgetWindowSeconds == 0 ==> c.at - registered * SECOND <= ALL_TIME)
    ensures var r := DelegatedSpend.Charge(o, Seconds(c.at), c.amount);
            && r.Some?
            && InStep(r.value, h + [c], registered)
            && r.value.terms == o.terms
            && r.value.windowStart <= if Seconds(c.at) < o.windowStart then o.windowStart else Seconds(c.at)
  {
    hide Since, Between, WindowDur, Seconds, Chronological, DelegatedSpend.Charge, DelegatedSpend.Rolled;
    var t := Seconds(c.at);
    var r := DelegatedSpend.Rolled(o, t);
    SnocOrder(h, c);
    SecondsBounds(c.at);
    RolledInStep(o, h, t, registered);
    SinceSnoc(h, c, r.windowStart * SECOND, c.at, true);
    WindowCovers(o.terms.budgetWindowSeconds, r.windowStart, t, c.at, registered);
    SinceIsBetween(h + [c], r.windowStart * SECOND, c.at);
    assert Between(h + [c], r.windowStart * SECOND, c.at, true) <= o.terms.budgetAmount;
    ChargeFits(o, t, c.amount);
    InitOfSnoc(h, c);
  }

  lemma {:induction false} ChargeFits(o: DelegatedSpend.OnchainMandate, t: nat, amount: Stablecoin.Word)
    requires o.windowStart + o.terms.budgetWindowSeconds <= Stablecoin.MAX_WORD
    requires DelegatedSpend.Rolled(o, t).windowSpent + amount <= o.terms.budgetAmount
    ensures DelegatedSpend.Rolled(o, t).terms == o.terms
    ensures var r := DelegatedSpend.Rolled(o, t);
            DelegatedSpend.Charge(o, t, amount) == Some(r.(windowSpent := r.windowSpent + amount))
  {}

  lemma {:induction false} RolledInStep(o: DelegatedSpend.OnchainMandate, h: seq<Committed>, t: nat, registered: nat)
    requires InStep(o, h, registered) && Chronological(h) && registered <= t
    requires h != [] ==> Seconds(Last(h).at) <= t
    ensures var r := DelegatedSpend.Rolled(o, t);
            && r.terms == o.terms
            && r.windowSpent == Since(h, r.windowStart * SECOND, true)
            && registered <= r.windowStart <= t
            && (o.terms.budgetWindowSeconds > 0 ==> t < r.windowStart + o.terms.budgetWindowSeconds)
            && (o.terms.budgetWindowSeconds == 0 ==> r.windowStart == registered)
  {
    hide Since;
    if DelegatedSpend.Rolled(o, t) != o {
      EarlierSecond(h, t);
    }
  }

  lemma {:induction false} SnocOrder(h: seq<Committed>, c: Committed)
    requires Chronological(h + [c])
    ensures Chronological(h) && c.at >= 0
    ensures forall i :: 0 <= i < |h + [c]| ==> (h + [c])[i].at <= c.at
    ensures h != [] ==> Seconds(Last(h).at) <= Seconds(c.at)
  {
    var h' := h + [c];
    assert h'[|h|] == c && forall i :: 0 <= i < |h| ==> h'[i] == h[i] && h'[i].at <= h'[|h|].at;
    if h != [] {
      assert h'[|h| - 1] == Last(h);
      SecondsMonotone(Last(h).at, c.at);
    }
  }

  /** From the start of the current fixed window to now is no longer than the sliding window. */
  lemma {:induction false} WindowCovers(w: nat, start: nat, t: nat, at: int, registered: nat)
    requires w <= LONGEST_WINDOW_SECONDS && t * SECOND <= at < t * SECOND + SECOND
    requires w > 0 ==> t < start + w
    requires w == 0 ==> start == registered && at - registered * SECOND <= ALL_TIME
    ensures at - start * SECOND <= WindowDur(w)
  {
    if w > 0 {
      assert WindowDur(w) == w * SECOND;
    }
  }

  /** The history fits the sliding window and starts when the contract's mandate does. */
  ghost predicate Covered(o: DelegatedSpend.OnchainMandate, h: seq<Committed>) {
    && Chronological(h)
    && SlidingHolds(h, o.terms.budgetWindowSeconds, o.terms.budgetAmount)
    && forall i :: 0 <= i < |h| ==>
         && o.windowStart <= Seconds(h[i].at) <= Stablecoin.MAX_WORD - LONGEST_WINDOW_SECONDS
         && (o.terms.budgetWindowSeconds == 0 ==> h[i].at - o.windowStart * SECOND <= ALL_TIME)
  }

  predicate WordSized(h: seq<Committed>) { forall c :: c in h ==> c.amount < Stablecoin.WORD_SPACE }

  lemma {:induction false} CoveredInit(o: DelegatedSpend.OnchainMandate, h: seq<Committed>)
    requires h != [] && Covered(o, h) && WordSized(h)
    ensures Covered(o, Init(h)) && WordSized(Init(h)) && Last(h).amount < Stablecoin.WORD_SPACE
    ensures o.windowStart <= Seconds(Last(h).at) <= Stablecoin.MAX_WORD - LONGEST_WINDOW_SECONDS
    ensures o.terms.budgetWindowSeconds == 0 ==> Last(h).at - o.windowStart * SECOND <= ALL_TIME
    ensures Init(h) + [Last(h)] == h
  {
    hide WindowDur, Between, Seconds, SlidingHolds;
    var before := Init(h);
    assert forall i :: 0 <= i < |before| ==> before[i] == h[i];
    assert forall c :: c in before ==> c in h;
    assert h[|h| - 1] == Last(h) && Last(h) in h;
    SlidingHoldsInit(h, o.terms.budgetWindowSeconds, o.terms.budgetAmount);
  }

  /** Every committed payment of a history that respects the sliding window is accepted by the
      fixed window, in order, at the seconds of the commits. */
  lemma {:induction false} ReplayAccepted(o: DelegatedSpend.OnchainMandate, h: seq<Committed>)
    requires o.windowSpent == 0 && WordSized(h) && Covered(o, h)
    requires o.terms.budgetWindowSeconds <= LONGEST_WINDOW_SECONDS
    requires o.windowStart <= Stablecoin.MAX_WORD - LONGEST_WINDOW_SECONDS
    ensures var r := Replay(o, h);
            && r.Some? && r.value.terms == o.terms && InStep(r.value, h, o.windowStart)
            && r.value.windowStart <= Stablecoin.MAX_WORD - LONGEST_WINDOW_SECONDS
  {
    if h != [] {
      assert Chronological(h) && SlidingHolds(h, o.terms.budgetWindowSeconds, o.terms.budgetAmount);
      CoveredInit(o, h);
      hide WindowDur, Since, Between, Seconds, SlidingHolds, InStep, Chronological, Covered, DelegatedSpend.Charge;
      ReplayAccepted(o, Init(h));
      ChargeAccepted(Replay(o, Init(h)).value, Init(h), Last(h), o.windowStart);
    }
  }

  /** The window and budget part of pay also accepts the committed payments at the times of their
      commits, for every interleaving of reserve, commit and release without confirmations. Its
      scope checks need not hold any more by then. */
  lemma {:induction false} ChargesFitAtCommits(m: Mandate, events: seq<Event>, o: DelegatedSpend.OnchainMandate)
    requires SameTerms(m, o) && o.windowSpent == 0
    requires Clocked(events) && (events != [] ==> events[0].now >= 0)
    requires forall e :: e in events && e.op.Reserving? ==> !e.op.skipBudget && e.op.amount < Stablecoin.WORD_SPACE
    requires forall e :: e in events ==>
               && o.windowStart <= Seconds(e.now) <= Stablecoin.MAX_WORD - LONGEST_WINDOW_SECONDS
               && (m.budgetWindowSeconds == 0 ==> e.now - o.windowStart * SECOND <= ALL_TIME)
    requires o.windowStart <= Stablecoin.MAX_WORD - LONGEST_WINDOW_SECONDS
    ensures var h := Run(m, events).history;
            (forall c :: c in h ==> c.amount < Stablecoin.WORD_SPACE) && Replay(o, h).Some?
  {
    hide WindowDur, Replay;
    var h := Run(m, events).history;
    HistoryTimes(m, events);
    HistoryReadings(m, events);
    HistoryAmounts(m, events);
    forall lo, hi | hi - lo <= WindowDur(m.budgetWindowSeconds)
      ensures Between(h, lo, hi, true) <= m.budgetAmount
    {
      BudgetHoldsUnconfirmed(m, events, lo, hi);
    }
    assert SlidingHolds(h, o.terms.budgetWindowSeconds, o.terms.budgetAmount);
    forall i | 0 <= i < |h|
      ensures o.windowStart <= Seconds(h[i].at) <= Stablecoin.MAX_WORD - LONGEST_WINDOW_SECONDS
      ensures o.terms.budgetWindowSeconds == 0 ==> h[i].at - o.windowStart * SECOND <= ALL_TIME
    {
      assert h[i] in h;
      var e :| e in events && e.now == h[i].at;
    }
    assert Covered(o, h) && WordSized(h);
    ReplayAccepted(o, h);
  }

  /** Committed payments carry clock readings of the run, in order. */
  lemma {:induction false} HistoryTimes(m: Mandate, events: seq<Event>)
    requires Clocked(events) && (events != [] ==> events[0].now >= 0)
    ensures var h := Run(m, events).history;
            Chronological(h) && forall i :: 0 <= i < |h| ==> events != [] && h[i].at <= Last(events).now
  {
    if events != [] {
      hide ReserveIn, CommitIn, VerdictOf;
      var before, e := Init(events), Last(events);
      assert Clocked(before) by {
        assert forall i :: 0 <= i < |before| ==> before[i] == events[i];
      }
      HistoryTimes(m, before);
      assert before != [] ==> Last(before) == events[|events| - 2] && before[0] == events[0];
      assert 0 <= events[0].now <= e.now;
    }
  }

  lemma {:induction false} HistoryReadings(m: Mandate, events: seq<Event>)
    ensures forall c :: c in Run(m, events).history ==> exists e :: e in events && e.now == c.at
  {
    if events != [] {
      hide ReserveIn, CommitIn, VerdictOf;
      var before, e := Init(events), Last(events);
      HistoryReadings(m, before);
      assert e in events && forall x :: x in before ==> x in events;
      forall c | c in Run(m, events).history
        ensures exists x :: x in events && x.now == c.at
      {
        if c in Run(m, before).history {
          var x :| x in before && x.now == c.at;
          assert x in events;
        } else {
          assert e.now == c.at;
        }
      }
    }
  }

  ghost predicate WordAmounts(reserved: map<Nonce, Spend>) {
    forall n :: n in reserved ==> reserved[n].amount < Stablecoin.WORD_SPACE
  }

  lemma {:induction false} WordAmountsPut(reserved: map<Nonce, Spend>, nonce: Nonce, s: Spend)
    requires WordAmounts(reserved) && s.amount < Stablecoin.WORD_SPACE
    ensures WordAmounts(reserved[nonce := s])
  {}

  lemma {:induction false} WordAmountsDrop(reserved: map<Nonce, Spend>, nonce: Nonce)
    requires WordAmounts(reserved)
    ensures WordAmounts(reserved - {nonce})
  {}

  lemma {:induction false} HistoryAmounts(m: Mandate, events: seq<Event>)
    requires forall e :: e in events && e.op.Reserving? ==> e.op.amount < Stablecoin.WORD_SPACE
    ensures forall c :: c in Run(m, events).history ==> c.amount < Stablecoin.WORD_SPACE
    ensures WordAmounts(Run(m, events).acct.reserved)
  {
    if events != [] {
      hide VerdictOf, WordAmounts, MaxWindow, Pruned;
      assert Last(events) in events && forall x :: x in Init(events) ==> x in events;
      HistoryAmounts(m, Init(events));
      var t := Run(m, Init(events));
      var now := Last(events).now;
      match Last(events).op
      case Reserving(nonce, amount, skip) => WordAmountsPut(t.acct.reserved, nonce, Spend(now, amount));
      case Releasing(nonce) => WordAmountsDrop(t.acct.reserved, nonce);
      case Committing(nonce) =>
        WordAmountsDrop(t.acct.reserved, nonce);
        if nonce in t.acct.reserved {
          WordAmountsAt(t.acct.reserved, nonce);
        }
    } else {
      assert WordAmounts(map[]);
    }
  }

  lemma {:induction false} WordAmountsAt(reserved: map<Nonce, Spend>, nonce: Nonce)
    requires WordAmounts(reserved) && nonce in reserved
    ensures reserved[nonce].amount < Stablecoin.WORD_SPACE
  {}

  /** The converse fails: around a reset the contract accepts two full budgets that the gateway's
      sliding window would not. */
  lemma {:induction false} FixedWindowIsLooser(o: DelegatedSpend.OnchainMandate)
    requires o.windowStart == 0 && o.windowSpent == 0
    requires o.terms.budgetAmount == 5 && o.terms.budgetWindowSeconds == 10
    ensures var h := [Committed(9 * SECOND, 5, false), Committed(10 * SECOND, 5, false)];
            && (forall c :: c in h ==> c.amount < Stablecoin.WORD_SPACE)
            && Replay(o, h).Some?
            && !SlidingHolds(h, 10, 5)
  {
    var c1, c2 := Committed(9 * SECOND, 5, false), Committed(10 * SECOND, 5, false);
    var h := [c1, c2];
    assert Init(h) == [c1] && Init([c1]) == [];
    assert Replay(o, []) == Some(o);
    assert Replay(o, [c1]) == DelegatedSpend.Charge(o, 9, 5) == Some(o.(windowSpent := 5));
    assert Replay(o, h) == DelegatedSpend.Charge(o.(windowSpent := 5), 10, 5);
    assert Between([c1], 9 * SECOND, 10 * SECOND, true) == 5 by {
      assert Between([], 9 * SECOND, 10 * SECOND, true) == 0;
    }
    assert Between(h, 9 * SECOND, 10 * SECOND, true) == 10;
    assert WindowDur(10) == 10 * SECOND;
  }
}
