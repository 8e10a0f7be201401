/** What sessions do to the accounts of mandates (x402/session.go): opening reserves the whole budget, a
    settlement commits it, and nothing else releases it. */
module SessionReservations {
  import opened Common
  import opened MandateAccounts
  import opened Policy
  import opened Gateway
  import opened Sessions
  import Bounds = MandateBounds
  import Token = Stablecoin

  function Reserved(accounts: Accounts, id: MandateId): map<Nonce, Spend> { AccountOf(accounts, id).reserved }

  predicate Under(p: Payment, id: MandateId, n: Nonce) { p.mandate.Some? && p.mandate.value.id == id
      && p.auth.nonce == n }

  // ---- One opening ----

  /** What an opening does to the accounts, and when it opens a session. */
  lemma {:induction false} OpeningIs(w: World, cfg: Config, sid: SessionId, p: Payment, middle: seq<Decision>)
    ensures var w' := OpenStep(w, cfg, sid, p, middle);
            var held := HeldAtOpening(w, cfg, p, middle);
            && (held ==> p.mandate.Some? && Reserved(w'.accounts, p.mandate.value.id)
                                           == Reserved(w.accounts,
                                                       p.mandate.value.id)[p.auth.nonce := Spend(w.now, p.auth.value)])
            && (forall id: MandateId :: !held || id != p.mandate.value.id ==>
                Reserved(w'.accounts, id) == Reserved(w.accounts, id))
            && w'.held == (if held
                           && !Large(cfg, p.auth.value) then w.held + [Held(sid, Opened(p, cfg.price), 1, [], false)]
                                else w.held)
            && w'.refused == (if held && Large(cfg, p.auth.value) then w.refused + [p] else w.refused)
            && w'.token == w.token && w'.now == w.now && w'.revoked == w.revoked && w'.settlements == w.settlements
  {
    var r := RequestOf(cfg, p);
    SettlesIffHeld(cfg.settings, w.revoked, w.accounts, r, w.now);
    HeldIsDelivered(cfg.settings, w.revoked, w.accounts, r, w.now);
    HeldFits(cfg.settings, w.revoked, w.accounts, r, w.now);
    hide Decide, Holds, FirstVeto, VerdictOf, VerifyPayment;
  }

  lemma {:induction false} HeldFits(settings: Settings, revoked: Revocations, accounts: Accounts, r: Request, now: int)
    ensures Holds(settings, revoked, accounts, r, now) ==>
              && r.mandate.Some?
              && VerdictOf(AccountOf(accounts, r.mandate.value.id), r.mandate.value, r.amount, now, r.confirmed) == Fits
  {
    hide VerdictOf;
  }

  /** An attempt to open leaves a reservation exactly when the mandate policy held the payment; the
      session opens exactly when, besides, its budget is below DeferAbove. So an attempt that is refused
      leaves a reservation behind exactly when the mandate policy held a large budget. */
  lemma {:induction false} RefusedOpenReservesIff(w: World, cfg: Config, sid: SessionId, p: Payment, m: Mandate,
      middle: seq<Decision>)
    requires p.mandate == Some(m) && p.auth.nonce !in Reserved(w.accounts, m.id)
    ensures var w' := OpenStep(w, cfg, sid, p, middle);
            var held := HeldAtOpening(w, cfg, p, middle);
            var opens := |w'.held| > |w.held|;
            && (p.auth.nonce in Reserved(w'.accounts, m.id) <==> held)
            && (opens <==> held && !Large(cfg, p.auth.value))
            && (!opens && p.auth.nonce in Reserved(w'.accounts, m.id) <==> held && Large(cfg, p.auth.value))
  {
    hide OpenStep, HeldAtOpening;
    OpeningIs(w, cfg, sid, p, middle);
  }

  // ---- One attempt to settle ----

  lemma {:induction false} CountedFrees(accounts: Accounts, p: Payment, now: int, ok: bool, id: MandateId)
    ensures Reserved(Counted(accounts, p, now, ok), id) ==
              if ok && p.mandate.Some? && p.mandate.value.id == id then Reserved(accounts, id) - {p.auth.nonce}
              else Reserved(accounts, id)
  {
    hide Pruned, MaxWindow;
  }

  /** A session that is closed or runs out gives up its reservation exactly when its settlement succeeds:
      executed, reported and written to the journal. */
  lemma {:induction false} OnlySuccessFrees(w: World, cfg: Config, k: nat, close: bool, env: Env, m: Mandate)
    requires k < |w.held| && !w.held[k].session.settled && w.held[k].session.p.mandate == Some(m)
    requires close || !MayDraw(w.held[k].session, cfg.price, UnixSeconds(w.now))
    requires w.held[k].session.p.auth.nonce in Reserved(w.accounts, m.id)
    ensures var p := w.held[k].session.p;
            p.auth.nonce !in Reserved(HandleStep(w, cfg, k, close, env).accounts, m.id) <==>
              env.included && Sessions.Submitted(w.token, cfg, w.now, p).Done? && env.reported && env.persisted
  {
    hide Sessions.Submitted, MayDraw, Counted, Token.Transfer;
    var p := w.held[k].session.p;
    CountedFrees(w.accounts, p, w.now, SettleSession(w.token, cfg, w.now, w.held[k].session, env).ok, m.id);
  }

  // ---- Whole runs ----

  predicate OpenAt(held: seq<Held>, k: nat, id: MandateId, n: Nonce) {
    k < |held| && !held[k].session.settled && Under(held[k].session.p, id, n)
  }

  /** A session that is not settled, or a refused opening, to which the reservation belongs. */
  ghost predicate Owned(w: World, id: MandateId, n: Nonce, amount: nat) {
    || (exists k: nat :: OpenAt(w.held, k, id, n) && w.held[k].session.p.auth.value == amount)
    || (exists j: nat :: j < |w.refused| && Under(w.refused[j], id, n) && w.refused[j].auth.value == amount)
  }

  /** A session of the same nonce under the same mandate has settled. */
  ghost predicate SettledUnder(held: seq<Held>, id: MandateId, n: Nonce) {
    exists k: nat :: k < |held| && held[k].session.settled && Under(held[k].session.p, id, n)
  }

  ghost predicate OwnersKnown(w: World) {
    forall id: MandateId, n: Nonce :: n in Reserved(w.accounts, id) ==>
      Owned(w, id, n, Reserved(w.accounts, id)[n].amount)
  }

  /** Every owner has its reservation, unless a settlement under the same nonce took it. */
  ghost predicate OwnersServed(w: World) {
    && (forall k: nat :: k < |w.held| && !w.held[k].session.settled ==> Provided(w, w.held[k].session.p))
    && (forall j: nat :: j < |w.refused| ==> Provided(w, w.refused[j]))
  }

  ghost predicate Provided(w: World, p: Payment) {
    && p.mandate.Some?
    && (p.auth.nonce in Reserved(w.accounts, p.mandate.value.id)
        || SettledUnder(w.held, p.mandate.value.id, p.auth.nonce))
  }

  ghost predicate RefusedLarge(w: World, cfg: Config) {
    forall j: nat :: j < |w.refused| ==> Large(cfg, w.refused[j].auth.value)
  }

  ghost predicate Accounted(w: World, cfg: Config) { OwnersKnown(w) && OwnersServed(w) && RefusedLarge(w, cfg) }

  /** One more session, or one more refused opening, with its reservation. */
  lemma {:induction false} OpeningOwned(w: World, w': World, p: Payment, id: MandateId, n: Nonce)
    requires OwnersKnown(w) && n in Reserved(w'.accounts, id)
    requires w'.held == w.held
               || (|w'.held| > 0 && w.held == Init(w'.held) && !Last(w'.held).session.settled
                   && Last(w'.held).session.p == p)
    requires w'.refused == w.refused || w'.refused == w.refused + [p]
    requires Under(p, id, n) ==>
               |w'.held| + |w'.refused| > |w.held| + |w.refused| && Reserved(w'.accounts, id)[n].amount == p.auth.value
    requires !Under(p, id, n) ==>
               n in Reserved(w.accounts, id) && Reserved(w'.accounts, id)[n] == Reserved(w.accounts, id)[n]
    ensures Owned(w', id, n, Reserved(w'.accounts, id)[n].amount)
  {
    var amount := Reserved(w'.accounts, id)[n].amount;
    if Under(p, id, n) {
      if |w'.held| > |w.held| {
        assert OpenAt(w'.held, |w.held|, id, n);
      } else {
        assert w'.refused[|w.refused|] == p;
      }
    } else if k: nat :| OpenAt(w.held, k, id, n) && w.held[k].session.p.auth.value == amount {
      assert OpenAt(w'.held, k, id, n);
    } else {
      var j: nat :| j < |w.refused| && Under(w.refused[j], id, n) && w.refused[j].auth.value == amount;
      assert w'.refused[j] == w.refused[j];
    }
  }

  lemma {:induction false} ProvidedStays(w: World, w': World, p: Payment)
    requires Provided(w, p)
    requires p.mandate.Some? ==>
               p.auth.nonce in Reserved(w.accounts, p.mandate.value.id) ==>
                 || p.auth.nonce in Reserved(w'.accounts, p.mandate.value.id)
                 || SettledUnder(w'.held, p.mandate.value.id, p.auth.nonce)
    requires |w.held| <= |w'.held| && forall k: nat :: k < |w.held| && w.held[k].session.settled ==>
               w'.held[k] == w.held[k]
    ensures Provided(w', p)
  {
    var id, n := p.mandate.value.id, p.auth.nonce;
    if SettledUnder(w.held, id, n) {
      var k: nat :| k < |w.held| && w.held[k].session.settled && Under(w.held[k].session.p, id, n);
      assert w'.held[k].session.settled && Under(w'.held[k].session.p, id, n);
    }
  }

  lemma {:induction false} AccountedOpen(w: World, cfg: Config, sid: SessionId, p: Payment, middle: seq<Decision>)
    requires Accounted(w, cfg)
    ensures Accounted(OpenStep(w, cfg, sid, p, middle), cfg)
  {
    hide OpenStep, HeldAtOpening, Owned, Provided, VerifyPayment;
    var w' := OpenStep(w, cfg, sid, p, middle);
    OpeningIs(w, cfg, sid, p, middle);
    if HeldAtOpening(w, cfg, p, middle) {
      InitOfSnoc(w.held, Held(sid, Opened(p, cfg.price), 1, [], false));
      forall id: MandateId, n: Nonce | n in Reserved(w'.accounts, id)
        ensures Owned(w', id, n, Reserved(w'.accounts, id)[n].amount)
      {
        OpeningOwned(w, w', p, id, n);
      }
      OpeningServed(w, w', p);
    } else {
      OpeningNothing(w, w');
    }
  }

  /** Nothing reserved, nothing opened, nothing refused. */
  lemma {:induction false} OpeningNothing(w: World, w': World)
    requires OwnersKnown(w) && OwnersServed(w) && w'.held == w.held && w'.refused == w.refused
    requires forall id: MandateId :: Reserved(w'.accounts, id) == Reserved(w.accounts, id)
    ensures OwnersKnown(w') && OwnersServed(w')
  {
    forall id: MandateId, n: Nonce | n in Reserved(w'.accounts, id)
      ensures Owned(w', id, n, Reserved(w'.accounts, id)[n].amount)
    {
      assert Owned(w, id, n, Reserved(w.accounts, id)[n].amount);
    }
    forall k: nat | k < |w'.held| && !w'.held[k].session.settled
      ensures Provided(w', w'.held[k].session.p)
    {
      ProvidedStays(w, w', w.held[k].session.p);
    }
    forall j: nat | j < |w'.refused|
      ensures Provided(w', w'.refused[j])
    {
      ProvidedStays(w, w', w.refused[j]);
    }
  }

  lemma {:induction false} OpeningServed(w: World, w': World, p: Payment)
    requires OwnersServed(w) && p.mandate.Some?
    requires w'.held == w.held || (|w'.held| > 0 && w.held == Init(w'.held) && Last(w'.held).session.p == p)
    requires w'.refused == w.refused || w'.refused == w.refused + [p]
    requires Reserved(w'.accounts, p.mandate.value.id) ==
               Reserved(w.accounts, p.mandate.value.id)[p.auth.nonce := Spend(w.now, p.auth.value)]
    requires forall id: MandateId :: id != p.mandate.value.id ==> Reserved(w'.accounts, id) == Reserved(w.accounts, id)
    ensures OwnersServed(w')
  {
    assert Provided(w', p);
    forall k: nat | k < |w'.held| && !w'.held[k].session.settled
      ensures Provided(w', w'.held[k].session.p)
    {
      if k < |w.held| {
        assert w'.held[k] == w.held[k];
        ProvidedStays(w, w', w.held[k].session.p);
      }
    }
    forall j: nat | j < |w'.refused|
      ensures Provided(w', w'.refused[j])
    {
      if j < |w.refused| {
        assert w'.refused[j] == w.refused[j];
        ProvidedStays(w, w', w.refused[j]);
      }
    }
  }

  /** What a call on a session does, as far as reservations go. */
  lemma {:induction false} HandlingIs(w: World, cfg: Config, k: nat, close: bool, env: Env)
    requires k < |w.held|
    ensures var w' := HandleStep(w, cfg, k, close, env);
            var h := w.held[k];
            && w'.refused == w.refused
            && (h.session.settled ==> w' == w)
            && (!h.session.settled ==>
                  && |w'.held| == |w.held| && w'.held == w.held[k := w'.held[k]] && w'.held[k].session.p == h.session.p
                  && forall id: MandateId :: Reserved(w'.accounts, id) ==
                       if w'.held[k].session.settled && h.session.p.mandate.Some? && h.session.p.mandate.value.id == id
                       then Reserved(w.accounts, id) - {h.session.p.auth.nonce} else Reserved(w.accounts, id))
  {
    hide SettleSession, MayDraw, Counted, LinesAfter, Reserved;
    var h := w.held[k];
    var c := SettleSession(w.token, cfg, w.now, h.session, env);
    forall id: MandateId
      ensures Reserved(Counted(w.accounts, h.session.p, w.now, c.ok), id) ==
                if c.ok && h.session.p.mandate.Some? && h.session.p.mandate.value.id == id
                then Reserved(w.accounts, id) - {h.session.p.auth.nonce} else Reserved(w.accounts, id)
    {
      CountedFrees(w.accounts, h.session.p, w.now, c.ok, id);
    }
  }

  lemma {:induction false} HandlingOwned(w: World, w': World, k: nat, id: MandateId, n: Nonce)
    requires OwnersKnown(w) && k < |w.held| && !w.held[k].session.settled && w'.refused == w.refused
    requires |w'.held| == |w.held| && w'.held == w.held[k := w'.held[k]] && w'.held[k].session.p == w.held[k].session.p
    requires n in Reserved(w'.accounts, id) && n in Reserved(w.accounts, id)
    requires Reserved(w'.accounts, id)[n] == Reserved(w.accounts, id)[n]
    requires w'.held[k].session.settled ==> !Under(w.held[k].session.p, id, n)
    ensures Owned(w', id, n, Reserved(w'.accounts, id)[n].amount)
  {
    var amount := Reserved(w.accounts, id)[n].amount;
    if i: nat :| OpenAt(w.held, i, id, n) && w.held[i].session.p.auth.value == amount {
      assert OpenAt(w'.held, i, id, n);
    }
  }

  lemma {:induction false} HandlingServed(w: World, w': World, k: nat)
    requires OwnersServed(w) && k < |w.held| && !w.held[k].session.settled && w'.refused == w.refused
    requires |w'.held| == |w.held| && w'.held == w.held[k := w'.held[k]] && w'.held[k].session.p == w.held[k].session.p
    requires forall id: MandateId :: Reserved(w'.accounts, id) ==
               if w'.held[k].session.settled && w.held[k].session.p.mandate.Some?
                   && w.held[k].session.p.mandate.value.id == id
               then Reserved(w.accounts, id) - {w.held[k].session.p.auth.nonce} else Reserved(w.accounts, id)
    ensures OwnersServed(w')
  {
    var p := w.held[k].session.p;
    assert w'.held[k].session.settled && p.mandate.Some? ==> SettledUnder(w'.held, p.mandate.value.id, p.auth.nonce)
      by {
      assert p.mandate.Some? ==> Under(w'.held[k].session.p, p.mandate.value.id, p.auth.nonce);
    }
    forall i: nat | i < |w'.held| && !w'.held[i].session.settled
      ensures Provided(w', w'.held[i].session.p)
    {
      ProvidedStays(w, w', w.held[i].session.p);
    }
    forall j: nat | j < |w'.refused|
      ensures Provided(w', w'.refused[j])
    {
      ProvidedStays(w, w', w.refused[j]);
    }
  }

  lemma {:induction false} AccountedHandle(w: World, cfg: Config, k: nat, close: bool, env: Env)
    requires Accounted(w, cfg) && k < |w.held|
    ensures Accounted(HandleStep(w, cfg, k, close, env), cfg)
  {
    var w' := HandleStep(w, cfg, k, close, env);
    HandlingIs(w, cfg, k, close, env);
    hide HandleStep, Owned, Provided;
    if !w.held[k].session.settled {
      forall id: MandateId, n: Nonce | n in Reserved(w'.accounts, id)
        ensures Owned(w', id, n, Reserved(w'.accounts, id)[n].amount)
      {
        HandlingOwned(w, w', k, id, n);
      }
      HandlingServed(w, w', k);
    }
  }

  lemma {:induction false} AccountedKept(w: World, cfg: Config, step: Sessions.Step)
    requires Accounted(w, cfg)
    ensures Accounted(Sessions.Next(w, cfg, step), cfg)
  {
    hide OpenStep, HandleStep, OwnersKnown, OwnersServed, RefusedLarge;
    match step
    case Open(id, p, middle) => AccountedOpen(w, cfg, id, p, middle);
    case Handle(k, close, env) =>
      if k < |w.held| {
        AccountedHandle(w, cfg, k, close, env);
      }
    case _ => Elsewhere(w, Sessions.Next(w, cfg, step), cfg);
  }

  lemma {:induction false} Elsewhere(w: World, w': World, cfg: Config)
    requires Accounted(w, cfg) && w'.held == w.held && w'.refused == w.refused && w'.accounts == w.accounts
    ensures Accounted(w', cfg)
  {
    OpeningNothing(w, w');
  }

  lemma {:induction false} RunAccounted(token: Token.TokenState, now: int, cfg: Config, steps: seq<Sessions.Step>)
    ensures Accounted(Run(Begun(token, now), cfg, steps), cfg)
  {
    if steps != [] {
      hide Accounted, Sessions.Next;
      RunAccounted(token, now, cfg, Init(steps));
      AccountedKept(Run(Begun(token, now), cfg, Init(steps)), cfg, Last(steps));
    }
  }

  /** In every reachable state each reservation is the whole budget of a session that has not settled, or of
      an opening that was refused for its size; and unless a session has settled under the same nonce
      and mandate, each of those has its reservation. So a refused opening, and a session given up
      after a failed settlement, hold their budget for good. */
  lemma {:induction false} SessionReservationsExact(token: Token.TokenState, now: int, cfg: Config,
      steps: seq<Sessions.Step>, id: MandateId, n: Nonce)
    ensures var w := Run(Begun(token, now), cfg, steps);
            && (n in Reserved(w.accounts, id) ==> Owned(w, id, n, Reserved(w.accounts, id)[n].amount))
            && (!SettledUnder(w.held, id, n) ==>
                (n in Reserved(w.accounts, id) <==> exists amount: nat :: Owned(w, id, n, amount)))
            && RefusedLarge(w, cfg)
  {
    hide Run, Reserved;
    RunAccounted(token, now, cfg, steps);
    var w := Run(Begun(token, now), cfg, steps);
    if amount: nat :| Owned(w, id, n, amount) && !SettledUnder(w.held, id, n) {
      if k: nat :| OpenAt(w.held, k, id, n) && w.held[k].session.p.auth.value == amount {
        assert Provided(w, w.held[k].session.p);
      } else {
        var j: nat :| j < |w.refused| && Under(w.refused[j], id, n) && w.refused[j].auth.value == amount;
        assert Provided(w, w.refused[j]);
      }
    }
  }

  // ---- What it costs ----

  /** The account after more operations under the mandate. */
  ghost function Later(t: Bounds.Tracked, m: Mandate, events: seq<Bounds.Event>): Bounds.Tracked {
    if events == [] then t else Bounds.Step(Later(t, m, Init(events)), m, Last(events))
  }

  predicate Touches(op: Bounds.Op, nonce: Nonce) {
    match op
    case Reserving(n, _, _) => n == nonce
    case Committing(n) => n == nonce
    case Releasing(n) => n == nonce
  }

  /** What is left behind stays for as long as no payment carries its nonce again. */
  lemma {:induction false} ReservationStays(t: Bounds.Tracked, m: Mandate, events: seq<Bounds.Event>, nonce: Nonce)
    requires nonce in t.acct.reserved
    requires forall i :: 0 <= i < |events| ==> !Touches(events[i].op, nonce)
    ensures var t' := Later(t, m, events);
            nonce in t'.acct.reserved && t'.acct.reserved[nonce] == t.acct.reserved[nonce]
  {
    if events != [] {
      hide VerdictOf, Pruned, MaxWindow;
      assert Last(events) == events[|events| - 1];
      assert forall i :: 0 <= i < |Init(events)| ==> Init(events)[i] == events[i];
      ReservationStays(t, m, Init(events), nonce);
    }
  }

  /** Until then, whatever happens and however long after, a payment fits the budget only if it fits
      into what the reservation leaves of it. */
  lemma {:induction false} BudgetIsLost(t: Bounds.Tracked, m: Mandate, events: seq<Bounds.Event>, nonce: Nonce,
      amount: nat, now: int)
    requires nonce in t.acct.reserved && m.budgetAmount > 0
    requires forall i :: 0 <= i < |events| ==> !Touches(events[i].op, nonce)
    ensures BudgetAllows(Later(t, m, events).acct, m, amount, now) ==>
              amount <= m.budgetAmount - t.acct.reserved[nonce].amount
  {
    hide AmountFrom, WindowDur;
    ReservationStays(t, m, events, nonce);
    var reserved := Later(t, m, events).acct.reserved;
    OneWithinAll(reserved, nonce);
  }

  lemma {:induction false} OneWithinAll(reserved: map<Nonce, Spend>, nonce: Nonce)
    requires nonce in reserved
    ensures reserved[nonce].amount <= ReservedAmount(reserved)
  {
    SumBoundsOne(Amounts(reserved), nonce);
  }

  // ---- A run ----

  /** Ten and more are deferred. */
  const Till: Config := Config(2, 1, 5, Settings(false, 10), false, true, 9)

  /** The mandate of agent 1: ten at most, ever. */
  const Terms: Mandate := Mandate(7, 8, 1, 0, [], [], 0, 1000, 10, 0, 0, 0)

  const Purse: Token.TokenState :=
    Token.TokenState(Token.Controls(9, false, {}, false, {}, 0), 20, map[1 := 20], map[], {})

  const Morning: World := Begun(Purse, 100 * SECOND)

  function Session(nonce: Nonce, amount: Token.Word): Payment {
    Payment(Token.Authorization(1, 2, amount, 0, 1000, nonce), 1, true, true, Some(Terms), true, false, "")
  }

  const TooLarge: Sessions.Step := Open(1, Session(5, 10), [])
  const Evening: Sessions.Step := Sessions.Tick(900 * SECOND)
  const Small: Sessions.Step := Open(2, Session(6, 1), [])

  lemma {:induction false} Looks(w: World, p: Payment)
    requires w.token == Purse && (w.now == 100 * SECOND || w.now == 900 * SECOND) && w.revoked == {}
    requires p == Session(5, 10) || p == Session(6, 1)
    ensures Considered(w, Till, p)
    ensures HeldAtOpening(w, Till, p, []) <==>
              VerdictOf(AccountOf(w.accounts, 7), Terms, p.auth.value, w.now, false) == Fits
  {
    assert [AlwaysVerify(true)][1..] == [];
    assert [AlwaysVerify(true)] + [] == [AlwaysVerify(true)];
    hide VerdictOf;
  }

  lemma {:induction false} FitsIff(acct: Account, amount: nat, now: int)
    ensures VerdictOf(acct, Terms, amount, now, false) == Fits <==>
              AmountFrom(acct.spends, now - ALL_TIME) + ReservedAmount(acct.reserved) + amount <= 10
  {}

  lemma {:induction false} NothingReserved()
    ensures ReservedAmount(map[]) == 0
  {
    assert Amounts(map[]) == map[];
    SumEmpty();
  }

  lemma {:induction false} TenReserved(at: int)
    ensures ReservedAmount(map[][5 := Spend(at, 10)]) == 10
  {
    NothingReserved();
    ReservedAfterPut(map[], 5, Spend(at, 10));
  }

  /** The large opening, with nothing reserved before. */
  lemma {:induction false} LargeRefused() returns (w: World)
    ensures w == Sessions.Next(Morning, Till, TooLarge)
    ensures w.held == [] && w.refused == [Session(5, 10)]
    ensures Reserved(w.accounts, 7) == map[][5 := Spend(100 * SECOND, 10)]
    ensures w.token == Purse && w.now == 100 * SECOND && w.revoked == {} && w.settlements == []
  {
    hide OpenStep, HeldAtOpening, VerdictOf, Considered, Run;
    NothingReserved();
    Looks(Morning, Session(5, 10));
    FitsIff(NewAccount, 10, 100 * SECOND);
    OpeningIs(Morning, Till, 1, Session(5, 10), []);
    w := OpenStep(Morning, Till, 1, Session(5, 10), []);
    assert [] + [Session(5, 10)] == [Session(5, 10)];
  }

  /** A small opening goes by what is reserved. */
  lemma {:induction false} SmallOpensIff(w: World)
    requires w.token == Purse && w.now == 900 * SECOND && w.revoked == {}
    requires AmountFrom(AccountOf(w.accounts, 7).spends, 900 * SECOND - ALL_TIME) == 0
               || ReservedAmount(Reserved(w.accounts, 7)) == 10
    ensures var w' := OpenStep(w, Till, 2, Session(6, 1), []);
            if ReservedAmount(Reserved(w.accounts, 7)) <= 9 then |w'.held| == |w.held| + 1
            else w'.held == w.held && w'.refused == w.refused && Reserved(w'.accounts, 7) == Reserved(w.accounts, 7)
                 && w'.token == w.token && w'.settlements == w.settlements
  {
    hide OpenStep, HeldAtOpening, VerdictOf, Considered, AmountFrom;
    Looks(w, Session(6, 1));
    FitsIff(AccountOf(w.accounts, 7), 1, 900 * SECOND);
    OpeningIs(w, Till, 2, Session(6, 1), []);
  }

  /** A session for ten is refused, because it would have to wait, and yet takes the whole budget: much later
      a session for one is refused although nothing was ever paid. Alone it opens. */
  lemma {:induction false} RefusedOpeningBlocks()
    ensures var w := Run(Morning, Till, [TooLarge, Evening, Small]);
            && w.held == [] && w.settlements == [] && w.token == Purse && w.refused == [Session(5, 10)]
            && Reserved(w.accounts, 7) == map[5 := Spend(100 * SECOND, 10)]
    ensures |Run(Morning, Till, [Evening, Small]).held| == 1
  {
    hide OpenStep, Reserved, ReservedAmount;
    var w1 := LargeRefused();
    TenReserved(100 * SECOND);
    SmallOpensIff(Sessions.Next(w1, Till, Evening));
    ThreeSteps(TooLarge, Evening, Small);
    assert map[][5 := Spend(100 * SECOND, 10)] == map[5 := Spend(100 * SECOND, 10)];
    SmallAlone();
  }

  lemma {:induction false} SmallAlone()
    ensures |Run(Morning, Till, [Evening, Small]).held| == 1
  {
    hide OpenStep;
    NothingReserved();
    var w := Sessions.Next(Morning, Till, Evening);
    SmallOpensIff(w);
    TwoSteps(Evening, Small);
  }

  lemma {:induction false} TwoSteps(a: Sessions.Step, b: Sessions.Step)
    ensures Run(Morning, Till, [a, b]) == Sessions.Next(Sessions.Next(Morning, Till, a), Till, b)
  {
    hide Sessions.Next;
    assert Init([a, b]) == [a] && Init([a]) == [];
    assert Run(Morning, Till, [a]) == Sessions.Next(Run(Morning, Till, []), Till, a);
  }

  lemma {:induction false} ThreeSteps(a: Sessions.Step, b: Sessions.Step, c: Sessions.Step)
    ensures Run(Morning, Till, [a, b, c]) ==
              Sessions.Next(Sessions.Next(Sessions.Next(Morning, Till, a), Till, b), Till, c)
  {
    hide Sessions.Next;
    TwoSteps(a, b);
    assert Init([a, b, c]) == [a, b];
  }
}
