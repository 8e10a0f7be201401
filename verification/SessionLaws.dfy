/** Exactly what each call on a session does (x402/session.go), in every reachable state: when a session
    opens, when a request is drawn, when the budget is settled, and where the value and the lines go. */
module SessionLaws {
  import opened Common
  import opened MandateAccounts
  import opened Gateway
  import opened Sessions
  import opened GatewayProvenance
  import Policy
  import TokenLaws
  import Token = Stablecoin

  // ---- The token's books stay balanced ----

  lemma {:induction false} SubmittedSolid(token: Token.TokenState, cfg: Config, now: int, p: Payment)
    requires Token.Solid(token) && Sessions.Submitted(token, cfg, now, p).Done?
    ensures Token.Solid(Sessions.Submitted(token, cfg, now, p).state)
  {
    var seconds := if now < 0 then 0 else Policy.UnixSeconds(now);
    var call := Token.Transaction(cfg.relayer, seconds, Token.DoSettle(p.auth, p.recovered, false));
    Token.SolidStays(token, call);
    hide Token.SettleAuthorization, Token.Solid;
  }

  lemma {:induction false} RefundSolid(token: Token.TokenState, cfg: Config, payer: Address, amount: nat)
    requires Token.Solid(token) && Refund(token, cfg, payer, amount).Done?
    ensures Token.Solid(Refund(token, cfg, payer, amount).state)
  {
    var call := Token.Transaction(cfg.payTo, 0, Token.DoTransfer(payer, amount));
    Token.SolidStays(token, call);
    hide Token.Transfer, Token.Solid;
  }

  lemma {:induction false} AttemptSolid(token: Token.TokenState, cfg: Config, now: int, s: Session, env: Env)
    requires Token.Solid(token) && s.spent <= s.budget
    ensures Token.Solid(SettleSession(token, cfg, now, s, env).token)
  {
    hide Sessions.Submitted, Refund, Token.Solid;
    var outcome := Sessions.Submitted(token, cfg, now, s.p);
    if outcome.Done? {
      SubmittedSolid(token, cfg, now, s.p);
      var unused := s.budget - s.spent;
      if unused > 0 && Refund(outcome.state, cfg, s.p.auth.from, unused).Done? {
        RefundSolid(outcome.state, cfg, s.p.auth.from, unused);
      }
    }
  }

  lemma {:induction false} StepSolid(w: World, cfg: Config, step: Sessions.Step)
    requires Token.Solid(w.token) && Sessions.Inv(w, cfg)
    ensures Token.Solid(Sessions.Next(w, cfg, step).token)
  {
    hide Token.Solid, SettleSession, MayDraw, Token.StateAfter, LinesAfter, Counted, Considered, HeldAtOpening,
         OncePerKey;
    match step
    case Handle(k, close, env) =>
      if k < |w.held| {
        assert Sound(w.held[k], cfg, w.token.used);
        AttemptSolid(w.token, cfg, w.now, w.held[k].session, env);
      }
    case Outside(call) => Token.SolidStays(w.token, call);
    case Open(id, p, middle) =>
      hide ChainDecide;
    case _ =>
  }

  lemma {:induction false} RunSolid(token: Token.TokenState, now: int, cfg: Config, steps: seq<Sessions.Step>)
    requires Token.Solid(token)
    ensures Token.Solid(Run(Begun(token, now), cfg, steps).token)
  {
    hide Sessions.Next, Token.Solid, Sessions.Inv;
    if steps != [] {
      RunSolid(token, now, cfg, Init(steps));
      RunInv(token, now, cfg, Init(steps));
      StepSolid(Run(Begun(token, now), cfg, Init(steps)), cfg, Last(steps));
    }
  }

  // ---- Opening ----

  /** A session opens exactly when refunds are possible and its payment is proper, licensed by its mandate for
      the whole budget, approved by every policy before, and below DeferAbove. It opens with one
      request served and the price of it spent. */
  lemma {:induction false} OpensExactly(w: World, cfg: Config, id: SessionId, p: Payment, middle: seq<Policy.Decision>)
    ensures var w' := Sessions.Next(w, cfg, Open(id, p, middle));
            var opens :=
              && cfg.hasRefunder
              && Proper(Books(w), cfg, p)
              && AllApprove(middle, |middle|)
              && Licensed(Books(w), cfg, p)
              && !(0 < cfg.settings.deferAbove <= p.auth.value);
            var session := Session(p, p.auth.value, cfg.price, Int64(p.auth.validBefore), false);
            && w'.held == (if opens then w.held + [Held(id, session, 1, [], false)] else w.held)
            && w'.store == (if opens then w.store[id := |w.held|] else w.store)
            && (w'.token, w'.now, w'.settlements, w'.revoked, w'.journal)
                 == (w.token, w.now, w.settlements, w.revoked, w.journal)
  {
    var g := Books(w);
    ProperIsVerified(g, cfg, p);
    VerifiedVeto(middle);
    FirstVetoOf(middle);
    LicensedIsHeld(g, cfg, p);
    Policy.SettlesIffHeld(cfg.settings, g.revoked, g.accounts, RequestOf(cfg, p), g.now);
    Policy.HeldIsDelivered(cfg.settings, g.revoked, g.accounts, RequestOf(cfg, p), g.now);
    hide Proper, Licensed, VerifyPayment, Policy.Holds, Policy.FirstVeto, Policy.Decide, DefersEarly, HeldAtOpening;
  }

  // ---- A call on a session ----

  /** What one call does with an open session. `executed` says that the authorization is executed, `settles`
      that the attempt succeeds, and `refunds` that the unused budget goes back. */
  datatype Effect = Effect(draws: bool, executed: bool, settles: bool, refunds: bool)

  /** The price still fits, and the authorization does not expire within the margin. */
  predicate Draws(w: World, cfg: Config, s: Session, close: bool) {
    var expiry := Int64(s.p.auth.validBefore);
    && !close
    && (expiry == 0 || w.now / SECOND + SESSION_MARGIN < expiry)
    && s.spent + cfg.price <= s.p.auth.value
  }

  /** An included refund always goes through: the chain has just moved the budget the other way. */
  predicate EffectIs(e: Effect, w: World, cfg: Config, s: Session, close: bool, env: Env) {
    && e.draws == Draws(w, cfg, s, close)
    && e.executed == (!e.draws && env.included && Executable(Books(w), cfg, s.p))
    && e.settles == (e.executed && env.reported && env.persisted)
    && e.refunds == (e.settles && s.spent < s.p.auth.value && env.refund != NotIncluded)
  }

  /** The lines a settlement leaves: its own, and one for what became of the unused budget. */
  function Lines(journal: seq<Entry>, e: Effect, w: World, s: Session, env: Env): seq<Entry> {
    var a := s.p.auth;
    if !e.settles then journal
    else
      var settled := AppendEntry(
        journal, Entry(OfTx(env.tx), SettlementBody(a.from, a.value, w.now / SECOND)), true);
      if a.value <= s.spent then settled
      else if e.refunds && env.refund == Reported
      then AppendEntry(settled, Entry(OfTx(env.refundTx), RefundBody(a.from, a.value - s.spent)), env.refundLogged)
      else AppendEntry(settled, Entry(OfPending(env.tx), RefundPendingBody(a.from, a.value)), env.refundLogged)
  }

  ghost predicate Does(e: Effect, w: World, cfg: Config, k: nat, close: bool, env: Env, w': World)
    requires k < |w.held|
  {
    var h, s := w.held[k], w.held[k].session;
    var a := s.p.auth;
    && |w'.held| == |w.held|
    && (forall j: nat :: j < |w.held| && j != k ==> w'.held[j] == w.held[j])
    && w'.held[k].session ==
         Session(s.p, s.budget, s.spent + (if e.draws then cfg.price else 0), s.validBefore, e.settles)
    && w'.held[k].id == h.id
    && w'.held[k].served == h.served + (if e.draws then 1 else 0)
    && w'.store == (if !e.draws && (close || e.settles) then w.store - {h.id} else w.store)
    && w'.settlements == w.settlements + (if e.settles then [Record(a.from, a.value, env.tx, w.now)] else [])
    && w'.journal == Lines(w.journal, e, w, s, env)
    && (forall x: Address ::
          w'.token.BalanceOf(x) ==
            w.token.BalanceOf(x)
            + (if e.executed && x == a.to then a.value else 0) - (if e.executed && x == a.from then a.value else 0)
            + (if e.refunds && x == a.from then a.value - s.spent else 0)
            - (if e.refunds && x == a.to then a.value - s.spent else 0))
    && w'.token.used == (if e.executed then w.token.used + {KeyOf(s.p)} else w.token.used)
  }

  ghost predicate MovedBy(st: Token.TokenState, from: Address, to: Address, value: int, st': Token.TokenState) {
    && forall x: Address ::
         st'.BalanceOf(x) == st.BalanceOf(x) + (if x == to then value else 0) - (if x == from then value else 0)
  }

  lemma {:induction false} SubmissionIs(w: World, cfg: Config, p: Payment)
    requires Token.Solid(w.token)
    ensures var r := Sessions.Submitted(w.token, cfg, w.now, p);
            && (r.Done? <==> Executable(Books(w), cfg, p))
            && (r.Done? ==>
                  && MovedBy(w.token, p.auth.from, p.auth.to, p.auth.value, r.state)
                  && r.state.controls == w.token.controls
                  && r.state.used == w.token.used + {KeyOf(p)}
                  && Token.Solid(r.state))
  {
    if Sessions.Submitted(w.token, cfg, w.now, p).Done? {
      SubmittedSolid(w.token, cfg, w.now, p);
    }
    hide Token.Solid, Token.Move;
    TokenLaws.MoveLaw(w.token.(used := w.token.used + {KeyOf(p)}), p.auth.from, p.auth.to, p.auth.value) by {
      assert Token.Solid(w.token);
      SolidBounds(w.token);
    }
  }

  lemma {:induction false} SolidBounds(st: Token.TokenState)
    requires Token.Solid(st)
    ensures Sum(st.balances) <= Token.MAX_WORD
  {}

  lemma {:induction false} RefundIs(st: Token.TokenState, cfg: Config, payer: Address, amount: nat)
    requires Token.Solid(st) && amount < Token.WORD_SPACE
    ensures var r := Refund(st, cfg, payer, amount);
            && (r.Done? <==> TokenLaws.Free(st.controls, cfg.payTo, payer) && amount <= st.BalanceOf(cfg.payTo))
            && (r.Done? ==> MovedBy(st, cfg.payTo, payer, amount, r.state) && r.state.used == st.used)
  {
    TokenLaws.MoveLaw(st, cfg.payTo, payer, amount);
    hide Token.Move;
  }

  /** The refund cannot fail once the settlement is on the chain. */
  lemma {:induction false} RefundGoesThrough(w: World, cfg: Config, p: Payment, unused: nat)
    requires Token.Solid(w.token) && p.auth.to == cfg.payTo && 0 < unused <= p.auth.value
    requires Sessions.Submitted(w.token, cfg, w.now, p).Done?
    ensures var st := Sessions.Submitted(w.token, cfg, w.now, p).state;
            var r := Refund(st, cfg, p.auth.from, unused);
            && r.Done?
            && MovedBy(st, cfg.payTo, p.auth.from, unused, r.state) && r.state.used == st.used
  {
    SubmissionIs(w, cfg, p);
    var st := Sessions.Submitted(w.token, cfg, w.now, p).state;
    hide Sessions.Submitted, Refund, Token.Solid;
    RefundIs(st, cfg, p.auth.from, unused);
    TokenLaws.HeldWithinSupply(st, cfg.payTo);
  }

  lemma {:induction false} AttemptIs(w: World, cfg: Config, s: Session, env: Env, e: Effect)
    requires Token.Solid(w.token) && s.budget == s.p.auth.value && s.p.auth.to == cfg.payTo && s.spent <= s.budget
    requires !e.draws && e.executed == (env.included && Executable(Books(w), cfg, s.p))
    requires e.settles == (e.executed && env.reported && env.persisted)
    requires e.refunds == (e.settles && s.spent < s.p.auth.value && env.refund != NotIncluded)
    ensures var c := SettleSession(w.token, cfg, w.now, s, env);
            var a := s.p.auth;
            && c.ok == e.settles && c.refunded == e.refunds
            && (forall x: Address ::
                  c.token.BalanceOf(x) ==
                    w.token.BalanceOf(x)
                    + (if e.executed && x == a.to then a.value else 0)
                      - (if e.executed && x == a.from then a.value else 0)
                    + (if e.refunds && x == a.from then a.value - s.spent else 0)
                    - (if e.refunds && x == a.to then a.value - s.spent else 0))
            && c.token.used == (if e.executed then w.token.used + {KeyOf(s.p)} else w.token.used)
  {
    SubmissionIs(w, cfg, s.p);
    if Sessions.Submitted(w.token, cfg, w.now, s.p).Done? && s.spent < s.budget {
      RefundGoesThrough(w, cfg, s.p, s.budget - s.spent);
    }
    hide Sessions.Submitted, Refund, Token.Solid, Executable;
  }

  lemma {:induction false} HandlingIs(w: World, cfg: Config, k: nat, close: bool, env: Env, e: Effect)
    requires Token.Solid(w.token) && k < |w.held| && !w.held[k].session.settled
    requires var s := w.held[k].session;
             && s.budget == s.p.auth.value && s.p.auth.to == cfg.payTo && s.spent <= s.budget
             && s.validBefore == Int64(s.p.auth.validBefore)
    requires EffectIs(e, w, cfg, w.held[k].session, close, env)
    ensures Does(e, w, cfg, k, close, env, HandleStep(w, cfg, k, close, env))
  {
    hide Token.Solid, SettleSession, Executable, Int64, Counted, AppendEntry;
    if !e.draws {
      AttemptIs(w, cfg, w.held[k].session, env, e);
    }
  }

  /** In every reachable state a call on a session that has not settled does exactly this, and on one that
      has settled nothing. */
  lemma {:induction false} CallIsExact(token: Token.TokenState, now: int, cfg: Config, steps: seq<Sessions.Step>,
      k: nat, close: bool, env: Env, e: Effect)
    requires Token.Solid(token) && k < |Run(Begun(token, now), cfg, steps).held|
    requires var w := Run(Begun(token, now), cfg, steps); EffectIs(e, w, cfg, w.held[k].session, close, env)
    ensures var w := Run(Begun(token, now), cfg, steps);
            var w' := Sessions.Next(w, cfg, Handle(k, close, env));
            if w.held[k].session.settled then w' == w else Does(e, w, cfg, k, close, env, w')
  {
    hide Run, Token.Solid, EffectIs, Does, OncePerKey;
    RunSolid(token, now, cfg, steps);
    RunInv(token, now, cfg, steps);
    var w := Run(Begun(token, now), cfg, steps);
    assert Sound(w.held[k], cfg, w.token.used);
    if !w.held[k].session.settled {
      HandlingIs(w, cfg, k, close, env, e);
    }
    hide SettleSession;
  }
}
