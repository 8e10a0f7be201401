/** The gateway's session store and session handling (x402/session.go) as objects: every call is one
    step of the session machine. */
module SessionService {
  import opened Common
  import opened MandateAccounts
  import opened Gateway
  import opened Sessions
  import opened GatewayService
  import Token = Stablecoin
  import Policy

  class PaymentSession {
    const p: Payment
    const budget: nat
    const validBefore: int
    var spent: nat
    var settled: bool

    function View(): Session
      reads this
    {
      Session(p, budget, spent, validBefore, settled)
    }

    constructor (p: Payment, price: nat)
      ensures View() == Opened(p, price)
    {
      this.p, budget, validBefore := p, p.auth.value, Int64(p.auth.validBefore);
      spent, settled := price, false;
    }
  }

  datatype SessionAnswer = Drawn | SessionUnknown | SessionClosed | SessionExhausted | SettlementError

  /** The store leads to the sessions the machine's store leads to. */
  ghost predicate StoreTied(store: map<Sessions.SessionId, PaymentSession>, index: map<Sessions.SessionId, nat>,
      all: seq<PaymentSession>)
  {
    && store.Keys == index.Keys
    && forall id :: id in store ==> index[id] < |all| && store[id] == all[index[id]]
  }

  lemma {:induction false} StoreDrop(store: map<Sessions.SessionId, PaymentSession>,
      index: map<Sessions.SessionId, nat>, all: seq<PaymentSession>, id: Sessions.SessionId)
    requires StoreTied(store, index, all)
    ensures StoreTied(store - {id}, index - {id}, all)
  {}

  /** The objects show what the machine knows of each session. */
  ghost predicate SessionsOf(all: seq<PaymentSession>, held: seq<Held>)
    reads all
  {
    |all| == |held| && forall k :: 0 <= k < |all| ==> all[k].View() == held[k].session
  }

  lemma {:induction false} AttemptIs(token: Token.TokenState, cfg: Config, now: int, s: Session, env: Sessions.Env)
    ensures var c := SettleSession(token, cfg, now, s, env);
            var outcome := Sessions.Submitted(token, cfg, now, s.p);
            var lands := env.included && outcome.Done?;
            && c.ok == (lands && env.reported && env.persisted)
            && (!lands ==> c.token == token)
            && (lands && !c.ok ==> c.token == outcome.state)
            && (c.ok && s.budget <= s.spent ==> c.token == outcome.state && !c.refunded)
            && (c.ok && s.budget > s.spent ==>
                  var back := Sessions.Refund(outcome.state, cfg, s.p.auth.from, s.budget - s.spent);
                  && c.refunded == (env.refund != NotIncluded && back.Done?)
                  && c.token == if c.refunded then back.state else outcome.state)
  {
    hide Sessions.Submitted, Sessions.Refund;
  }

  lemma {:induction false} LinesAre(journal: seq<Entry>, now: int, s: Session, c: Closing, env: Sessions.Env)
    ensures var payer := s.p.auth.from;
            var settled := AppendEntry(journal, SettlementEntry(Record(payer, s.budget, env.tx, now)), true);
            LinesAfter(journal, now, s, c, env) ==
              if s.budget <= s.spent then settled
              else AppendEntry(settled,
                     if c.refunded && env.refund == Reported
                     then Entry(OfTx(env.refundTx), RefundBody(payer, s.budget - s.spent))
                     else Entry(OfPending(env.tx), RefundPendingBody(payer, s.budget)),
                     env.refundLogged)
  {
    hide AppendEntry;
  }

  lemma {:induction false} NothingCounted(accounts: Accounts, p: Payment, now: int)
    ensures Counted(accounts, p, now, false) == accounts
  {}

  ghost predicate Different(all: seq<PaymentSession>) {
    forall i, j :: 0 <= i < j < |all| ==> all[i] != all[j]
  }

  /** What an opening does, as the machine sees it. */
  lemma {:induction false} OpenStepIs(w: World, cfg: Config, id: Sessions.SessionId, p: Payment,
      middle: seq<Policy.Decision>)
    ensures var w' := Sessions.Next(w, cfg, Open(id, p, middle));
            var (d, accounts) := ChainDecide(Books(w), cfg, p, true, middle, Policy.PreSettlement);
            && w'.token == w.token && w'.now == w.now && w'.revoked == w.revoked
            && w'.settlements == w.settlements && w'.journal == w.journal
            && w'.accounts == (if Considered(w, cfg, p) then accounts else w.accounts)
            && var opens := Considered(w, cfg, p) && d.action == Policy.Approve;
            && w'.held == (if opens then w.held + [Held(id, Opened(p, cfg.price), 1, [], false)] else w.held)
            && w'.store == (if opens then w.store[id := |w.held|] else w.store)
  {
    hide ChainDecide, HeldAtOpening, VerifyPayment;
  }

  class SessionGateway {
    const cfg: Config
    const facilitator: LocalFacilitator
    const policy: Policy.MandatePolicy
    var store: map<Sessions.SessionId, PaymentSession>
    var settlements: seq<Record>
    var journal: seq<Entry>

    /** Every session ever opened, and the machine's state. */
    ghost var all: seq<PaymentSession>
    ghost var world: World

    ghost predicate TiedChain()
      reads this, facilitator
    {
      && world.token == facilitator.token && world.now == facilitator.now
      && world.settlements == settlements && world.journal == journal
    }

    ghost predicate TiedBooks()
      requires policy.Valid()
      reads this, policy, policy.Repr
    {
      world.accounts == policy.View() && world.revoked == policy.revoked
    }

    ghost predicate TiedSessions()
      reads this, all
    {
      SessionsOf(all, world.held)
    }

    ghost predicate TiedStore()
      reads this
    {
      StoreTied(store, world.store, all)
    }

    ghost predicate Apart()
      reads this
    {
      Different(all)
    }

    /** The policy keeps its objects to itself. */
    ghost predicate PolicyApart()
      reads this, policy
    {
      && this !in policy.Repr && facilitator !in policy.Repr
      && forall k :: 0 <= k < |all| ==> all[k] !in policy.Repr
    }

    ghost predicate Valid()
      reads this, facilitator, all, policy, policy.Repr
    {
      && facilitator.cfg == cfg && policy.settings == cfg.settings
      && policy.Valid() && PolicyApart()
      && Apart() && TiedChain() && TiedBooks() && TiedSessions() && TiedStore() && Inv(world, cfg)
    }

    /** The machine has moved on, and the fields with it. */
    ghost method Adopt(w: World)
      requires facilitator.cfg == cfg && policy.settings == cfg.settings && policy.Valid() && PolicyApart() && Apart()
      requires w.token == facilitator.token && w.now == facilitator.now && w.settlements == settlements
      requires w.journal == journal
      requires w.accounts == policy.View() && w.revoked == policy.revoked
      requires SessionsOf(all, w.held) && StoreTied(store, w.store, all) && Inv(w, cfg)
      modifies this`world
      ensures Valid() && world == w
    {
      hide Inv, SessionsOf, StoreTied, Different, Policy.MandatePolicy.View, Policy.MandatePolicy.Valid;
      world := w;
    }

    constructor (cfg: Config, token: Token.TokenState, now: int)
      ensures Valid() && this.cfg == cfg && world == Begun(token, now)
    {
      this.cfg := cfg;
      facilitator := new LocalFacilitator(cfg, token, 0, now);
      policy := new Policy.MandatePolicy(cfg.settings);
      store, settlements, journal := map[], [], [];
      all, world := [], Begun(token, now);
    }

    /** The policies see the whole budget as the amount, and hold it if they let it pass. */
    method OpenSession(id: Sessions.SessionId, p: Payment, middle: seq<Policy.Decision>) returns (accepted: bool)
      requires Valid()
      modifies this`store, this`all, this`world, policy.Repr
      ensures Valid() && fresh(policy.Repr - old(policy.Repr))
      ensures world == Sessions.Next(old(world), cfg, Open(id, p, middle))
      ensures accepted <==> |world.held| == |old(world.held)| + 1
    {
      hide VerifyPayment, Inv, ChainDecide, Sessions.Next, SessionsOf, StoreTied, Different, Policy.MandatePolicy.View,
           Policy.MandatePolicy.Valid;
      InvKept(world, cfg, Open(id, p, middle));
      OpenStepIs(world, cfg, id, p, middle);
      accepted := false;
      ghost var w' := Sessions.Next(world, cfg, Open(id, p, middle));
      if cfg.hasRefunder && p.bound {
        var valid := facilitator.Verify(p);
        if valid {
          var d := AskPolicies(policy, Books(world), cfg, p, true, middle, Policy.PreSettlement, facilitator.now);
          if d.action == Policy.Approve {
            Admit(id, p);
            accepted := true;
          }
        }
      }
      world := w';
    }

    /** The new session joins the store. */
    method Admit(id: Sessions.SessionId, p: Payment)
      requires Apart() && TiedSessions() && TiedStore() && PolicyApart()
      modifies this`store, this`all
      ensures Apart() && PolicyApart()
      ensures SessionsOf(all, world.held + [Held(id, Opened(p, cfg.price), 1, [], false)])
      ensures StoreTied(store, world.store[id := |world.held|], all)
    {
      var sess := new PaymentSession(p, cfg.price);
      store := store[id := sess];
      all := all + [sess];
    }

    method RevokeMandate(delegator: Address, mandate: MandateId)
      requires Valid()
      modifies this`world, policy.Repr
      ensures Valid() && fresh(policy.Repr - old(policy.Repr))
      ensures world == Sessions.Next(old(world), cfg, Sessions.Revoke(delegator, mandate))
    {
      hide Inv, Policy.MandatePolicy.View, Policy.MandatePolicy.Valid;
      InvKept(world, cfg, Sessions.Revoke(delegator, mandate));
      policy.RevokeFor(delegator, mandate);
      world := Sessions.Next(world, cfg, Sessions.Revoke(delegator, mandate));
    }

    /** Settle, tell the policy, and refund what is left. The caller holds the session. */
    method Settle(sess: PaymentSession, env: Sessions.Env) returns (ok: bool, ghost c: Closing)
      requires facilitator.cfg == cfg && policy.Valid() && PolicyApart() && sess !in policy.Repr
      modifies facilitator, this`settlements, this`journal, sess`settled, policy.Repr
      ensures c == SettleSession(old(facilitator.token), cfg, facilitator.now, old(sess.View()), env) && ok == c.ok
      ensures facilitator.token == c.token && facilitator.now == old(facilitator.now)
      ensures sess.settled == (ok || old(sess.settled))
      ensures settlements == old(settlements) + if ok
                                                then [Record(sess.p.auth.from, sess.budget, env.tx, facilitator.now)]
                                                  else []
      ensures policy.Valid() && policy.Repr == old(policy.Repr) && policy.revoked == old(policy.revoked)
      ensures policy.View() == Counted(old(policy.View()), sess.p, facilitator.now, ok)
      ensures journal == if ok then LinesAfter(old(journal), facilitator.now, old(sess.View()), c, env)
                         else old(journal)
    {
      hide OnChain, RefundOutcome, AppendEntry, SettleSession, LinesAfter, Sessions.Refund, Sessions.Submitted, Counted,
           Policy.MandatePolicy.View, Policy.MandatePolicy.Valid;
      ghost var g := Started(facilitator.token, facilitator.head, facilitator.now);
      ghost var s := sess.View();
      c := SettleSession(facilitator.token, cfg, facilitator.now, s, env);
      AttemptIs(facilitator.token, cfg, facilitator.now, s, env);
      LinesAre(journal, facilitator.now, s, c, env);
      NothingCounted(policy.View(), sess.p, facilitator.now);
      SameChain(g, cfg, sess.p);
      ok := facilitator.Settle(g, sess.p, env.included, env.reported, 0);
      if !ok || !env.persisted {
        return false, c;
      }
      var r := Record(sess.p.auth.from, sess.budget, env.tx, facilitator.now);
      journal := AppendLine(journal, SettlementEntry(r), true);
      settlements := settlements + [r];
      TellPolicy(sess.p, facilitator.now);
      if sess.budget > sess.spent {
        RefundRest(sess, r, env);
      }
      sess.settled := true;
    }

    /** The policy counts the whole budget. */
    method TellPolicy(p: Payment, now: int)
      requires policy.Valid()
      modifies policy.Repr
      ensures policy.Valid() && policy.Repr == old(policy.Repr) && policy.revoked == old(policy.revoked)
      ensures policy.View() == Counted(old(policy.View()), p, now, true)
    {
      hide Commit, Policy.MandatePolicy.View, Policy.MandatePolicy.Valid;
      match p.mandate {
        case None =>
        case Some(m) => policy.Settled(m, p.auth.nonce, now, true);
      }
    }

    /** Return the unused budget; a refund that is not reported is noted as pending. */
    method RefundRest(sess: PaymentSession, r: Record, env: Sessions.Env)
      requires facilitator.cfg == cfg && sess.budget > sess.spent
      modifies facilitator`token, this`journal
      ensures var back := Sessions.Refund(old(facilitator.token), cfg, sess.p.auth.from, sess.budget - sess.spent);
              var refunded := env.refund != NotIncluded && back.Done?;
              && facilitator.token == (if refunded then back.state else old(facilitator.token))
              && journal == AppendEntry(
                   old(journal),
                   if refunded && env.refund == Reported
                   then Entry(OfTx(env.refundTx), RefundBody(sess.p.auth.from, sess.budget - sess.spent))
                   else Entry(OfPending(r.tx), RefundPendingBody(r.payer, r.amount)),
                   env.refundLogged)
    {
      hide RefundOutcome, AppendEntry;
      ghost var g := Started(facilitator.token, facilitator.head, facilitator.now);
      var rest := r.(payer := sess.p.auth.from, amount := sess.budget - sess.spent);
      SameRefund(g, cfg, rest);
      var refunded := facilitator.Refund(g, rest, env.refund);
      var e := if refunded then Entry(OfTx(env.refundTx), RefundBody(rest.payer, rest.amount))
               else Entry(OfPending(r.tx), RefundPendingBody(r.payer, r.amount));
      journal := AppendLine(journal, e, env.refundLogged);
    }

    lemma {:induction false} SameChain(g: State, cfg: Config, p: Payment)
      ensures OnChain(g, cfg, p) == Submitted(g.token, cfg, g.now, p)
    {}

    lemma {:induction false} SameRefund(g: State, cfg: Config, r: Record)
      ensures RefundOutcome(g, cfg, r) == Sessions.Refund(g.token, cfg, r.payer, r.amount)
    {}

    method Lookup(id: Sessions.SessionId) returns (sess: Option<PaymentSession>)
      requires Valid()
      ensures sess.Some? <==> id in world.store
      ensures sess.Some? ==> world.store[id] < |all| && sess.value == all[world.store[id]]
    {
      return if id in store then Some(store[id]) else None;
    }

    /** One continuation or close on a session that was looked up, perhaps some time ago. */
    method HandleSession(sess: PaymentSession, id: Sessions.SessionId, ghost k: nat, close: bool, env: Sessions.Env)
        returns (answer: SessionAnswer)
      requires Valid() && k < |all| && all[k] == sess && world.held[k].id == id
      modifies this`store, this`settlements, this`journal, this`world, facilitator, sess, policy.Repr
      ensures Valid() && all == old(all)
      ensures world == Sessions.Next(old(world), cfg, Handle(k, close, env))
      ensures answer.Drawn? <==> world.held[k].served > old(world.held[k].served)
      ensures answer.SessionClosed? || answer.SessionExhausted? <==> |world.settlements| > |old(world.settlements)|
    {
      hide SettleSession, Inv, MayDraw;
      if sess.settled {
        return SessionUnknown;
      }
      if !close && Drawable(sess) {
        Draw(sess, k, env);
        return SessionAnswer.Drawn;
      }
      ghost var w := world;
      var ok := CloseOut(sess, id, k, close, env);
      CloseOutStep(w, cfg, k, close, env, SettleSession(w.token, cfg, w.now, w.held[k].session, env));
      return if !ok then SettlementError else if close then SessionClosed else SessionExhausted;
    }

    method Draw(sess: PaymentSession, ghost k: nat, ghost env: Sessions.Env)
      requires Valid() && k < |all| && all[k] == sess && !sess.settled
      requires MayDraw(sess.View(), cfg.price, Policy.UnixSeconds(facilitator.now))
      modifies this`world, sess`spent
      ensures Valid()
      ensures world == Sessions.Next(old(world), cfg, Handle(k, false, env))
      ensures world.held[k].served == old(world.held[k].served) + 1 && world.settlements == old(world.settlements)
    {
      hide SettleSession, Inv, MayDraw;
      InvKept(world, cfg, Handle(k, false, env));
      sess.spent := sess.spent + cfg.price;
      world := Sessions.Next(world, cfg, Handle(k, false, env));
    }

    /** Settle, and leave the store unless a session that ran out fails to settle. */
    method CloseOut(sess: PaymentSession, id: Sessions.SessionId, ghost k: nat, close: bool, env: Sessions.Env)
        returns (ok: bool)
      requires Valid() && k < |all| && all[k] == sess && world.held[k].id == id && !sess.settled
      requires close || !MayDraw(sess.View(), cfg.price, Policy.UnixSeconds(facilitator.now))
      modifies this`store, this`settlements, this`journal, this`world, facilitator, sess`settled, policy.Repr
      ensures Valid()
      ensures world == Sessions.Next(old(world), cfg, Handle(k, close, env))
      ensures ok == SettleSession(old(world).token, cfg, old(world).now, old(world).held[k].session, env).ok
    {
      assert k < |world.held| && sess.View() == world.held[k].session;
      hide SettleSession, Inv, MayDraw, Counted, LinesAfter, Sessions.Next, StoreTied, Different, SessionsOf,
           Policy.MandatePolicy.View, Policy.MandatePolicy.Valid;
      ghost var w := world;
      ghost var w' := Sessions.Next(w, cfg, Handle(k, close, env));
      StoreDrop(store, w.store, all, id);
      ok := SettleTo(sess, w, w', k, close, env);
      store := if close || ok then store - {id} else store;
      Adopt(w');
    }

    /** The attempt, and all it touches but the store. */
    method SettleTo(sess: PaymentSession, ghost w: World, ghost w': World, ghost k: nat, ghost close: bool,
        env: Sessions.Env) returns (ok: bool)
      requires Valid() && w == world && w' == Sessions.Next(w, cfg, Handle(k, close, env))
      requires k < |all| && k < |w.held| && all[k] == sess && !sess.settled
      requires close || !MayDraw(w.held[k].session, cfg.price, Policy.UnixSeconds(w.now))
      modifies facilitator, this`settlements, this`journal, sess`settled, policy.Repr
      ensures ok == SettleSession(w.token, cfg, w.now, w.held[k].session, env).ok
      ensures SessionsOf(all, w'.held) && PolicyApart() && policy.Valid()
      ensures w'.token == facilitator.token && w'.now == facilitator.now && w'.settlements == settlements
      ensures w'.journal == journal
      ensures w'.accounts == policy.View() && w'.revoked == policy.revoked && Inv(w', cfg)
      ensures w'.store == if close || ok then w.store - {w.held[k].id} else w.store
    {
      hide SettleSession, Inv, MayDraw, Counted, LinesAfter, Sessions.Next, StoreTied, Policy.MandatePolicy.View,
           Policy.MandatePolicy.Valid;
      InvKept(w, cfg, Handle(k, close, env));
      assert sess.View() == w.held[k].session;
      CloseOutStep(w, cfg, k, close, env, SettleSession(w.token, cfg, w.now, w.held[k].session, env));
      assert forall j :: 0 <= j < |all| && j != k ==> all[j] != sess;
      ghost var c: Closing;
      ok, c := Settle(sess, env);
      assert SessionsOf(all, w'.held);
    }

    lemma {:induction false} CloseOutStep(w: World, cfg: Config, k: nat, close: bool, env: Sessions.Env, c: Closing)
      requires k < |w.held| && !w.held[k].session.settled
      requires close || !MayDraw(w.held[k].session, cfg.price, Policy.UnixSeconds(w.now))
      requires c == SettleSession(w.token, cfg, w.now, w.held[k].session, env)
      ensures var w' := Sessions.Next(w, cfg, Handle(k, close, env));
              var h := w.held[k];
              && w'.token == c.token && w'.now == w.now && w'.held == w.held[k := Closed(h, c)]
              && w'.store == (if close || c.ok then w.store - {h.id} else w.store)
              && w'.settlements ==
                   w.settlements + (if c.ok then [Record(h.session.p.auth.from, h.session.budget, env.tx, w.now)]
                                    else [])
              && w'.accounts == Counted(w.accounts, h.session.p, w.now, c.ok) && w'.revoked == w.revoked
              && w'.journal == (if c.ok then LinesAfter(w.journal, w.now, h.session, c, env) else w.journal)
    {
      hide SettleSession, MayDraw, Counted, LinesAfter;
    }

    function Drawable(sess: PaymentSession): (may: bool)
      reads this, sess, facilitator
      ensures may == MayDraw(sess.View(), cfg.price, Policy.UnixSeconds(facilitator.now))
    {
      var seconds := Policy.UnixSeconds(facilitator.now);
      var expiringSoon := sess.validBefore != 0 && seconds >= sess.validBefore - SESSION_MARGIN;
      !expiringSoon && sess.budget - sess.spent >= cfg.price
    }
  }
}
