/** Payment sessions (x402/session.go): one authorization for a whole budget, drawn down by many
    requests and settled at close, with the unused budget refunded. Each call holds the session's
    lock, so a run is a sequence of whole calls; a call may hold a session that has already left
    the store. */
module Sessions {
  import opened Common
  import opened Transfers
  import opened MandateAccounts
  import opened Gateway
  import Token = Stablecoin
  import Policy

  /** How close to the authorization's expiry a session is settled, in seconds. */
  const SESSION_MARGIN: nat := 60

  type SessionId = nat

  datatype Session = Session(p: Payment, budget: nat, spent: nat, validBefore: int, settled: bool)

  /** A session with what happened to it: requests served and the transfers it caused. */
  datatype Held = Held(id: SessionId, session: Session, served: nat, events: seq<TransferEvent>, refunded: bool)

  /** `refused` lists the payments that the mandate policy held although no session opened for them. */
  datatype World = World(
    token: Token.TokenState,
    now: int,
    held: seq<Held>,
    store: map<SessionId, nat>,
    settlements: seq<Record>,
    accounts: Accounts,
    revoked: Policy.Revocations,
    journal: seq<Entry>,
    refused: seq<Payment>)

  /** What the world does while one settlement is attempted. */
  datatype Env = Env(
    tx: TxHash, included: bool, reported: bool, persisted: bool,
    refundTx: TxHash, refund: Reply, refundLogged: bool)

  /** The result of one attempt. */
  datatype Closing = Closing(token: Token.TokenState, ok: bool, events: seq<TransferEvent>, refunded: bool)

  function Opened(p: Payment, price: nat): Session {
    Session(p, p.auth.value, price, Int64(p.auth.validBefore), false)
  }

  function Submitted(token: Token.TokenState, cfg: Config, now: int, p: Payment): Token.Outcome {
    Token.SettleAuthorization(
      token, cfg.relayer, if now < 0 then 0 else Policy.UnixSeconds(now), p.auth, p.recovered, false)
  }

  function Refund(token: Token.TokenState, cfg: Config, payer: Address, amount: nat): Token.Outcome {
    if amount > Token.MAX_WORD then Token.Reverted else Token.Transfer(token, cfg.payTo, payer, amount)
  }

  /** Settle for the whole budget and refund the rest. A lost reply or a failed journal write is an
      error although the transfer happened. */
  function SettleSession(token: Token.TokenState, cfg: Config, now: int, s: Session, env: Env): Closing {
    var outcome := Submitted(token, cfg, now, s.p);
    if !env.included || outcome.Reverted? then Closing(token, false, [], false)
    else if !env.reported || !env.persisted then Closing(outcome.state, false, outcome.events, false)
    else
      var unused := s.budget - s.spent;
      var back := if unused > 0 then Refund(outcome.state, cfg, s.p.auth.from, unused) else Token.Reverted;
      if env.refund != NotIncluded && back.Done? then Closing(back.state, true, outcome.events + back.events, true)
      else Closing(outcome.state, true, outcome.events, false)
  }

  /** The lines of a successful attempt: the settlement, and what became of the unused budget. A refund
      that is not reported is noted as pending, and with the whole budget. */
  function LinesAfter(journal: seq<Entry>, now: int, s: Session, c: Closing, env: Env): seq<Entry> {
    var payer := s.p.auth.from;
    var settled := AppendEntry(journal, SettlementEntry(Record(payer, s.budget, env.tx, now)), true);
    if s.budget <= s.spent then settled
    else if c.refunded && env.refund == Reported
    then AppendEntry(settled, Entry(OfTx(env.refundTx), RefundBody(payer, s.budget - s.spent)), env.refundLogged)
    else AppendEntry(settled, Entry(OfPending(env.tx), RefundPendingBody(payer, s.budget)), env.refundLogged)
  }

  predicate ExpiringSoon(s: Session, seconds: int) {
    s.validBefore != 0 && seconds >= s.validBefore - SESSION_MARGIN
  }

  /** A draw must fit what is left, well before the expiry. */
  predicate MayDraw(s: Session, price: nat, seconds: int) {
    !ExpiringSoon(s, seconds) && s.budget - s.spent >= price
  }

  datatype Step =
    | Open(id: SessionId, p: Payment, middle: seq<Policy.Decision>)
    | Handle(k: nat, close: bool, env: Env)
    | Revoke(delegator: Address, mandate: MandateId)
    | Outside(call: Token.Transaction)
    | Tick(now: int)

  /** The policies are asked only when everything else is in order. */
  predicate Considered(w: World, cfg: Config, p: Payment) {
    cfg.hasRefunder && p.bound && VerifyPayment(cfg, w.token, p, Policy.UnixSeconds(w.now))
  }

  /** What the policies see. */
  function Books(w: World): State { Started(w.token, 0, w.now).(accounts := w.accounts, revoked := w.revoked) }

  ghost predicate HeldAtOpening(w: World, cfg: Config, p: Payment, middle: seq<Policy.Decision>) {
    Considered(w, cfg, p) && HeldBy(Books(w), cfg, p, true, middle)
  }

  /** Verified, bound and approved with the whole budget as the amount. Only an approval opens a session. */
  ghost function OpenStep(w: World, cfg: Config, id: SessionId, p: Payment, middle: seq<Policy.Decision>): World {
    if !Considered(w, cfg, p) then w
    else
      var (d, accounts) := ChainDecide(Books(w), cfg, p, true, middle, Policy.PreSettlement);
      if d.action == Policy.Approve then
        w.(accounts := accounts, held := w.held + [Held(id, Opened(p, cfg.price), 1, [], false)],
           store := w.store[id := |w.held|])
      else
        w.(accounts := accounts, refused := if HeldAtOpening(w, cfg, p, middle) then w.refused + [p] else w.refused)
  }

  function Drawn(h: Held, price: nat): Held {
    h.(session := h.session.(spent := h.session.spent + price), served := h.served + 1)
  }

  function Closed(h: Held, c: Closing): Held {
    h.(session := h.session.(settled := c.ok), events := h.events + c.events, refunded := c.refunded)
  }

  /** The policies are told of a success, and of nothing else. */
  function Counted(accounts: Accounts, p: Payment, now: int, ok: bool): Accounts {
    match p.mandate
    case Some(m) => if ok then Commit(accounts, m, p.auth.nonce, now) else accounts
    case None => accounts
  }

  /** A close leaves the store whether or not it settled; a session that ran out leaves it only
      when it settled. */
  function HandleStep(w: World, cfg: Config, k: nat, close: bool, env: Env): World
    requires k < |w.held|
  {
    var h := w.held[k];
    if h.session.settled then w
    else if !close && MayDraw(h.session, cfg.price, Policy.UnixSeconds(w.now)) then
      w.(held := w.held[k := Drawn(h, cfg.price)])
    else
      var c := SettleSession(w.token, cfg, w.now, h.session, env);
      World(
        c.token,
        w.now,
        w.held[k := Closed(h, c)],
        if close || c.ok then w.store - {h.id} else w.store,
        if c.ok then w.settlements + [Record(h.session.p.auth.from, h.session.budget, env.tx, w.now)]
        else w.settlements,
        Counted(w.accounts, h.session.p, w.now, c.ok),
        w.revoked,
        if c.ok then LinesAfter(w.journal, w.now, h.session, c, env) else w.journal,
        w.refused)
  }

  ghost function Next(w: World, cfg: Config, step: Step): World {
    match step
    case Open(id, p, middle) => OpenStep(w, cfg, id, p, middle)
    case Revoke(delegator, mandate) => w.(revoked := w.revoked + {(delegator, mandate)})
    case Handle(k, close, env) => if k < |w.held| then HandleStep(w, cfg, k, close, env) else w
    case Outside(call) => w.(token := Token.StateAfter(w.token, call))
    case Tick(now) => w.(now := now)
  }

  ghost function Run(w: World, cfg: Config, steps: seq<Step>): World {
    if steps == [] then w else Next(Run(w, cfg, Init(steps)), cfg, Last(steps))
  }

  function Begun(token: Token.TokenState, now: int): World { World(token, now, [], map[], [], map[], {}, [], []) }

  // ---- What holds of every session ----

  /** The authorization was executed for this session. */
  predicate Landed(h: Held) { h.events != [] }

  /** The transfers a session causes: its whole budget in, and at most the unused part back. */
  function Moved(h: Held, cfg: Config): seq<TransferEvent>
    requires h.session.spent <= h.session.budget
  {
    var payer := h.session.p.auth.from;
    [TransferEvent(payer, cfg.payTo, h.session.budget)]
    + if h.refunded then [TransferEvent(cfg.payTo, payer, h.session.budget - h.session.spent)] else []
  }

  predicate Sound(h: Held, cfg: Config, used: set<AuthKey>) {
    && h.session.budget == h.session.p.auth.value && h.session.p.auth.to == cfg.payTo
    && h.session.validBefore == Int64(h.session.p.auth.validBefore)
    && h.served >= 1 && h.session.spent == cfg.price * h.served && h.session.spent <= h.session.budget
    && (h.session.settled ==> Landed(h))
    && (h.refunded ==> h.session.settled && h.session.spent < h.session.budget)
    && (Landed(h) ==> KeyOf(h.session.p) in used && h.events == Moved(h, cfg))
  }

  ghost predicate AllSound(held: seq<Held>, cfg: Config, used: set<AuthKey>) {
    forall k :: 0 <= k < |held| ==> Sound(held[k], cfg, used)
  }

  /** No authorization is executed for two sessions. */
  ghost predicate OncePerKey(held: seq<Held>) {
    forall i, j :: 0 <= i < j < |held| && Landed(held[i]) && Landed(held[j]) ==>
      KeyOf(held[i].session.p) != KeyOf(held[j].session.p)
  }

  function Settled(held: seq<Held>): nat {
    if held == [] then 0 else Settled(Init(held)) + if Last(held).session.settled then 1 else 0
  }

  ghost predicate Inv(w: World, cfg: Config) {
    AllSound(w.held, cfg, w.token.used) && OncePerKey(w.held) && |w.settlements| == Settled(w.held)
  }

  // ---- Proofs ----

  lemma {:induction false} TransferMoves(st: Token.TokenState, from: Address, to: Address, value: Token.Word)
    requires Token.Transfer(st, from, to, value).Done?
    ensures var r := Token.Transfer(st, from, to, value);
            r.state.used == st.used && r.events == [TransferEvent(from, to, value)]
  {}

  lemma {:induction false} SubmissionMoves(token: Token.TokenState, cfg: Config, now: int, p: Payment)
    requires Submitted(token, cfg, now, p).Done?
    ensures var r := Submitted(token, cfg, now, p);
            && KeyOf(p) !in token.used && r.state.used == token.used + {KeyOf(p)}
            && r.events == [TransferEvent(p.auth.from, p.auth.to, p.auth.value)]
  {}

  /** One attempt: nothing happens, or the whole budget moves and at most the unused part returns. */
  lemma {:induction false} AttemptMoves(token: Token.TokenState, cfg: Config, now: int, s: Session, env: Env)
    requires s.spent <= s.budget
    ensures var c := SettleSession(token, cfg, now, s, env);
            && (c.events == [] ==> c.token == token && !c.ok && !c.refunded)
            && (c.events != [] ==>
                  && KeyOf(s.p) !in token.used && c.token.used == token.used + {KeyOf(s.p)}
                  && c.events == [TransferEvent(s.p.auth.from, s.p.auth.to, s.p.auth.value)]
                               + if c.refunded then [TransferEvent(cfg.payTo, s.p.auth.from, s.budget - s.spent)]
                                 else [])
            && (c.refunded ==> c.ok && s.spent < s.budget)
  {
    hide Token.Transfer, Submitted;
    var outcome := Submitted(token, cfg, now, s.p);
    if outcome.Done? {
      SubmissionMoves(token, cfg, now, s.p);
      ConcatEmpty(outcome.events);
      var unused := s.budget - s.spent;
      if 0 < unused <= Token.MAX_WORD && Token.Transfer(outcome.state, cfg.payTo, s.p.auth.from, unused).Done? {
        TransferMoves(outcome.state, cfg.payTo, s.p.auth.from, unused);
      }
    }
  }

  lemma {:induction false} SettledUpdate(held: seq<Held>, k: nat, h: Held)
    requires k < |held|
    ensures Settled(held[k := h]) == Settled(held) + (if h.session.settled then 1 else 0) - if held[k].session.settled
              then 1 else 0
  {
    if k == |held| - 1 {
      assert Init(held[k := h]) == Init(held);
    } else {
      assert Init(held[k := h]) == Init(held)[k := h];
      SettledUpdate(Init(held), k, h);
    }
  }

  lemma {:induction false} SoundMoreUsed(held: seq<Held>, cfg: Config, used: set<AuthKey>, more: set<AuthKey>)
    requires AllSound(held, cfg, used) && used <= more
    ensures AllSound(held, cfg, more)
  {
    hide Moved;
    forall k | 0 <= k < |held|
      ensures Sound(held[k], cfg, more)
    {
      assert Sound(held[k], cfg, used);
    }
  }

  lemma {:induction false} SoundPut(held: seq<Held>, cfg: Config, used: set<AuthKey>, k: nat, h: Held)
    requires k < |held| && AllSound(held, cfg, used) && Sound(h, cfg, used)
    ensures AllSound(held[k := h], cfg, used)
  {
    hide Sound;
  }

  /** Putting back a session that has not landed since, or whose key was unused. */
  lemma {:induction false} OncePut(held: seq<Held>, cfg: Config, used: set<AuthKey>, k: nat, h: Held)
    requires k < |held| && AllSound(held, cfg, used) && OncePerKey(held)
    requires h.session.p == held[k].session.p
    requires Landed(h) ==> Landed(held[k]) || KeyOf(h.session.p) !in used
    ensures OncePerKey(held[k := h])
  {
    hide Moved;
    var held' := held[k := h];
    forall i, j | 0 <= i < j < |held'| && Landed(held'[i]) && Landed(held'[j])
      ensures KeyOf(held'[i].session.p) != KeyOf(held'[j].session.p)
    {
      assert Sound(held[i], cfg, used) && Sound(held[j], cfg, used);
    }
  }

  lemma {:induction false} OneMore(price: nat, served: nat)
    ensures price * (served + 1) == price * served + price
  {}

  lemma {:induction false} DrawKeeps(w: World, cfg: Config, k: nat)
    requires Inv(w, cfg) && k < |w.held| && !w.held[k].session.settled
    requires w.held[k].session.budget - w.held[k].session.spent >= cfg.price
    ensures Inv(w.(held := w.held[k := Drawn(w.held[k], cfg.price)]), cfg)
  {
    var h := w.held[k];
    assert Sound(h, cfg, w.token.used);
    OneMore(cfg.price, h.served);
    assert Sound(Drawn(h, cfg.price), cfg, w.token.used);
    hide Sound;
    SoundPut(w.held, cfg, w.token.used, k, Drawn(h, cfg.price));
    OncePut(w.held, cfg, w.token.used, k, Drawn(h, cfg.price));
    SettledUpdate(w.held, k, Drawn(h, cfg.price));
  }

  lemma {:induction false} ClosingSound(w: World, cfg: Config, k: nat, env: Env)
    requires Inv(w, cfg) && k < |w.held| && !w.held[k].session.settled
    ensures var h := w.held[k];
            var c := SettleSession(w.token, cfg, w.now, h.session, env);
            && w.token.used <= c.token.used
            && Sound(Closed(h, c), cfg, c.token.used)
            && (Landed(Closed(h, c)) ==> Landed(h) || KeyOf(h.session.p) !in w.token.used)
  {
    hide SettleSession;
    var h := w.held[k];
    assert Sound(h, cfg, w.token.used);
    AttemptMoves(w.token, cfg, w.now, h.session, env);
    var c := SettleSession(w.token, cfg, w.now, h.session, env);
    ConcatEmpty(h.events);
    ConcatEmpty(c.events);
  }

  lemma {:induction false} CloseKeeps(w: World, cfg: Config, k: nat, close: bool, env: Env)
    requires Inv(w, cfg) && k < |w.held| && !w.held[k].session.settled
    requires close || !MayDraw(w.held[k].session, cfg.price, Policy.UnixSeconds(w.now))
    ensures Inv(HandleStep(w, cfg, k, close, env), cfg)
  {
    hide SettleSession, Sound, MayDraw, AllSound, OncePerKey;
    var h := w.held[k];
    var c := SettleSession(w.token, cfg, w.now, h.session, env);
    ClosingSound(w, cfg, k, env);
    OncePut(w.held, cfg, w.token.used, k, Closed(h, c));
    SoundMoreUsed(w.held, cfg, w.token.used, c.token.used);
    SoundPut(w.held, cfg, c.token.used, k, Closed(h, c));
    SettledUpdate(w.held, k, Closed(h, c));
  }

  lemma {:induction false} OpenKeeps(w: World, cfg: Config, id: SessionId, p: Payment, middle: seq<Policy.Decision>)
    requires Inv(w, cfg)
    ensures Inv(OpenStep(w, cfg, id, p, middle), cfg)
  {
    hide ChainDecide, HeldAtOpening;
    var h := Held(id, Opened(p, cfg.price), 1, [], false);
    InitOfSnoc(w.held, h);
  }

  lemma {:induction false} InvKept(w: World, cfg: Config, step: Step)
    requires Inv(w, cfg)
    ensures Inv(Next(w, cfg, step), cfg)
  {
    hide SettleSession, Sound, AllSound, OncePerKey, OpenStep, ExpiringSoon;
    match step
    case Open(id, p, middle) => OpenKeeps(w, cfg, id, p, middle);
    case Revoke(_, _) =>
    case Handle(k, close, env) =>
      if k < |w.held| && !w.held[k].session.settled {
        if !close && MayDraw(w.held[k].session, cfg.price, Policy.UnixSeconds(w.now)) {
          DrawKeeps(w, cfg, k);
        } else {
          CloseKeeps(w, cfg, k, close, env);
        }
      }
    case Outside(call) =>
      Token.OneTransactionUsed(w.token, call);
      SoundMoreUsed(w.held, cfg, w.token.used, Token.StateAfter(w.token, call).used);
    case Tick(_) =>
  }

  lemma {:induction false} RunInv(token: Token.TokenState, now: int, cfg: Config, steps: seq<Step>)
    ensures Inv(Run(Begun(token, now), cfg, steps), cfg)
  {
    if steps != [] {
      hide Inv, Next;
      RunInv(token, now, cfg, Init(steps));
      InvKept(Run(Begun(token, now), cfg, Init(steps)), cfg, Last(steps));
    }
  }

  // ---- Results ----

  /** For every interleaving: a session has spent its price times the requests served, within its
      budget; and what its payer has been charged is nothing if the authorization was not executed,
      exactly what was spent if the refund was executed, and the whole budget otherwise. */
  lemma {:induction false} SessionCharges(token: Token.TokenState, now: int, cfg: Config, steps: seq<Step>, k: nat)
    requires k < |Run(Begun(token, now), cfg, steps).held|
    requires Run(Begun(token, now), cfg, steps).held[k].session.p.auth.from != cfg.payTo
    ensures var h := Run(Begun(token, now), cfg, steps).held[k];
            var payer := h.session.p.auth.from;
            && h.session.spent == cfg.price * h.served && h.session.spent <= h.session.budget
            && (h.session.settled ==> Landed(h))
            && (h.refunded ==> h.session.settled)
            && var charged := Sent(h.events, payer) - Received(h.events, payer);
            && charged == (if !Landed(h) then 0 else if h.refunded then h.session.spent else h.session.budget)
            && (charged == h.session.spent <==>
                  h.refunded || (Landed(h) && h.session.spent == h.session.budget)
                    || (!Landed(h) && h.session.spent == 0))
  {
    hide Run;
    RunInv(token, now, cfg, steps);
    var h := Run(Begun(token, now), cfg, steps).held[k];
    assert Sound(h, cfg, Run(Begun(token, now), cfg, steps).token.used);
    NetOf(h, cfg);
  }

  lemma {:induction false} NetOf(h: Held, cfg: Config)
    requires h.session.p.auth.from != cfg.payTo && h.session.spent <= h.session.budget
    requires Landed(h) ==> h.events == Moved(h, cfg)
    ensures var payer := h.session.p.auth.from;
            Sent(h.events, payer) - Received(h.events, payer) ==
              if !Landed(h) then 0 else if h.refunded then h.session.spent else h.session.budget
  {
    if Landed(h) {
      var payer := h.session.p.auth.from;
      var first := TransferEvent(payer, cfg.payTo, h.session.budget);
      assert Init([first]) == [];
      if h.refunded {
        var second := TransferEvent(cfg.payTo, payer, h.session.budget - h.session.spent);
        InitOfSnoc([first], second);
        assert h.events == [first] + [second];
        assert Sent([first], payer) == h.session.budget && Received([first], payer) == 0;
      } else {
        ConcatEmpty([first]);
      }
    }
  }

  /** However many sessions carry it, an authorization is executed for one of them at most, and
      each settled session is one recorded settlement. */
  lemma {:induction false} SessionsSettleOnce(token: Token.TokenState, now: int, cfg: Config, steps: seq<Step>)
    ensures var w := Run(Begun(token, now), cfg, steps);
            OncePerKey(w.held) && |w.settlements| == Settled(w.held)
  {
    hide Run;
    RunInv(token, now, cfg, steps);
  }

  /** After its settlement a session is closed for good: whatever follows leaves it as it is. */
  lemma {:induction false} NothingAfterSettlement(w: World, cfg: Config, steps: seq<Step>, k: nat)
    requires k < |w.held| && w.held[k].session.settled
    ensures k < |Run(w, cfg, steps).held| && Run(w, cfg, steps).held[k] == w.held[k]
  {
    hide SettleSession, OpenStep, MayDraw;
    if steps != [] {
      NothingAfterSettlement(w, cfg, Init(steps), k);
      OpenOnlyAdds(Run(w, cfg, Init(steps)), cfg, Last(steps));
    }
  }

  lemma {:induction false} OpenOnlyAdds(w: World, cfg: Config, step: Step)
    ensures step.Open? ==> w.held <= OpenStep(w, cfg, step.id, step.p, step.middle).held
  {
    hide VerifyPayment;
  }

  /** Whatever has happened before: a request is served from an unsettled session only, and only while
      its authorization has more than the margin left to run, provided that the expiry fits 64
      bits. */
  lemma {:induction false} DrawsAreInTime(token: Token.TokenState, now: int, cfg: Config, steps: seq<Step>, k: nat)
    requires steps != []
    requires var w, w' := Run(Begun(token, now), cfg, Init(steps)), Run(Begun(token, now), cfg, steps);
             k < |w.held| && k < |w'.held| && w'.held[k].served > w.held[k].served
    requires 0 < Run(Begun(token, now), cfg, Init(steps)).held[k].session.p.auth.validBefore < INT64_SPACE / 2
    ensures var w := Run(Begun(token, now), cfg, Init(steps));
            && Last(steps).Handle? && Last(steps).k == k && !w.held[k].session.settled
            && Policy.UnixSeconds(w.now) < w.held[k].session.p.auth.validBefore - SESSION_MARGIN
  {
    RunInv(token, now, cfg, Init(steps));
    hide SettleSession, VerifyPayment, Landed, Moved, KeyOf;
    var w := Run(Begun(token, now), cfg, Init(steps));
    assert Sound(w.held[k], cfg, w.token.used);
  }
}
