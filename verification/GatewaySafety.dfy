/** What holds in every reachable state of the gateway, for every interleaving of requests: where
    each settlement is, and that an authorization settles and is served at most once. */
module GatewaySafety {
  import opened Common
  import opened MandateAccounts
  import opened Policy
  import opened Gateway
  import Token = Stablecoin
  import TokenLaws

  // ---- Phases name their payment, and a transaction settles one authorization ----

  type Landings = map<TxHash, AuthKey>

  predicate HasTx(ph: Phase) { !ph.Verified? && !ph.Settling? }

  function TxOf(ph: Phase): TxHash
    requires HasTx(ph)
  {
    if ph.Mined? then ph.tx else ph.record.tx
  }

  predicate RecordMatches(r: Record, p: Payment) { r.payer == p.auth.from && r.amount == p.auth.value }

  predicate Lands(landed: Landings, tx: TxHash, p: Payment) { tx in landed && landed[tx] == KeyOf(p) }

  predicate PhaseOk(landed: Landings, n: Nonce, ph: Phase) {
    && ph.p.auth.nonce == n
    && (HasTx(ph) ==> Lands(landed, TxOf(ph), ph.p))
    && (HasTx(ph) && !ph.Mined? ==> RecordMatches(ph.record, ph.p))
  }

  predicate DeferredOk(landed: Landings, n: Nonce, d: Deferred) {
    && d.p.auth.nonce == n
    && Lands(landed, d.record.tx, d.p)
    && RecordMatches(d.record, d.p)
  }

  ghost predicate ActiveOk(landed: Landings, active: map<Nonce, Phase>) {
    forall n :: n in active ==> PhaseOk(landed, n, active[n])
  }

  ghost predicate InflightOk(landed: Landings, inflight: map<Nonce, Deferred>) {
    forall n :: n in inflight ==> DeferredOk(landed, n, inflight[n])
  }

  /** Each landed transaction spent an authorization of its own. */
  ghost predicate LandedOk(landed: Landings, txs: set<TxHash>, used: set<AuthKey>) {
    && landed.Keys <= txs
    && (forall x :: x in landed ==> landed[x] in used)
    && (forall x, y :: x in landed && y in landed && landed[x] == landed[y] ==> x == y)
  }

  ghost predicate Apart(active: map<Nonce, Phase>, inflight: map<Nonce, Deferred>) {
    forall n :: n in active ==> n !in inflight
  }

  ghost predicate Shape(g: State) {
    && LandedOk(g.landed, g.txs, g.token.used)
    && ActiveOk(g.landed, g.active)
    && InflightOk(g.landed, g.inflight)
    && Apart(g.active, g.inflight)
  }

  lemma {:induction false} ActivePut(landed: Landings, active: map<Nonce, Phase>, n: Nonce, ph: Phase)
    requires ActiveOk(landed, active) && PhaseOk(landed, n, ph)
    ensures ActiveOk(landed, active[n := ph])
  {}

  lemma {:induction false} ActiveDrop(landed: Landings, active: map<Nonce, Phase>, n: Nonce)
    requires ActiveOk(landed, active)
    ensures ActiveOk(landed, active - {n})
    ensures n in active ==> PhaseOk(landed, n, active[n])
  {}

  lemma {:induction false} InflightPut(landed: Landings, inflight: map<Nonce, Deferred>, n: Nonce, d: Deferred)
    requires InflightOk(landed, inflight) && DeferredOk(landed, n, d)
    ensures InflightOk(landed, inflight[n := d])
  {}

  lemma {:induction false} InflightDrop(landed: Landings, inflight: map<Nonce, Deferred>, n: Nonce)
    requires InflightOk(landed, inflight)
    ensures InflightOk(landed, inflight - {n})
    ensures n in inflight ==> DeferredOk(landed, n, inflight[n])
  {}

  lemma {:induction false} LandedPut(landed: Landings, txs: set<TxHash>, used: set<AuthKey>, tx: TxHash, key: AuthKey)
    requires LandedOk(landed, txs, used) && tx !in txs && key !in used
    ensures LandedOk(landed[tx := key], txs + {tx}, used + {key})
  {}

  lemma {:induction false} LandedWider(landed: Landings, txs: set<TxHash>, used: set<AuthKey>, txs': set<TxHash>,
      used': set<AuthKey>)
    requires LandedOk(landed, txs, used) && txs <= txs' && used <= used'
    ensures LandedOk(landed, txs', used')
  {}

  lemma {:induction false} LandedGrows(landed: Landings, txs: set<TxHash>, used: set<AuthKey>, tx: TxHash, key: AuthKey,
      active: map<Nonce, Phase>, inflight: map<Nonce, Deferred>)
    requires LandedOk(landed, txs, used) && tx !in txs
    requires ActiveOk(landed, active) && InflightOk(landed, inflight)
    ensures ActiveOk(landed[tx := key], active) && InflightOk(landed[tx := key], inflight)
  {
    forall n | n in active
      ensures PhaseOk(landed[tx := key], n, active[n])
    {
      assert PhaseOk(landed, n, active[n]);
    }
    forall n | n in inflight
      ensures DeferredOk(landed[tx := key], n, inflight[n])
    {
      assert DeferredOk(landed, n, inflight[n]);
    }
  }

  /** What verification leaves to the chain: a verified payment submitted at once settles exactly when
      the token is not paused, both ends are real accounts, the payee is not frozen and the
      allowlist admits both. */
  lemma {:induction false} VerifiedSettlesIff(g: State, cfg: Config, p: Payment)
    requires Token.Solid(g.token) && g.now >= 0
    requires VerifyPayment(cfg, g.token, p, UnixSeconds(g.now))
    ensures var c := g.token.controls;
            OnChain(g, cfg, p).Done? <==>
              && !c.paused && p.auth.from != ZERO_ADDRESS && cfg.payTo != ZERO_ADDRESS && cfg.payTo !in c.frozen
              && (c.allowlistEnabled ==> p.auth.from in c.allowed && cfg.payTo in c.allowed)
  {
    hide Token.Move, Sum;
    var st := g.token.(used := g.token.used + {KeyOf(p)});
    TokenLaws.MoveLaw(st, p.auth.from, cfg.payTo, p.auth.value);
  }

  /** A landed authorization was unused before and is used after. */
  lemma {:induction false} MarksUsed(g: State, cfg: Config, p: Payment)
    requires OnChain(g, cfg, p).Done?
    ensures KeyOf(p) !in g.token.used && OnChain(g, cfg, p).state.used == g.token.used + {KeyOf(p)}
  {}

  lemma {:induction false} TransferKeepsUsed(st: Token.TokenState, from: Address, to: Address, value: Token.Word)
    ensures Token.Transfer(st, from, to, value).Done? ==> Token.Transfer(st, from, to, value).state.used == st.used
  {}

  lemma {:induction false} RefundKeepsUsed(g: State, cfg: Config, r: Record)
    requires RefundOutcome(g, cfg, r).Done?
    ensures RefundOutcome(g, cfg, r).state.used == g.token.used
  {
    hide Token.Transfer;
    TransferKeepsUsed(g.token, cfg.payTo, r.payer, r.amount);
  }

  /** The end of a delivery, as one update of the state. */
  lemma {:induction false} DeliverAsUpdate(g: State, cfg: Config, n: Nonce, delivered: bool, refundTx: TxHash,
      refund: Reply, written: bool)
    requires n in g.active && g.active[n].Delivering?
    ensures var r := g.active[n].record;
            var served := !cfg.hasDeliverer || delivered;
            var lands := !served && cfg.hasRefunder && refund != NotIncluded && RefundOutcome(g, cfg, r).Done?;
            var refunded := lands && refund == Reported;
            DeliverStep(g, cfg, n, delivered, refundTx, refund, written) ==
              g.(active := g.active - {n},
                 token := if lands then RefundOutcome(g, cfg, r).state else g.token,
                 txs := if lands then g.txs + {refundTx} else g.txs,
                 served := if served then g.served + [Served(r, n)] else g.served,
                 fates := g.fates[
                   r.tx := if served then Delivered else if refunded then Refunded(refundTx) else RefundPending],
                 journal := if served then g.journal
                            else if refunded then AppendEntry(g.journal,
                                                              Entry(OfTx(refundTx), RefundBody(r.payer, r.amount)),
                                                                written)
                            else AppendEntry(g.journal, Entry(OfPending(r.tx), RefundPendingBody(r.payer, r.amount)),
                                             written))
  {
    hide RefundOutcome, AppendEntry;
  }

  /** A decision, as one update of the state. */
  lemma {:induction false} DecideAsUpdate(g: State, cfg: Config, n: Nonce, middle: seq<Decision>, written: bool)
    requires n in g.active && g.active[n].Verified?
    ensures var p, valid := g.active[n].p, g.active[n].valid;
            var decision := ChainDecide(g, cfg, p, valid, middle, PreSettlement);
            var action := decision.0.action;
            DecideStep(g, cfg, n, middle, written) ==
              g.(accounts := decision.1,
                 journal := AppendEntry(g.journal, DecisionEntry(p, g.now, false), written),
                 active := if action == Approve || action == Defer
                           then g.active[n := Settling(p, action == Defer, HeldBy(g, cfg, p, valid, middle))]
                           else g.active - {n})
  {
    hide ChainDecide, HeldBy, AppendEntry, DecisionEntry;
  }

  lemma {:induction false} ShapeDecide(g: State, cfg: Config, n: Nonce, middle: seq<Decision>, written: bool)
    requires Shape(g) && n in g.active && g.active[n].Verified?
    ensures Shape(DecideStep(g, cfg, n, middle, written))
  {
    hide ChainDecide, HeldBy, AppendEntry, ActiveOk, InflightOk, LandedOk, Apart;
    var p := g.active[n].p;
    ActiveDrop(g.landed, g.active, n);
    var held := HeldBy(g, cfg, p, g.active[n].valid, middle);
    ActivePut(g.landed, g.active, n, Settling(p, false, held));
    ActivePut(g.landed, g.active, n, Settling(p, true, held));
    ApartSame(g.active, g.inflight, n, Settling(p, false, held));
    ApartSame(g.active, g.inflight, n, Settling(p, true, held));
  }

  /** Changing or finishing an active request keeps it apart from the deferred ones. */
  lemma {:induction false} ApartSame(active: map<Nonce, Phase>, inflight: map<Nonce, Deferred>, n: Nonce, ph: Phase)
    requires Apart(active, inflight) && (n in active || n !in inflight)
    ensures Apart(active[n := ph], inflight) && Apart(active - {n}, inflight)
  {}

  lemma {:induction false} ShapeSubmit(g: State, cfg: Config, n: Nonce, tx: TxHash, included: bool, reported: bool,
      block: nat)
    requires Shape(g) && n in g.active && g.active[n].Settling? && tx !in g.txs
    ensures Shape(SubmitStep(g, cfg, n, tx, included, reported, block))
  {
    hide OnChain, Notified, ActiveOk, InflightOk, LandedOk, Apart;
    var ph := g.active[n];
    ActiveDrop(g.landed, g.active, n);
    ApartSame(g.active, g.inflight, n, Mined(ph.p, ph.deferred, ph.held, tx, block));
    if included && OnChain(g, cfg, ph.p).Done? {
      var landed := g.landed[tx := KeyOf(ph.p)];
      MarksUsed(g, cfg, ph.p);
      LandedPut(g.landed, g.txs, g.token.used, tx, KeyOf(ph.p));
      LandedGrows(g.landed, g.txs, g.token.used, tx, KeyOf(ph.p), g.active, g.inflight);
      ActivePut(landed, g.active, n, Mined(ph.p, ph.deferred, ph.held, tx, block));
      ActiveDrop(landed, g.active, n);
    } else {
      LandedWider(g.landed, g.txs, g.token.used, g.txs + {tx}, g.token.used);
    }
  }

  lemma {:induction false} ShapeJournal(g: State, n: Nonce, written: bool)
    requires Shape(g) && n in g.active && g.active[n].Mined?
    ensures Shape(JournalStep(g, n, written))
  {
    hide Notified, AppendEntry, ActiveOk, InflightOk, LandedOk, Apart;
    var ph := g.active[n];
    ActiveDrop(g.landed, g.active, n);
    var next := Journaled(ph.p, ph.deferred, ph.held, RecordFor(g, ph.p, ph.tx), ph.block);
    ActivePut(g.landed, g.active, n, next);
    ApartSame(g.active, g.inflight, n, next);
  }

  lemma {:induction false} ShapeCommit(g: State, n: Nonce)
    requires Shape(g) && n in g.active && g.active[n].Journaled?
    ensures Shape(CommitStep(g, n))
  {
    hide Notified, ActiveOk, InflightOk, LandedOk, Apart;
    var ph := g.active[n];
    ActiveDrop(g.landed, g.active, n);
    ActivePut(g.landed, g.active, n, Committed(ph.p, ph.deferred, ph.record, ph.block, g.now));
    ApartSame(g.active, g.inflight, n, Committed(ph.p, ph.deferred, ph.record, ph.block, g.now));
  }

  lemma {:induction false} ShapeList(g: State, n: Nonce)
    requires Shape(g) && n in g.active && g.active[n].Committed?
    ensures Shape(ListStep(g, n))
  {
    hide ActiveOk, InflightOk, LandedOk, Apart;
    var ph := g.active[n];
    ActiveDrop(g.landed, g.active, n);
    ActivePut(g.landed, g.active, n, Listed(ph.p, ph.deferred, ph.record, ph.block, ph.at));
    ApartSame(g.active, g.inflight, n, Listed(ph.p, ph.deferred, ph.record, ph.block, ph.at));
  }

  lemma {:induction false} ShapeStamp(g: State, n: Nonce, written: bool, receiptKnown: bool)
    requires Shape(g) && n in g.active && g.active[n].Listed?
    ensures Shape(StampStep(g, n, written, receiptKnown))
  {
    hide AppendEntry, ActiveOk, InflightOk, LandedOk, Apart;
    var ph := g.active[n];
    var kept := Deferred(ph.p, ph.record, if receiptKnown then ph.block else 0);
    ActiveDrop(g.landed, g.active, n);
    ActivePut(g.landed, g.active, n, Delivering(ph.p, ph.record));
    ApartSame(g.active, g.inflight, n, Delivering(ph.p, ph.record));
    InflightPut(g.landed, g.inflight, n, kept);
    ApartMoves(g.active, g.inflight, n, kept);
  }

  lemma {:induction false} ApartMoves(active: map<Nonce, Phase>, inflight: map<Nonce, Deferred>, n: Nonce, d: Deferred)
    requires Apart(active, inflight)
    ensures Apart(active - {n}, inflight[n := d])
  {}

  lemma {:induction false} ShapeDeliver(g: State, cfg: Config, n: Nonce, delivered: bool, refundTx: TxHash,
      refund: Reply, written: bool)
    requires Shape(g) && n in g.active && g.active[n].Delivering?
    ensures Shape(DeliverStep(g, cfg, n, delivered, refundTx, refund, written))
  {
    hide AppendEntry, RefundOutcome, ActiveOk, InflightOk, LandedOk, Apart;
    ActiveDrop(g.landed, g.active, n);
    ApartSame(g.active, g.inflight, n, g.active[n]);
    if RefundOutcome(g, cfg, g.active[n].record).Done? {
      RefundKeepsUsed(g, cfg, g.active[n].record);
      LandedWider(g.landed, g.txs, g.token.used, g.txs + {refundTx}, g.token.used);
    }
  }

  lemma {:induction false} ShapeResume(g: State, cfg: Config, p: Payment, middle: seq<Decision>)
    requires Shape(g) && Enabled(g, Resume(p, middle))
    ensures Shape(ResumeStep(g, cfg, p, middle))
  {
    hide ChainDecide, ActiveOk, InflightOk, LandedOk, Apart;
    var n := p.auth.nonce;
    var df := g.inflight[n];
    var next := Delivering(df.p, df.record);
    InflightDrop(g.landed, g.inflight, n);
    ActivePut(g.landed, g.active, n, next);
    ApartResumes(g.active, g.inflight, n, next);
  }

  lemma {:induction false} ApartResumes(active: map<Nonce, Phase>, inflight: map<Nonce, Deferred>, n: Nonce, ph: Phase)
    requires Apart(active, inflight)
    ensures Apart(active[n := ph], inflight - {n})
  {}

  lemma {:induction false} ShapeArrive(g: State, cfg: Config, p: Payment)
    requires Shape(g) && Enabled(g, Arrive(p))
    ensures Shape(ArriveStep(g, cfg, p))
  {
    hide VerifyPayment, ActiveOk, InflightOk, LandedOk, Apart;
    var ph := Verified(p, VerifyPayment(cfg, g.token, p, UnixSeconds(g.now)));
    ActivePut(g.landed, g.active, p.auth.nonce, ph);
    ApartSame(g.active, g.inflight, p.auth.nonce, ph);
  }

  lemma {:induction false} ShapeKept(g: State, cfg: Config, step: Step)
    requires Shape(g) && Enabled(g, step)
    ensures Shape(Next(g, cfg, step))
  {
    hide ArriveStep, DecideStep, SubmitStep, JournalStep, CommitStep, ListStep, StampStep, DeliverStep, ResumeStep,
         AppendEntry;
    hide ActiveOk, InflightOk, LandedOk, Apart, Token.StateAfter;
    match step
    case Arrive(p) => ShapeArrive(g, cfg, p);
    case DecideOn(n, middle, written) => ShapeDecide(g, cfg, n, middle, written);
    case Submit(n, tx, included, reported, block) => ShapeSubmit(g, cfg, n, tx, included, reported, block);
    case Journal(n, written) => ShapeJournal(g, n, written);
    case CommitIt(n) => ShapeCommit(g, n);
    case ListIt(n) => ShapeList(g, n);
    case StampIt(n, written, receiptKnown) => ShapeStamp(g, n, written, receiptKnown);
    case Deliver(n, delivered, refundTx, refund, written) =>
      ShapeDeliver(g, cfg, n, delivered, refundTx, refund, written);
    case Resume(p, middle) => ShapeResume(g, cfg, p, middle);
    case RevokeIt(_, _, _) =>
    case Outside(call) =>
      Token.OneTransactionUsed(g.token, call);
      LandedWider(g.landed, g.txs, g.token.used, g.txs, Token.StateAfter(g.token, call).used);
    case Tick(_, _) =>
  }
}
