/** A gateway over several lives: it stops at any moment, requests under way or not, and a new one takes
    over its journal. What still holds across the restarts, and what a restart strands. */
module GatewayLives {
  import opened Common
  import opened MandateAccounts
  import opened Policy
  import opened Gateway
  import opened GatewaySafety
  import opened GatewayPlaces
  import opened GatewayMirror
  import opened GatewayOutcomes
  import Token = Stablecoin

  /** The gateway as it starts its next life. */
  ghost function Woken(g0: State, cfg: Config, lives: seq<seq<Step>>): State
    requires ValidLives(g0, cfg, lives)
    decreases |lives|, 1
  {
    if lives == [] then g0 else Restarted(After(Woken(g0, cfg, Init(lives)), cfg, Last(lives)))
  }

  ghost predicate ValidLives(g0: State, cfg: Config, lives: seq<seq<Step>>)
    decreases |lives|, 0
  {
    lives != [] ==> ValidLives(g0, cfg, Init(lives)) && ValidRun(Woken(g0, cfg, Init(lives)), cfg, Last(lives))
  }

  // ---- Transactions a gateway has done with ----

  /** None of these transactions is on any request's hands. */
  ghost predicate Clear(g: State, done: set<TxHash>) {
    && done <= g.txs
    && (forall n :: n in g.active && HasTx(g.active[n]) ==> TxOf(g.active[n]) !in done)
    && (forall n :: n in g.inflight ==> g.inflight[n].record.tx !in done)
  }

  /** A request moves to a phase with a transaction that is not done, or ends. */
  lemma {:induction false} ClearMove(g: State, g': State, done: set<TxHash>, n: Nonce, ph: Phase)
    requires Clear(g, done) && g.txs <= g'.txs
    requires HasTx(ph) ==> TxOf(ph) !in done
    requires g'.active == g.active || g'.active == g.active[n := ph] || g'.active == g.active - {n}
    requires g'.inflight == g.inflight
    ensures Clear(g', done)
  {}

  lemma {:induction false} ClearAt(g: State, done: set<TxHash>, n: Nonce)
    requires Clear(g, done) && n in g.active && HasTx(g.active[n])
    ensures TxOf(g.active[n]) !in done
  {}

  lemma {:induction false} ClearStamp(g: State, n: Nonce, written: bool, receiptKnown: bool, done: set<TxHash>)
    requires Clear(g, done) && n in g.active && g.active[n].Listed?
    ensures Clear(StampStep(g, n, written, receiptKnown), done)
  {
    hide AppendEntry;
    assert TxOf(g.active[n]) !in done;
  }

  lemma {:induction false} ClearResume(g: State, cfg: Config, p: Payment, middle: seq<Decision>, done: set<TxHash>)
    requires Clear(g, done) && Enabled(g, Resume(p, middle))
    ensures Clear(ResumeStep(g, cfg, p, middle), done)
  {
    hide ChainDecide;
  }

  lemma {:induction false} ClearDecide(g: State, cfg: Config, n: Nonce, middle: seq<Decision>, written: bool,
      done: set<TxHash>)
    requires Enabled(g, DecideOn(n, middle, written)) && Clear(g, done)
    ensures Clear(DecideStep(g, cfg, n, middle, written), done)
  {
    DecideAsUpdate(g, cfg, n, middle, written);
    hide Clear, DecideStep, AppendEntry, ChainDecide, HeldBy;
    var p, valid := g.active[n].p, g.active[n].valid;
    var action := ChainDecide(g, cfg, p, valid, middle, PreSettlement).0.action;
    ClearMove(g, DecideStep(g, cfg, n, middle, written), done, n,
              Settling(p, action == Defer, HeldBy(g, cfg, p, valid, middle)));
  }

  lemma {:induction false} ClearSubmit(g: State, cfg: Config, n: Nonce, tx: TxHash, included: bool, reported: bool,
      block: nat, done: set<TxHash>)
    requires Enabled(g, Step.Submit(n, tx, included, reported, block)) && Clear(g, done)
    ensures Clear(SubmitStep(g, cfg, n, tx, included, reported, block), done)
  {
    assert tx !in done;
    IdleSubmit(g, cfg, n, tx, included, reported, block);
    SubmitKeeps(g, cfg, n, tx, included, reported, block);
    hide Clear, SubmitStep;
    var ph := g.active[n];
    ClearMove(g, SubmitStep(g, cfg, n, tx, included, reported, block), done, n,
              Mined(ph.p, ph.deferred, ph.held, tx, block));
  }

  lemma {:induction false} ClearCommit(g: State, n: Nonce, done: set<TxHash>)
    requires Clear(g, done) && n in g.active && g.active[n].Journaled?
    ensures Clear(CommitStep(g, n), done)
  {
    ClearAt(g, done, n);
    hide Clear, Notified;
    var ph := g.active[n];
    ClearMove(g, CommitStep(g, n), done, n, Committed(ph.p, ph.deferred, ph.record, ph.block, g.now));
  }

  lemma {:induction false} ClearList(g: State, n: Nonce, done: set<TxHash>)
    requires Clear(g, done) && n in g.active && g.active[n].Committed?
    ensures Clear(ListStep(g, n), done)
  {
    ClearAt(g, done, n);
    hide Clear;
    var ph := g.active[n];
    ClearMove(g, ListStep(g, n), done, n, Listed(ph.p, ph.deferred, ph.record, ph.block, ph.at));
  }

  lemma {:induction false} ClearDeliver(g: State, cfg: Config, n: Nonce, delivered: bool, refundTx: TxHash,
      refund: Reply, written: bool, done: set<TxHash>)
    requires Enabled(g, Step.Deliver(n, delivered, refundTx, refund, written)) && Clear(g, done)
    ensures Clear(DeliverStep(g, cfg, n, delivered, refundTx, refund, written), done)
  {
    DeliverAsUpdate(g, cfg, n, delivered, refundTx, refund, written);
    hide Clear, DeliverStep, AppendEntry, RefundOutcome;
    ClearMove(g, DeliverStep(g, cfg, n, delivered, refundTx, refund, written), done, n,
              Verified(g.active[n].p, false));
  }

  lemma {:induction false} ClearKept(g: State, cfg: Config, step: Step, done: set<TxHash>)
    requires Enabled(g, step) && Clear(g, done)
    ensures Clear(Next(g, cfg, step), done)
  {
    assert step.Submit? ==> step.tx !in done;
    hide Clear, DecideStep, SubmitStep, JournalStep, CommitStep, ListStep, StampStep, DeliverStep, ResumeStep,
         AppendEntry, VerifyPayment;
    var g' := Next(g, cfg, step);
    match step
    case Arrive(p) => ClearMove(g, g', done, p.auth.nonce,
                                Verified(p, VerifyPayment(cfg, g.token, p, UnixSeconds(g.now))));
    case DecideOn(n, middle, written) => ClearDecide(g, cfg, n, middle, written, done);
    case Submit(n, tx, included, reported, block) => ClearSubmit(g, cfg, n, tx, included, reported, block, done);
    case Journal(n, written) => ClearJournal(g, n, written, done);
    case CommitIt(n) => ClearCommit(g, n, done);
    case ListIt(n) => ClearList(g, n, done);
    case StampIt(n, written, receiptKnown) => ClearStamp(g, n, written, receiptKnown, done);
    case Deliver(n, delivered, refundTx, refund, written) =>
      ClearDeliver(g, cfg, n, delivered, refundTx, refund, written, done);
    case Resume(p, middle) => ClearResume(g, cfg, p, middle, done);
    case _ => ClearMove(g, g', done, 0, Verified(Blank, false));
  }

  const Blank: Payment := Payment(Token.Authorization(0, 0, 0, 0, 0, 0), 0, false, false, None, false, false, "")

  lemma {:induction false} ClearJournal(g: State, n: Nonce, written: bool, done: set<TxHash>)
    requires Clear(g, done) && n in g.active && g.active[n].Mined?
    ensures Clear(JournalStep(g, n, written), done)
  {
    ClearAt(g, done, n);
    hide Clear, Notified, AppendEntry;
    var ph := g.active[n];
    ClearMove(g, JournalStep(g, n, written), done, n,
              Journaled(ph.p, ph.deferred, ph.held, RecordFor(g, ph.p, ph.tx), ph.block));
  }

  lemma {:induction false} ClearRun(g: State, cfg: Config, steps: seq<Step>, done: set<TxHash>)
    requires ValidRun(g, cfg, steps) && Clear(g, done)
    ensures Clear(After(g, cfg, steps), done)
  {
    hide Next, Clear;
    if steps != [] {
      ClearRun(g, cfg, Init(steps), done);
      ClearKept(After(g, cfg, Init(steps)), cfg, Last(steps), done);
    }
  }

  // ---- Served once ----

  /** Nothing that was served is on any request's hands, or was served twice. */
  ghost predicate Once(g: State) {
    && Distinct(Records(g.served))
    && Txs(Records(g.served)) <= g.landed.Keys
    && Clear(g, Txs(Records(g.served)))
  }

  lemma {:induction false} RecordsSnoc(served: seq<Served>, s: Served)
    ensures Records(served + [s]) == Records(served) + [s.record]
    ensures Txs(Records(served + [s])) == Txs(Records(served)) + {s.record.tx}
    ensures Distinct(Records(served)) && s.record.tx !in Txs(Records(served)) ==> Distinct(Records(served + [s]))
  {
    InitOfSnoc(served, s);
    TxsSnoc(Records(served), s.record);
  }

  /** What a request hands over is on no other request's hands. */
  lemma {:induction false} ClearOfMine(g: State, g': State, n: Nonce, done: set<TxHash>)
    requires Shape(g) && Clear(g, done) && n in g.active && g.active[n].Delivering?
    requires g'.active == g.active - {n} && g'.inflight == g.inflight && g.txs <= g'.txs
    ensures Clear(g', done + {g.active[n].record.tx})
  {
    var tx := g.active[n].record.tx;
    assert PhaseOk(g.landed, n, g.active[n]);
    forall k | k in g'.active && HasTx(g'.active[k])
      ensures TxOf(g'.active[k]) != tx
    {
      assert PhaseOk(g.landed, k, g.active[k]);
    }
    forall k | k in g'.inflight
      ensures g'.inflight[k].record.tx != tx
    {
      assert DeferredOk(g.landed, k, g.inflight[k]);
    }
  }

  lemma {:induction false} OnceDeliver(g: State, cfg: Config, n: Nonce, delivered: bool, refundTx: TxHash,
      refund: Reply, written: bool)
    requires Shape(g) && Once(g) && n in g.active && g.active[n].Delivering?
    ensures Once(DeliverStep(g, cfg, n, delivered, refundTx, refund, written))
  {
    hide AppendEntry, RefundOutcome, DeliverStep, Distinct, Txs, Records;
    DeliverAsUpdate(g, cfg, n, delivered, refundTx, refund, written);
    var g' := DeliverStep(g, cfg, n, delivered, refundTx, refund, written);
    ClearAt(g, Txs(Records(g.served)), n);
    assert PhaseOk(g.landed, n, g.active[n]);
    hide Shape, Clear;
    RecordsSnoc(g.served, Served(g.active[n].record, n));
    ClearOfMine(g, g', n, Txs(Records(g.served)));
    ClearMove(g, g', Txs(Records(g.served)), n, Verified(g.active[n].p, false));
  }

  lemma {:induction false} OnceKept(g: State, cfg: Config, step: Step)
    requires Shape(g) && Once(g) && Enabled(g, step)
    ensures Once(Next(g, cfg, step))
  {
    hide Shape, Clear, Distinct, Txs, Records;
    ClearKept(g, cfg, step, Txs(Records(g.served)));
    if step.Deliver? {
      hide DeliverStep;
      OnceDeliver(g, cfg, step.nonce, step.delivered, step.refundTx, step.refund, step.written);
    } else {
      FatesByStep(g, cfg, step);
      LandingsGrow(g, cfg, step);
      hide Next;
    }
  }

  lemma {:induction false} LandingsGrow(g: State, cfg: Config, step: Step)
    requires Enabled(g, step)
    ensures g.landed.Keys <= Next(g, cfg, step).landed.Keys
  {
    hide DecideStep, DeliverStep, ResumeStep, JournalStep, StampStep, AppendEntry, OnChain, Notified, VerifyPayment,
         Token.StateAfter;
    match step
    case DecideOn(n, middle, written) => DecideAsUpdate(g, cfg, n, middle, written);
    case Deliver(n, delivered, refundTx, refund, written) =>
      DeliverAsUpdate(g, cfg, n, delivered, refundTx, refund, written);
    case Resume(p, middle) => ResumeLandings(g, cfg, p, middle);
    case Journal(n, written) => JournalLandings(g, n, written);
    case StampIt(n, written, receiptKnown) => StampLandings(g, n, written, receiptKnown);
    case _ =>
  }

  lemma {:induction false} ResumeLandings(g: State, cfg: Config, p: Payment, middle: seq<Decision>)
    requires Enabled(g, Resume(p, middle))
    ensures ResumeStep(g, cfg, p, middle).landed == g.landed
  {
    hide ChainDecide;
  }

  lemma {:induction false} JournalLandings(g: State, n: Nonce, written: bool)
    requires n in g.active && g.active[n].Mined?
    ensures JournalStep(g, n, written).landed == g.landed
  {
    hide Notified, AppendEntry;
  }

  lemma {:induction false} StampLandings(g: State, n: Nonce, written: bool, receiptKnown: bool)
    requires n in g.active && g.active[n].Listed?
    ensures StampStep(g, n, written, receiptKnown).landed == g.landed
  {
    hide AppendEntry;
  }

  lemma {:induction false} RunOnce(g: State, cfg: Config, steps: seq<Step>)
    requires ValidRun(g, cfg, steps) && Shape(g) && Once(g)
    ensures Shape(After(g, cfg, steps)) && Once(After(g, cfg, steps))
  {
    hide Next, Shape, Once;
    if steps != [] {
      RunOnce(g, cfg, Init(steps));
      ShapeKept(After(g, cfg, Init(steps)), cfg, Last(steps));
      OnceKept(After(g, cfg, Init(steps)), cfg, Last(steps));
    }
  }

  /** A restart forgets the requests and the deferred payments, not what was landed and served. */
  lemma {:induction false} RestartOnce(g: State)
    requires Shape(g) && Once(g)
    ensures Shape(Restarted(g)) && Once(Restarted(g))
  {
    hide Distinct, Txs, Records, RestoredAccounts, RestoredRevoked, RestoredSettlements;
  }

  lemma {:induction false} LivesOnce(token: Token.TokenState, head: nat, now: int, cfg: Config, lives: seq<seq<Step>>)
    requires ValidLives(Started(token, head, now), cfg, lives)
    ensures var g := Woken(Started(token, head, now), cfg, lives); Shape(g) && Once(g)
  {
    var g0 := Started(token, head, now);
    if lives == [] {
    } else {
      hide Shape, Once, After, Restarted, ValidRun;
      LivesOnce(token, head, now, cfg, Init(lives));
      RunOnce(Woken(g0, cfg, Init(lives)), cfg, Last(lives));
      RestartOnce(After(Woken(g0, cfg, Init(lives)), cfg, Last(lives)));
    }
  }

  /** Over any number of lives, whenever they end: no authorization is executed by two transactions of the
      gateway, and no two served payments are of the same authorization. */
  lemma {:induction false} OnceOverLives(token: Token.TokenState, head: nat, now: int, cfg: Config,
      lives: seq<seq<Step>>, steps: seq<Step>, i: nat, j: nat)
    requires ValidLives(Started(token, head, now), cfg, lives)
    requires ValidRun(Woken(Started(token, head, now), cfg, lives), cfg, steps)
    requires i < j < |After(Woken(Started(token, head, now), cfg, lives), cfg, steps).served|
    ensures var g := After(Woken(Started(token, head, now), cfg, lives), cfg, steps);
            var x, y := g.served[i].record.tx, g.served[j].record.tx;
            && (forall a, b :: a in g.landed && b in g.landed && g.landed[a] == g.landed[b] ==> a == b)
            && x in g.landed && y in g.landed && g.landed[x] != g.landed[y]
  {
    hide After, ValidRun, ValidLives, Woken, Clear, ActiveOk, InflightOk, GatewaySafety.Apart;
    var w := Woken(Started(token, head, now), cfg, lives);
    LivesOnce(token, head, now, cfg, lives);
    RunOnce(w, cfg, steps);
    var g := After(w, cfg, steps);
    RecordsAt(g.served);
    DistinctAt(Records(g.served), i, j);
  }

  // ---- Stranded ----

  /** The outcomes of these transactions are the same in both states. */
  ghost predicate SameOutcomes(before: map<TxHash, Fate>, after: map<TxHash, Fate>, done: set<TxHash>) {
    forall tx :: tx in done ==> (tx in after <==> tx in before) && (tx in before ==> after[tx] == before[tx])
  }

  lemma {:induction false} OutcomeOnHand(g: State, cfg: Config, step: Step, done: set<TxHash>)
    requires Enabled(g, step) && Clear(g, done)
    ensures SameOutcomes(g.fates, Next(g, cfg, step).fates, done)
  {
    if step.Deliver? {
      ClearAt(g, done, step.nonce);
      hide Clear, DeliverStep;
      DeliverAsUpdate(g, cfg, step.nonce, step.delivered, step.refundTx, step.refund, step.written);
    } else {
      hide Clear;
      FatesByStep(g, cfg, step);
      hide Next;
    }
  }

  lemma {:induction false} NoOutcomeInRun(g: State, cfg: Config, steps: seq<Step>, done: set<TxHash>)
    requires ValidRun(g, cfg, steps) && Clear(g, done)
    ensures SameOutcomes(g.fates, After(g, cfg, steps).fates, done)
  {
    hide Next, Clear;
    if steps != [] {
      NoOutcomeInRun(g, cfg, Init(steps), done);
      ClearRun(g, cfg, Init(steps), done);
      OutcomeOnHand(After(g, cfg, Init(steps)), cfg, Last(steps), done);
    }
  }

  lemma {:induction false} RestartClears(g: State, done: set<TxHash>)
    requires done <= g.txs
    ensures Clear(Restarted(g), done) && Restarted(g).fates == g.fates && Restarted(g).token == g.token
  {
    hide RestoredAccounts, RestoredRevoked, RestoredSettlements;
  }

  lemma {:induction false} NoOutcomeInLives(g: State, cfg: Config, lives: seq<seq<Step>>, done: set<TxHash>)
    requires ValidLives(g, cfg, lives) && Clear(g, done)
    ensures var w := Woken(g, cfg, lives); Clear(w, done) && SameOutcomes(g.fates, w.fates, done)
  {
    if lives != [] {
      hide Clear, After, ValidRun, Restarted;
      NoOutcomeInLives(g, cfg, Init(lives), done);
      var w := Woken(g, cfg, Init(lives));
      NoOutcomeInRun(w, cfg, Last(lives), done);
      ClearRun(w, cfg, Last(lives), done);
      ClearsKnown(After(w, cfg, Last(lives)), done);
      RestartClears(After(w, cfg, Last(lives)), done);
    }
  }

  lemma {:induction false} ClearsKnown(g: State, done: set<TxHash>)
    requires Clear(g, done)
    ensures done <= g.txs
  {}

  /** A restart settles the outcomes of everything before it: whatever state it finds, and over any number
      of lives after it, a transaction known before has the outcome it had, or none. */
  lemma {:induction false} RestartFixesOutcomes(g: State, cfg: Config, lives: seq<seq<Step>>, later: seq<Step>)
    requires ValidLives(Restarted(g), cfg, lives) && ValidRun(Woken(Restarted(g), cfg, lives), cfg, later)
    ensures SameOutcomes(g.fates, After(Woken(Restarted(g), cfg, lives), cfg, later).fates, g.txs)
  {
    hide Restarted, Clear, After, ValidRun, Woken, ValidLives;
    RestartClears(g, g.txs);
    NoOutcomeInLives(Restarted(g), cfg, lives, g.txs);
    NoOutcomeInRun(Woken(Restarted(g), cfg, lives), cfg, later, g.txs);
  }

  /** The authorization of a landed transaction stays spent. */
  lemma {:induction false} SpentForGood(g: State, cfg: Config, steps: seq<Step>, key: AuthKey)
    requires ValidRun(g, cfg, steps) && key in g.token.used
    ensures key in After(g, cfg, steps).token.used
  {
    hide Next;
    if steps != [] {
      SpentForGood(g, cfg, Init(steps), key);
      SpentByStep(After(g, cfg, Init(steps)), cfg, Last(steps), key);
    }
  }

  lemma {:induction false} SpentOverLives(g: State, cfg: Config, lives: seq<seq<Step>>, key: AuthKey)
    requires ValidLives(g, cfg, lives) && key in g.token.used
    ensures key in Woken(g, cfg, lives).token.used
  {
    if lives != [] {
      hide After, ValidRun, Restarted;
      SpentOverLives(g, cfg, Init(lives), key);
      SpentForGood(Woken(g, cfg, Init(lives)), cfg, Last(lives), key);
      RestartClears(After(Woken(g, cfg, Init(lives)), cfg, Last(lives)), {});
    }
  }

  lemma {:induction false} SpentByStep(g: State, cfg: Config, step: Step, key: AuthKey)
    requires Enabled(g, step) && key in g.token.used
    ensures key in Next(g, cfg, step).token.used
  {
    hide DecideStep, DeliverStep, ResumeStep, SubmitStep, JournalStep, StampStep, AppendEntry, Notified, VerifyPayment,
         Token.StateAfter;
    match step
    case DecideOn(n, middle, written) => DecideAsUpdate(g, cfg, n, middle, written);
    case Submit(n, tx, included, reported, block) => SpentBySubmit(g, cfg, n, tx, included, reported, block);
    case Journal(n, written) => SpentByJournal(g, n, written);
    case StampIt(n, written, receiptKnown) => SpentByStamp(g, n, written, receiptKnown);
    case Deliver(n, delivered, refundTx, refund, written) =>
      SpentByDeliver(g, cfg, n, delivered, refundTx, refund, written);
    case Resume(p, middle) => SpentByResume(g, cfg, p, middle);
    case Outside(call) => Token.OneTransactionUsed(g.token, call);
    case _ =>
  }

  lemma {:induction false} SpentBySubmit(g: State, cfg: Config, n: Nonce, tx: TxHash, included: bool, reported: bool,
      block: nat)
    requires n in g.active && g.active[n].Settling?
    ensures g.token.used <= SubmitStep(g, cfg, n, tx, included, reported, block).token.used
  {
    hide OnChain, Notified;
    if OnChain(g, cfg, g.active[n].p).Done? {
      MarksUsed(g, cfg, g.active[n].p);
    }
  }

  lemma {:induction false} SpentByJournal(g: State, n: Nonce, written: bool)
    requires n in g.active && g.active[n].Mined?
    ensures JournalStep(g, n, written).token == g.token
  {
    hide Notified, AppendEntry;
  }

  lemma {:induction false} SpentByStamp(g: State, n: Nonce, written: bool, receiptKnown: bool)
    requires n in g.active && g.active[n].Listed?
    ensures StampStep(g, n, written, receiptKnown).token == g.token
  {
    hide AppendEntry;
  }

  lemma {:induction false} SpentByDeliver(g: State, cfg: Config, n: Nonce, delivered: bool, refundTx: TxHash,
      refund: Reply, written: bool)
    requires n in g.active && g.active[n].Delivering?
    ensures DeliverStep(g, cfg, n, delivered, refundTx, refund, written).token.used == g.token.used
  {
    hide AppendEntry, RefundOutcome, DeliverStep;
    DeliverAsUpdate(g, cfg, n, delivered, refundTx, refund, written);
    if RefundOutcome(g, cfg, g.active[n].record).Done? {
      RefundKeepsUsed(g, cfg, g.active[n].record);
    }
  }

  lemma {:induction false} SpentByResume(g: State, cfg: Config, p: Payment, middle: seq<Decision>)
    requires Enabled(g, Resume(p, middle))
    ensures ResumeStep(g, cfg, p, middle).token == g.token
  {
    hide ChainDecide;
  }

  /** A settlement on a request's hands, from its journal line to its outcome, or deferred. */
  predicate AtHand(ph: Phase, tx: TxHash) { HasTx(ph) && !ph.Mined? && ph.record.tx == tx }

  ghost predicate OnHand(g: State, tx: TxHash) {
    || (exists n: Nonce :: n in g.active && AtHand(g.active[n], tx))
    || (exists n: Nonce :: InDeferral(g.inflight, n, tx))
  }

  /** In every reachable state: of the settlements the journal lists, those without an outcome are exactly
      those on someone's hands. */
  lemma {:induction false} OpenIffOnHand(g: State, r: Record)
    requires Shape(g) && Places(g) && MirrorOf(g) && r in RestoredSettlements(g.journal)
    ensures r.tx !in g.fates <==> OnHand(g, r.tx)
    ensures r.tx in g.landed
  {
    hide Distinct, ServedOk, Delivery, RestoredSettlements, GatewaySafety.Apart, LandedOk, Txs;
    if Pending(g.active, r) {
      var n: Nonce :| JournaledAs(g.active, n, r);
      assert PhaseOk(g.landed, n, g.active[n]) && Holding(Txs(g.settlements), g.fates.Keys, g.active[n]);
      assert AtHand(g.active[n], r.tx);
    } else {
      SecondsTxs(g.settlements, r);
      SettledOpenIff(g, r.tx);
    }
  }

  lemma {:induction false} SecondsTxs(s: seq<Record>, r: Record)
    requires r in Seconds(s)
    ensures r.tx in Txs(s)
  {
    if s != [] && r in Seconds(Init(s)) {
      SecondsTxs(Init(s), r);
    }
  }

  lemma {:induction false} SettledOpenIff(g: State, tx: TxHash)
    requires Shape(g) && Places(g) && tx in Txs(g.settlements)
    ensures tx !in g.fates <==> OnHand(g, tx)
    ensures tx in g.landed
  {
    hide Distinct, ServedOk, Delivery, GatewaySafety.Apart, LandedOk, Txs;
    if tx !in g.fates {
      var n := g.landed[tx].1;
      assert InDelivery(g.active, n, tx) || InDeferral(g.inflight, n, tx);
    } else {
      forall n: Nonce | n in g.active
        ensures !AtHand(g.active[n], tx)
      {
        assert Holding(Txs(g.settlements), g.fates.Keys, g.active[n]);
      }
    }
  }

  /** A stop strands exactly the settlements that were on someone's hands: over any number of later lives a
      settlement that the restarted gateway lists is neither served nor refunded nor noted as owed if and
      only if, at the stop, it was deferred or a request had it between its journal line and its
      outcome. And no retry of it ever verifies, because its authorization is spent. */
  lemma {:induction false} RestartStrandsIff(token: Token.TokenState, head: nat, now: int, cfg: Config,
      steps: seq<Step>, lives: seq<seq<Step>>, later: seq<Step>, r: Record, retry: Payment)
    requires ValidRun(Started(token, head, now), cfg, steps)
    requires ValidLives(Restarted(After(Started(token, head, now), cfg, steps)), cfg, lives)
    requires ValidRun(Woken(Restarted(After(Started(token, head, now), cfg, steps)), cfg, lives), cfg, later)
    requires r in Restarted(After(Started(token, head, now), cfg, steps)).settlements
    ensures var g := After(Started(token, head, now), cfg, steps);
            var g' := After(Woken(Restarted(g), cfg, lives), cfg, later);
            && (r.tx !in g'.fates <==> OnHand(g, r.tx))
            && r.tx in g.landed
            && (KeyOf(retry) == g.landed[r.tx] ==> !VerifyPayment(cfg, g'.token, retry, UnixSeconds(g'.now)))
  {
    var g := After(Started(token, head, now), cfg, steps);
    ListsTheJournal(g);
    RunPlaced(token, head, now, cfg, steps);
    RunMirrored(token, head, now, cfg, steps);
    hide After, ValidRun, Woken, ValidLives, Restarted, Shape, Places, MirrorOf, RestoredSettlements, OnHand, FreshOf,
         LinesDistinct;
    OpenIffOnHand(g, r);
    RestartFixesOutcomes(g, cfg, lives, later);
    LandedIsSpent(g, r.tx);
    var w := Restarted(g);
    RestartClears(g, {});
    SpentOverLives(w, cfg, lives, g.landed[r.tx]);
    SpentForGood(Woken(w, cfg, lives), cfg, later, g.landed[r.tx]);
  }

  lemma {:induction false} ListsTheJournal(g: State)
    ensures Restarted(g).settlements == RestoredSettlements(g.journal)
  {
    hide RestoredAccounts, RestoredRevoked, RestoredSettlements;
  }

  lemma {:induction false} LandedIsSpent(g: State, tx: TxHash)
    requires Shape(g) && tx in g.landed
    ensures tx in g.txs && g.landed[tx] in g.token.used
  {
    hide ActiveOk, InflightOk, GatewaySafety.Apart;
  }

  /** In particular every deferred payment is stranded. */
  lemma {:induction false} RestartStrandsDeferred(token: Token.TokenState, head: nat, now: int, cfg: Config,
      steps: seq<Step>, lives: seq<seq<Step>>, later: seq<Step>, n: Nonce, retry: Payment)
    requires ValidRun(Started(token, head, now), cfg, steps)
    requires n in After(Started(token, head, now), cfg, steps).inflight
    requires ValidLives(Restarted(After(Started(token, head, now), cfg, steps)), cfg, lives)
    requires ValidRun(Woken(Restarted(After(Started(token, head, now), cfg, steps)), cfg, lives), cfg, later)
    requires KeyOf(retry) == KeyOf(After(Started(token, head, now), cfg, steps).inflight[n].p)
    ensures var g := After(Started(token, head, now), cfg, steps);
            var g' := After(Woken(Restarted(g), cfg, lives), cfg, later);
            && g.inflight[n].record.tx in Txs(g.settlements)
            && g.inflight[n].record.tx !in g'.fates
            && !VerifyPayment(cfg, g'.token, retry, UnixSeconds(g'.now))
  {
    var g := After(Started(token, head, now), cfg, steps);
    RunPlaced(token, head, now, cfg, steps);
    RunMirrored(token, head, now, cfg, steps);
    var tx := g.inflight[n].record.tx;
    hide After, ValidRun, Woken, ValidLives, RestoredAccounts, RestoredRevoked, RestoredSettlements, Distinct, NoneLost,
         ActiveHolding, ServedOk, Delivery, Txs, ActiveOk, GatewaySafety.Apart, LandedOk, FreshOf, LinesDistinct,
         Seconds;
    assert DeferredOk(g.landed, n, g.inflight[n]);
    assert tx in Txs(g.settlements) && InDeferral(g.inflight, n, tx);
    var r := ListedAs(g, tx);
    RestartStrandsIff(token, head, now, cfg, steps, lives, later, r, retry);
  }

  lemma {:induction false} ListedAs(g: State, tx: TxHash) returns (r: Record)
    requires MirrorOf(g) && tx in Txs(g.settlements)
    ensures r.tx == tx && r in RestoredSettlements(g.journal)
  {
    hide RestoredSettlements;
    r := SecondOf(g.settlements, tx);
  }

  lemma {:induction false} SecondOf(s: seq<Record>, tx: TxHash) returns (r: Record)
    requires tx in Txs(s)
    ensures r.tx == tx && r in Seconds(s)
  {
    if Last(s).tx == tx {
      r := Second(Last(s));
    } else {
      r := SecondOf(Init(s), tx);
    }
  }
}
