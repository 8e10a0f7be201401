/** What a gateway restarted from its journal knows (x402/gateway.go, AttachJournal and
    restoreAccounting), against what the gateway that kept running knows. Journal stamps are whole
    seconds. */
module GatewayRestart {
  import opened Common
  import opened MandateAccounts
  import opened Policy
  import opened Gateway
  import opened GatewaySafety
  import opened GatewayAccounting
  import opened GatewayMandates
  import Bounds = MandateBounds
  import Rebuild = MandateRestart
  import Token = Stablecoin

  lemma {:induction false} RestoredAccount(accounts: Accounts, journal: seq<Entry>, id: MandateId)
    ensures AccountOf(RestoredAccounts(accounts, journal), id) ==
              Account(AccountOf(accounts, id).spends + RestoredSpends(journal, id), AccountOf(accounts, id).reserved)
  {
    var spends := AccountOf(accounts, id).spends;
    if journal == [] {
      ConcatEmpty(spends);
    } else {
      RestoredAccount(accounts, Init(journal), id);
      ConcatAssoc(spends, RestoredSpends(Init(journal), id), SpendIn(Last(journal), id));
      ConcatEmpty(spends + RestoredSpends(Init(journal), id));
    }
  }

  // ---- The line a step appends ----

  /** The line, and whether its write succeeds. */
  ghost function LineOf(g: State, cfg: Config, step: Step): Option<(Entry, bool)>
    requires Enabled(g, step)
  {
    match step
    case DecideOn(n, _, written) => Some((DecisionEntry(g.active[n].p, g.now, false), written))
    case Journal(n, written) => Some((SettlementEntry(RecordFor(g, g.active[n].p, g.active[n].tx)), written))
    case StampIt(n, written, _) => Some((DecisionEntry(g.active[n].p, g.now, true), written))
    case Deliver(n, delivered, refundTx, refund, written) =>
      var r := g.active[n].record;
      if !cfg.hasDeliverer || delivered then None
      else if cfg.hasRefunder && refund == Reported && RefundOutcome(g, cfg, r).Done?
      then Some((Entry(OfTx(refundTx), RefundBody(r.payer, r.amount)), written))
      else Some((Entry(OfPending(r.tx), RefundPendingBody(r.payer, r.amount)), written))
    case RevokeIt(delegator, id, written) => Some((Entry(OfRevocation(id), RevocationBody(delegator, id)), written))
    case _ => None
  }

  /** A step appends at most its one line, and only a revocation changes the revocation set. */
  lemma {:induction false} StepAppends(g: State, cfg: Config, step: Step)
    requires Enabled(g, step)
    ensures Next(g, cfg, step).journal ==
              match LineOf(g, cfg, step)
              case None => g.journal
              case Some(line) => AppendEntry(g.journal, line.0, line.1)
    ensures Next(g, cfg, step).revoked == if step.RevokeIt? then g.revoked + {(step.delegator, step.id)} else g.revoked
  {
    hide HasId, AppendEntry, OnChain, Notified, RefundOutcome, VerifyPayment, Token.StateAfter;
    hide DecideStep, DeliverStep, ResumeStep, SubmitStep, JournalStep, CommitStep, ListStep, StampStep;
    match step
    case DecideOn(n, middle, written) => DecideAppends(g, cfg, n, middle, written);
    case Submit(n, tx, included, reported, block) => SubmitAppends(g, cfg, n, tx, included, reported, block);
    case Journal(n, written) => JournalAppends(g, n, written);
    case CommitIt(n) => CommitAppends(g, n);
    case ListIt(n) => ListAppends(g, n);
    case StampIt(n, written, known) => StampAppends(g, n, written, known);
    case Deliver(n, delivered, refundTx, refund, written) =>
      DeliverAppends(g, cfg, n, delivered, refundTx, refund, written);
    case Resume(p, middle) => ResumeAppends(g, cfg, p, middle);
    case _ =>
  }

  lemma {:induction false} SubmitAppends(g: State, cfg: Config, n: Nonce, tx: TxHash, included: bool, reported: bool,
      block: nat)
    requires n in g.active && g.active[n].Settling?
    ensures var g' := SubmitStep(g, cfg, n, tx, included, reported, block);
            g'.journal == g.journal && g'.revoked == g.revoked
  {
    hide OnChain, Notified;
  }

  lemma {:induction false} JournalAppends(g: State, n: Nonce, written: bool)
    requires n in g.active && g.active[n].Mined?
    ensures var g' := JournalStep(g, n, written);
            && g'.revoked == g.revoked
            && g'.journal == AppendEntry(
                 g.journal, SettlementEntry(RecordFor(g, g.active[n].p, g.active[n].tx)), written)
  {
    hide HasId, Notified;
  }

  lemma {:induction false} CommitAppends(g: State, n: Nonce)
    requires n in g.active && g.active[n].Journaled?
    ensures CommitStep(g, n).journal == g.journal && CommitStep(g, n).revoked == g.revoked
  {
    hide Notified;
  }

  lemma {:induction false} ListAppends(g: State, n: Nonce)
    requires n in g.active && g.active[n].Committed?
    ensures ListStep(g, n).journal == g.journal && ListStep(g, n).revoked == g.revoked
  {}

  lemma {:induction false} StampAppends(g: State, n: Nonce, written: bool, known: bool)
    requires n in g.active && g.active[n].Listed?
    ensures var g' := StampStep(g, n, written, known);
            g'.revoked == g.revoked
              && g'.journal == AppendEntry(g.journal, DecisionEntry(g.active[n].p, g.now, true), written)
  {
    hide AppendEntry;
  }

  lemma {:induction false} UnwrittenAddsNothing(journal: seq<Entry>, e: Entry)
    ensures AppendEntry(journal, e, false) == journal
  {}

  lemma {:induction false} DecideAppends(g: State, cfg: Config, n: Nonce, middle: seq<Decision>, written: bool)
    requires n in g.active && g.active[n].Verified?
    ensures var g' := DecideStep(g, cfg, n, middle, written);
            g'.revoked == g.revoked
              && g'.journal == AppendEntry(g.journal, DecisionEntry(g.active[n].p, g.now, false), written)
  {
    hide AppendEntry, ChainDecide, HeldBy, DecideStep;
    DecideAsUpdate(g, cfg, n, middle, written);
  }

  lemma {:induction false} DeliverAppends(g: State, cfg: Config, n: Nonce, delivered: bool, refundTx: TxHash,
      refund: Reply, written: bool)
    requires n in g.active && g.active[n].Delivering? && refundTx !in g.txs
    ensures var g' := DeliverStep(g, cfg, n, delivered, refundTx, refund, written);
            && g'.revoked == g.revoked
            && g'.journal == match LineOf(g, cfg, Deliver(n, delivered, refundTx, refund, written))
                             case None => g.journal
                             case Some(line) => AppendEntry(g.journal, line.0, line.1)
  {
    hide AppendEntry, RefundOutcome, DeliverStep;
    DeliverAsUpdate(g, cfg, n, delivered, refundTx, refund, written);
  }

  lemma {:induction false} ResumeAppends(g: State, cfg: Config, p: Payment, middle: seq<Decision>)
    requires p.auth.nonce in g.inflight
    ensures ResumeStep(g, cfg, p, middle).journal == g.journal && ResumeStep(g, cfg, p, middle).revoked == g.revoked
  {
    hide ChainDecide;
  }

  // ---- Spends ----

  /** A settled payment, with the reading of the clock its settled line carries. */
  datatype Stamped = Stamped(c: Bounds.Committed, stamp: int)

  /** The payment as it was committed, between its commit and its settled line. */
  function CommitOf(ph: Phase): Bounds.Committed
    requires ph.Committed? || ph.Listed?
  {
    Bounds.Committed(ph.at, ph.p.auth.value, ph.p.confirmed)
  }

  /** The settled line is lost when its write fails, or when another payment used the nonce before. */
  predicate LineStands(g: State, step: Step)
    requires Enabled(g, step) && step.StampIt?
  {
    step.written && !HasId(g.journal, OfDecision(g.active[step.nonce].p.auth.nonce, true))
  }

  /** Whether this step is where a payment of the mandate gets its settled line. */
  predicate Stamps(g: State, step: Step, m: Mandate)
    requires Enabled(g, step)
  {
    step.StampIt? && MandateIdOf(g.active[step.nonce].p) == Some(m.id)
  }

  /** The settled payments of a mandate whose line stands, in the order of the lines. */
  ghost function StampedUnder(g0: State, cfg: Config, steps: seq<Step>, m: Mandate): seq<Stamped>
    requires ValidRun(g0, cfg, steps)
  {
    if steps == [] then []
    else
      var g, step := After(g0, cfg, Init(steps)), Last(steps);
      var before := StampedUnder(g0, cfg, Init(steps), m);
      if Stamps(g, step, m) && LineStands(g, step)
      then before + [Stamped(CommitOf(g.active[step.nonce]), UnixSeconds(g.now))] else before
  }

  /** Those whose line was lost. */
  ghost function LostUnder(g0: State, cfg: Config, steps: seq<Step>, m: Mandate): seq<Bounds.Committed>
    requires ValidRun(g0, cfg, steps)
  {
    if steps == [] then []
    else
      var g, step := After(g0, cfg, Init(steps)), Last(steps);
      var before := LostUnder(g0, cfg, Init(steps), m);
      if Stamps(g, step, m) && !LineStands(g, step) then before + [CommitOf(g.active[step.nonce])] else before
  }

  function Commits(s: seq<Stamped>): (h: seq<Bounds.Committed>)
    ensures |h| == |s|
  {
    if s == [] then [] else Commits(Init(s)) + [Last(s).c]
  }

  function Readings(s: seq<Stamped>): (stamps: seq<int>)
    ensures |stamps| == |s|
  {
    if s == [] then [] else Readings(Init(s)) + [Last(s).stamp]
  }

  lemma {:induction false} RestoredAppend(journal: seq<Entry>, e: Entry, written: bool, id: MandateId)
    ensures RestoredSpends(AppendEntry(journal, e, written), id) ==
              RestoredSpends(journal, id) + if written && !HasId(journal, e.id) then SpendIn(e, id) else []
  {
    hide HasId;
    InitOfSnoc(journal, e);
    ConcatEmpty(RestoredSpends(journal, id));
  }

  /** Only a standing settled line restores a spend, at the reading it carries. */
  lemma {:induction false} RestoredByStep(g: State, cfg: Config, step: Step, m: Mandate)
    requires Enabled(g, step)
    ensures RestoredSpends(Next(g, cfg, step).journal, m.id) ==
              if Stamps(g, step, m) && LineStands(g, step)
              then RestoredSpends(g.journal, m.id)
                + [Spend(UnixSeconds(g.now) * SECOND, g.active[step.nonce].p.auth.value)]
              else RestoredSpends(g.journal, m.id)
  {
    hide HasId, RestoredSpends, AppendEntry, Next, RefundOutcome;
    StepAppends(g, cfg, step);
    ConcatEmpty(RestoredSpends(g.journal, m.id));
    match LineOf(g, cfg, step)
    case None =>
    case Some(line) => RestoredAppend(g.journal, line.0, line.1, m.id);
  }

  /** What a restart restores are the settled lines that stand, each at its own reading. */
  lemma {:induction false} RestoredIsStamped(token: Token.TokenState, head: nat, now: int, cfg: Config,
      steps: seq<Step>, m: Mandate)
    requires ValidRun(Started(token, head, now), cfg, steps)
    ensures var g0 := Started(token, head, now);
            var stamped := StampedUnder(g0, cfg, steps, m);
            RestoredSpends(After(g0, cfg, steps).journal, m.id) ==
              Rebuild.RebuiltSpends(Commits(stamped), Readings(stamped))
  {
    hide Next, LineStands;
    var g0 := Started(token, head, now);
    if steps != [] {
      RestoredIsStamped(token, head, now, cfg, Init(steps), m);
      var g, step := After(g0, cfg, Init(steps)), Last(steps);
      RestoredByStep(g, cfg, step, m);
      if Stamps(g, step, m) && LineStands(g, step) {
        StampsListed(g, step, m);
        var before := StampedUnder(g0, cfg, Init(steps), m);
        var one := Stamped(CommitOf(g.active[step.nonce]), UnixSeconds(g.now));
        SnocParts(before, one);
        InitOfSnoc(Commits(before), one.c);
        InitOfSnoc(Readings(before), one.stamp);
      }
    }
  }

  lemma {:induction false} StampsListed(g: State, step: Step, m: Mandate)
    requires Enabled(g, step) && Stamps(g, step, m)
    ensures step.StampIt? && g.active[step.nonce].Listed?
  {}

  lemma {:induction false} SnocParts(s: seq<Stamped>, x: Stamped)
    ensures Commits(s + [x]) == Commits(s) + [x.c] && Readings(s + [x]) == Readings(s) + [x.stamp]
  {
    InitOfSnoc(s, x);
  }

  // ---- Every settled payment gets its line, or loses it ----

  /** Payments of the mandate between commit and settled line, weighed as a window sees them. */
  ghost function Waiting(active: map<Nonce, Phase>, m: Mandate, cutoff: int, count: bool): map<Nonce, int> {
    map n | n in active && (active[n].Committed? || active[n].Listed?) && MandateIdOf(active[n].p) == Some(m.id) ::
      Weight(CommitOf(active[n]), cutoff, count)
  }

  function Weight(c: Bounds.Committed, cutoff: int, count: bool): nat {
    if c.at < cutoff then 0 else if count then 1 else c.amount
  }

  /** What a window sees of a list of payments. */
  function Seen(h: seq<Bounds.Committed>, cutoff: int, count: bool): nat {
    if count then Bounds.CountSince(h, cutoff) else Bounds.Since(h, cutoff, true)
  }

  lemma {:induction false} SeenSnoc(h: seq<Bounds.Committed>, c: Bounds.Committed, cutoff: int, count: bool)
    ensures Seen(h + [c], cutoff, count) == Seen(h, cutoff, count) + Weight(c, cutoff, count)
  {
    InitOfSnoc(h, c);
  }

  /** A request that is not waiting for its line moves on not waiting, or ends. */
  lemma {:induction false} WaitingIdle(active: map<Nonce, Phase>, m: Mandate, cutoff: int, count: bool, n: Nonce,
      ph: Phase)
    requires n in active ==> !active[n].Committed? && !active[n].Listed?
    requires !ph.Committed? && !ph.Listed?
    ensures Waiting(active[n := ph], m, cutoff, count) == Waiting(active, m, cutoff, count) ==
              Waiting(active - {n}, m, cutoff, count)
  {
    hide CommitOf, Weight;
    assert Waiting(active[n := ph], m, cutoff, count) == Waiting(active - {n}, m, cutoff, count);
    assert Waiting(active, m, cutoff, count) == Waiting(active - {n}, m, cutoff, count);
  }

  lemma {:induction false} WaitingEnters(active: map<Nonce, Phase>, m: Mandate, cutoff: int, count: bool, n: Nonce,
      ph: Phase)
    requires n in active && active[n].Journaled? && ph.Committed?
    ensures Sum(Waiting(active[n := ph], m, cutoff, count)) == Sum(Waiting(active, m, cutoff, count))
              + if MandateIdOf(ph.p) == Some(m.id) then Weight(CommitOf(ph), cutoff, count) else 0
  {
    var before, after := Waiting(active, m, cutoff, count), Waiting(active[n := ph], m, cutoff, count);
    if MandateIdOf(ph.p) == Some(m.id) {
      assert after == before[n := Weight(CommitOf(ph), cutoff, count)];
      SumUpdate(before, n, Weight(CommitOf(ph), cutoff, count));
    } else {
      assert after == before;
    }
  }

  lemma {:induction false} WaitingLeaves(active: map<Nonce, Phase>, m: Mandate, cutoff: int, count: bool, n: Nonce,
      ph: Phase)
    requires n in active && active[n].Listed? && !ph.Committed? && !ph.Listed?
    ensures var left := Sum(Waiting(active, m, cutoff, count))
                        - if MandateIdOf(active[n].p) == Some(m.id)
                          then Weight(CommitOf(active[n]), cutoff, count) else 0;
            && Sum(Waiting(active[n := ph], m, cutoff, count)) == left
            && Sum(Waiting(active - {n}, m, cutoff, count)) == left
  {
    var before := Waiting(active, m, cutoff, count);
    assert Waiting(active[n := ph], m, cutoff, count) == before - {n};
    assert Waiting(active - {n}, m, cutoff, count) == before - {n};
    SumRemove(before, n);
  }

  lemma {:induction false} WaitingLists(active: map<Nonce, Phase>, m: Mandate, cutoff: int, count: bool, n: Nonce,
      ph: Phase)
    requires n in active && active[n].Committed? && ph.Listed? && ph.p == active[n].p && ph.at == active[n].at
    ensures Waiting(active[n := ph], m, cutoff, count) == Waiting(active, m, cutoff, count)
  {}

  /** What a step does to the payments waiting for their line. */
  ghost predicate WaitingMoves(g: State, g': State, step: Step, m: Mandate, cutoff: int, count: bool)
    requires Enabled(g, step)
  {
    Sum(Waiting(g'.active, m, cutoff, count))
      + (if Stamps(g, step, m) then Weight(CommitOf(g.active[step.nonce]), cutoff, count) else 0)
      == Sum(Waiting(g.active, m, cutoff, count)) + Seen(SettledBy(g, step, m), cutoff, count)
  }

  lemma {:induction false} SeenNothing(cutoff: int, count: bool)
    ensures Seen([], cutoff, count) == 0
  {}

  /** A step that commits, lists or stamps nothing. */
  lemma {:induction false} WaitingStays(g: State, g': State, step: Step, m: Mandate, cutoff: int, count: bool, n: Nonce,
      ph: Phase)
    requires Enabled(g, step) && !step.CommitIt? && !step.ListIt? && !step.StampIt?
    requires n in g.active ==> !g.active[n].Committed? && !g.active[n].Listed?
    requires !ph.Committed? && !ph.Listed?
    requires g'.active == g.active || g'.active == g.active[n := ph] || g'.active == g.active - {n}
    ensures WaitingMoves(g, g', step, m, cutoff, count)
  {
    hide Waiting, Sum;
    WaitingIdle(g.active, m, cutoff, count, n, ph);
    SeenNothing(cutoff, count);
  }

  lemma {:induction false} CommitMoves(g: State, cfg: Config, n: Nonce, m: Mandate, cutoff: int, count: bool)
    requires Enabled(g, CommitIt(n))
    ensures WaitingMoves(g, Next(g, cfg, CommitIt(n)), CommitIt(n), m, cutoff, count)
  {
    hide Waiting, Sum, Notified;
    var ph := g.active[n];
    var next := Committed(ph.p, ph.deferred, ph.record, ph.block, g.now);
    WaitingEnters(g.active, m, cutoff, count, n, next);
    SeenSnoc([], CommitOf(next), cutoff, count);
    ConcatEmpty([CommitOf(next)]);
    SeenNothing(cutoff, count);
  }

  lemma {:induction false} ListMoves(g: State, cfg: Config, n: Nonce, m: Mandate, cutoff: int, count: bool)
    requires Enabled(g, ListIt(n))
    ensures WaitingMoves(g, Next(g, cfg, ListIt(n)), ListIt(n), m, cutoff, count)
  {
    hide Waiting, Sum;
    var ph := g.active[n];
    WaitingLists(g.active, m, cutoff, count, n, Listed(ph.p, ph.deferred, ph.record, ph.block, ph.at));
    SeenNothing(cutoff, count);
  }

  lemma {:induction false} StampMoves(g: State, cfg: Config, n: Nonce, written: bool, known: bool, m: Mandate,
      cutoff: int, count: bool)
    requires Enabled(g, StampIt(n, written, known))
    ensures WaitingMoves(g, Next(g, cfg, StampIt(n, written, known)), StampIt(n, written, known), m, cutoff, count)
  {
    hide Waiting, Sum, AppendEntry;
    var ph := g.active[n];
    WaitingLeaves(g.active, m, cutoff, count, n, Delivering(ph.p, ph.record));
    SeenNothing(cutoff, count);
  }

  lemma {:induction false} StepMoves(g: State, cfg: Config, step: Step, m: Mandate, cutoff: int, count: bool)
    requires Enabled(g, step)
    ensures WaitingMoves(g, Next(g, cfg, step), step, m, cutoff, count)
  {
    hide WaitingMoves, DecideStep, DeliverStep, ResumeStep, SubmitStep, AppendEntry, Notified, VerifyPayment,
         Token.StateAfter, CommitStep, ListStep, StampStep;
    match step
    case CommitIt(n) => CommitMoves(g, cfg, n, m, cutoff, count);
    case ListIt(n) => ListMoves(g, cfg, n, m, cutoff, count);
    case StampIt(n, written, known) => StampMoves(g, cfg, n, written, known, m, cutoff, count);
    case Arrive(p) =>
      WaitingStays(g, Next(g, cfg, step), step, m, cutoff, count, p.auth.nonce,
                   Verified(p, VerifyPayment(cfg, g.token, p, UnixSeconds(g.now))));
    case DecideOn(n, middle, written) =>
      DecideMoves(g, cfg, n, middle, written);
      var action := ChainDecide(g, cfg, g.active[n].p, g.active[n].valid, middle, PreSettlement).0.action;
      WaitingStays(g, Next(g, cfg, step), step, m, cutoff, count, n,
                   Settling(g.active[n].p, action != Approve,
                            HeldBy(g, cfg, g.active[n].p, g.active[n].valid, middle)));
    case Submit(n, tx, included, reported, block) =>
      SubmitMoves(g, cfg, n, tx, included, reported, block);
      var ph := g.active[n];
      WaitingStays(g, Next(g, cfg, step), step, m, cutoff, count, n, Mined(ph.p, ph.deferred, ph.held, tx, block));
    case Journal(n, written) =>
      var ph := g.active[n];
      WaitingStays(g, Next(g, cfg, step), step, m, cutoff, count, n,
                   Journaled(ph.p, ph.deferred, ph.held, RecordFor(g, ph.p, ph.tx), ph.block));
    case Deliver(n, delivered, refundTx, refund, written) =>
      DeliverAsUpdate(g, cfg, n, delivered, refundTx, refund, written);
      WaitingStays(g, Next(g, cfg, step), step, m, cutoff, count, n, g.active[n]);
    case Resume(p, middle) =>
      ResumeMoves(g, cfg, p, middle);
      var df := g.inflight[p.auth.nonce];
      WaitingStays(g, Next(g, cfg, step), step, m, cutoff, count, p.auth.nonce, Delivering(df.p, df.record));
    case _ => QuietMoves(g, cfg, step, m, cutoff, count);
  }

  lemma {:induction false} DecideMoves(g: State, cfg: Config, n: Nonce, middle: seq<Decision>, written: bool)
    requires n in g.active && g.active[n].Verified?
    ensures var g' := DecideStep(g, cfg, n, middle, written);
            var p, valid := g.active[n].p, g.active[n].valid;
            var action := ChainDecide(g, cfg, p, valid, middle, PreSettlement).0.action;
            || g'.active == g.active - {n}
            || g'.active == g.active[n := Settling(p, action != Approve, HeldBy(g, cfg, p, valid, middle))]
  {
    hide ChainDecide, HeldBy, AppendEntry, DecideStep;
    DecideAsUpdate(g, cfg, n, middle, written);
  }

  lemma {:induction false} SubmitMoves(g: State, cfg: Config, n: Nonce, tx: TxHash, included: bool, reported: bool,
      block: nat)
    requires n in g.active && g.active[n].Settling?
    ensures var g' := SubmitStep(g, cfg, n, tx, included, reported, block);
            var ph := g.active[n];
            g'.active == g.active - {n} || g'.active == g.active[n := Mined(ph.p, ph.deferred, ph.held, tx, block)]
  {
    hide OnChain, Notified;
  }

  lemma {:induction false} ResumeMoves(g: State, cfg: Config, p: Payment, middle: seq<Decision>)
    requires Enabled(g, Resume(p, middle))
    ensures var g' := ResumeStep(g, cfg, p, middle);
            var df := g.inflight[p.auth.nonce];
            g'.active == g.active || g'.active == g.active[p.auth.nonce := Delivering(df.p, df.record)]
  {
    hide ChainDecide;
  }

  lemma {:induction false} QuietMoves(g: State, cfg: Config, step: Step, m: Mandate, cutoff: int, count: bool)
    requires Enabled(g, step) && (step.RevokeIt? || step.Outside? || step.Tick?)
    ensures WaitingMoves(g, Next(g, cfg, step), step, m, cutoff, count)
  {
    hide Waiting, Sum, AppendEntry, Token.StateAfter;
    SeenNothing(cutoff, count);
  }

  lemma {:induction false} SettledGrows(g0: State, cfg: Config, steps: seq<Step>, m: Mandate, cutoff: int, count: bool)
    requires ValidRun(g0, cfg, steps) && steps != []
    ensures Seen(SettledUnder(g0, cfg, steps, m), cutoff, count) ==
              Seen(SettledUnder(g0, cfg, Init(steps), m), cutoff, count)
              + Seen(SettledBy(After(g0, cfg, Init(steps)), Last(steps), m), cutoff, count)
  {
    hide Next, Seen, Weight, SettledBy;
    var g, step := After(g0, cfg, Init(steps)), Last(steps);
    var settled := SettledUnder(g0, cfg, Init(steps), m);
    SettledOne(g, step, m);
    SeenNothing(cutoff, count);
    if SettledBy(g, step, m) == [] {
      ConcatEmpty(settled);
    } else {
      var c := SettledBy(g, step, m)[0];
      SeenSnoc(settled, c, cutoff, count);
      SeenSnoc([], c, cutoff, count);
      ConcatEmpty([c]);
    }
  }

  lemma {:induction false} StampedGrows(g0: State, cfg: Config, steps: seq<Step>, m: Mandate, cutoff: int, count: bool)
    requires ValidRun(g0, cfg, steps) && steps != []
    ensures var g, step := After(g0, cfg, Init(steps)), Last(steps);
            && (Stamps(g, step, m) ==> step.StampIt? && g.active[step.nonce].Listed?)
            && Seen(Commits(StampedUnder(g0, cfg, steps, m)), cutoff, count)
                 + Seen(LostUnder(g0, cfg, steps, m), cutoff, count)
                 == Seen(Commits(StampedUnder(g0, cfg, Init(steps), m)), cutoff, count)
                    + Seen(LostUnder(g0, cfg, Init(steps), m), cutoff, count)
                    + if Stamps(g, step, m) then Weight(CommitOf(g.active[step.nonce]), cutoff, count) else 0
  {
    hide Next, LineStands, Seen, Weight, Stamps, Commits;
    var g, step := After(g0, cfg, Init(steps)), Last(steps);
    if Stamps(g, step, m) {
      StampsListed(g, step, m);
      var c := CommitOf(g.active[step.nonce]);
      SnocParts(StampedUnder(g0, cfg, Init(steps), m), Stamped(c, UnixSeconds(g.now)));
      SeenSnoc(Commits(StampedUnder(g0, cfg, Init(steps), m)), c, cutoff, count);
      SeenSnoc(LostUnder(g0, cfg, Init(steps), m), c, cutoff, count);
    }
  }

  /** For every window: what the settled payments of a mandate weigh is what the standing lines weigh at
      their commit times, plus what was lost, plus what still waits for its line. So nothing is
      restored twice and nothing that has its line is missed, in whatever order the lines come. */
  lemma {:induction false} SpendsRestored(token: Token.TokenState, head: nat, now: int, cfg: Config, steps: seq<Step>,
      m: Mandate, cutoff: int, count: bool)
    requires ValidRun(Started(token, head, now), cfg, steps)
    ensures var g0 := Started(token, head, now);
            Seen(SettledUnder(g0, cfg, steps, m), cutoff, count) ==
              Seen(Commits(StampedUnder(g0, cfg, steps, m)), cutoff, count)
              + Seen(LostUnder(g0, cfg, steps, m), cutoff, count)
              + Sum(Waiting(After(g0, cfg, steps).active, m, cutoff, count))
  {
    hide Next, LineStands, Waiting, Sum, Seen, Weight, SettledBy, Stamps, Commits;
    var g0 := Started(token, head, now);
    if steps == [] {
      SeenNothing(cutoff, count);
      NoneWaiting(m, cutoff, count);
    } else {
      var before := Init(steps);
      SpendsRestored(token, head, now, cfg, before, m, cutoff, count);
      var g, step := After(g0, cfg, before), Last(steps);
      StepMoves(g, cfg, step, m, cutoff, count);
      SettledGrows(g0, cfg, steps, m, cutoff, count);
      StampedGrows(g0, cfg, steps, m, cutoff, count);
    }
  }

  lemma {:induction false} NoneWaiting(m: Mandate, cutoff: int, count: bool)
    ensures Sum(Waiting(map[], m, cutoff, count)) == 0
  {
    assert Waiting(map[], m, cutoff, count) == map[];
    SumEmpty();
  }

  lemma {:induction false} SettledOne(g: State, step: Step, m: Mandate)
    requires Enabled(g, step)
    ensures SettledBy(g, step, m) == [] || SettledBy(g, step, m) == [SettledBy(g, step, m)[0]]
  {}

  /** With nothing in flight and no line lost, the standing lines weigh in every window what the settled
      payments weigh. */
  lemma {:induction false} LinesWeighTheSame(token: Token.TokenState, head: nat, now: int, cfg: Config,
      steps: seq<Step>, m: Mandate)
    requires ValidRun(Started(token, head, now), cfg, steps)
    requires After(Started(token, head, now), cfg, steps).active == map[]
    requires LostUnder(Started(token, head, now), cfg, steps, m) == []
    ensures var g0 := Started(token, head, now);
            Rebuild.SameWindows(Commits(StampedUnder(g0, cfg, steps, m)), SettledUnder(g0, cfg, steps, m))
  {
    hide ValidRun, After, StampedUnder, SettledUnder, LostUnder, Bounds.Since, Bounds.CountSince;
    var g0 := Started(token, head, now);
    forall k
      ensures Bounds.Since(Commits(StampedUnder(g0, cfg, steps, m)), k, true) ==
                Bounds.Since(SettledUnder(g0, cfg, steps, m), k, true)
      ensures Bounds.CountSince(Commits(StampedUnder(g0, cfg, steps, m)), k) ==
                Bounds.CountSince(SettledUnder(g0, cfg, steps, m), k)
    {
      SpendsRestored(token, head, now, cfg, steps, m, k, false);
      SpendsRestored(token, head, now, cfg, steps, m, k, true);
      SeenNothing(k, false);
      SeenNothing(k, true);
      NoneWaiting(m, k, false);
      NoneWaiting(m, k, true);
    }
  }

  /** No settled payment straddles, by the reading its line carries, an edge of a window that a later
      event asks about. */
  ghost predicate NoneStraddlesLater(stamped: seq<Stamped>, m: Mandate, later: seq<Bounds.Event>) {
    forall e, k :: e in later && Rebuild.IsCutoff(m, e.now, k) ==>
      Rebuild.NoneStraddles(Commits(stamped), Readings(stamped), k)
  }

  /** The account a restart rebuilds is the one of the standing lines. */
  lemma {:induction false} RebuiltAccount(token: Token.TokenState, head: nat, now: int, cfg: Config, steps: seq<Step>,
      m: Mandate)
    requires ValidRun(Started(token, head, now), cfg, steps)
    ensures var g0 := Started(token, head, now);
            var stamped := StampedUnder(g0, cfg, steps, m);
            AccountOf(Restarted(After(g0, cfg, steps)).accounts, m.id) ==
              Rebuild.Rebuilt(Commits(stamped), Readings(stamped))
  {
    hide After, ValidRun, StampedUnder, AccountOf, RestoredAccounts, RestoredSpends;
    var g := After(Started(token, head, now), cfg, steps);
    RestoredIsStamped(token, head, now, cfg, steps, m);
    RestoredAccount(map[], g.journal, m.id);
    NewAccountIs(m.id);
    ConcatEmpty(RestoredSpends(g.journal, m.id));
  }

  /** With nothing in flight and no line lost, the restarted gateway gives every later reservation
      the verdict the running one would give, unless an old spend straddles a window's edge because
      its line carries a whole second read after its commit. */
  lemma {:induction false} RestartJudgesAlike(token: Token.TokenState, head: nat, now: int, cfg: Config,
      steps: seq<Step>, m: Mandate, later: seq<Bounds.Event>)
    requires ValidRun(Started(token, head, now), cfg, steps) && AllRegular(steps, m)
    requires After(Started(token, head, now), cfg, steps).active == map[]
    requires LostUnder(Started(token, head, now), cfg, steps, m) == []
    requires Bounds.Clocked(Trace(Started(token, head, now), cfg, steps, m) + later)
    requires NoneStraddlesLater(StampedUnder(Started(token, head, now), cfg, steps, m), m, later)
    ensures var g := After(Started(token, head, now), cfg, steps);
            Rebuild.Verdicts(AccountOf(g.accounts, m.id), m, later) ==
              Rebuild.Verdicts(AccountOf(Restarted(g).accounts, m.id), m, later)
  {
    hide After, ValidRun, Trace, SettledUnder, StampedUnder, LostUnder, AllRegular, Bounds.Run, AccountOf,
         RestoredAccounts, Rebuild.Verdicts, Rebuild.IsCutoff, Rebuild.NoneStraddles, Rebuild.SameWindows, Linked,
         Bounds.Clocked, Commits, Readings;
    var g0 := Started(token, head, now);
    var stamped := StampedUnder(g0, cfg, steps, m);
    RunLinked(token, head, now, cfg, steps, m);
    ReservationsExact(token, head, now, cfg, steps);
    LinesWeighTheSame(token, head, now, cfg, steps, m);
    RebuiltAccount(token, head, now, cfg, steps, m);
    Rebuild.RestartKeepsVerdicts(m, Trace(g0, cfg, steps, m), Commits(stamped), Readings(stamped), later);
  }

  /** In any case, right after such a restart each check is the running gateway's with the spends read
      too early added and those read too late taken off. */
  lemma {:induction false} RestartShiftsVerdict(token: Token.TokenState, head: nat, now: int, cfg: Config,
      steps: seq<Step>, m: Mandate, amount: nat, later: int)
    requires ValidRun(Started(token, head, now), cfg, steps) && AllRegular(steps, m)
    requires After(Started(token, head, now), cfg, steps).active == map[]
    requires LostUnder(Started(token, head, now), cfg, steps, m) == []
    requires After(Started(token, head, now), cfg, steps).now <= later
    ensures var g0 := Started(token, head, now);
            var g := After(g0, cfg, steps);
            var stamped := StampedUnder(g0, cfg, steps, m);
            var h, stamps := Commits(stamped), Readings(stamped);
            var b, r := later - WindowDur(m.budgetWindowSeconds), later - WindowDur(m.rateWindowSeconds);
            var live, rebuilt := AccountOf(g.accounts, m.id), AccountOf(Restarted(g).accounts, m.id);
            && (BudgetAllows(live, m, amount, later) <==>
                  (m.budgetAmount > 0 ==>
                     AmountFrom(rebuilt.spends, b) + Rebuild.ForgottenAmount(h, stamps, b)
                       - Rebuild.PostponedAmount(h, stamps, b) + amount
                       <= m.budgetAmount))
            && (RateAllows(live, m, later) <==>
                  (m.maxPaymentsPerWindow > 0 ==>
                     CountFrom(rebuilt.spends, r) + Rebuild.ForgottenCount(h, stamps, r)
                       - Rebuild.PostponedCount(h, stamps, r) + 1
                       <= Int64(m.maxPaymentsPerWindow)))
  {
    hide After, ValidRun, Trace, SettledUnder, StampedUnder, LostUnder, AllRegular, Bounds.Run, AccountOf,
         RestoredAccounts, Rebuild.SameWindows, Linked, Bounds.Clocked, Commits, Readings, WindowDur, Int64, AmountFrom,
         CountFrom, BudgetAllows, RateAllows, Rebuild.ForgottenAmount, Rebuild.PostponedAmount, Rebuild.ForgottenCount,
         Rebuild.PostponedCount, Rebuild.RebuiltSpends;
    var g0 := Started(token, head, now);
    var stamped := StampedUnder(g0, cfg, steps, m);
    RunLinked(token, head, now, cfg, steps, m);
    TraceClocked(token, head, now, cfg, steps, m);
    LastIsIn(Trace(g0, cfg, steps, m));
    ReservationsExact(token, head, now, cfg, steps);
    LinesWeighTheSame(token, head, now, cfg, steps, m);
    RebuiltAccount(token, head, now, cfg, steps, m);
    Rebuild.RestartShiftsVerdict(m, Trace(g0, cfg, steps, m), Commits(stamped), Readings(stamped), amount, later);
  }

  lemma {:induction false} LastIsIn(events: seq<Bounds.Event>)
    ensures events != [] ==> Last(events) in events
  {}

  lemma {:induction false} NewAccountIs(id: MandateId)
    ensures AccountOf(map[], id) == Account([], map[])
  {}

  // ---- Revocations ----

  predicate RevokedUnder(journal: seq<Entry>, delegator: Address, id: MandateId) {
    exists i :: 0 <= i < |journal| && journal[i] == Entry(OfRevocation(id), RevocationBody(delegator, id))
  }

  /** A revocation line is keyed by the mandate id alone: the first line of an id stands. */
  ghost predicate LinesOk(journal: seq<Entry>, revoked: Revocations) {
    && (forall d: Address, id: MandateId :: (d, id) in RestoredRevoked(journal) <==> RevokedUnder(journal, d, id))
    && (forall d: Address, id: MandateId :: RevokedUnder(journal, d, id) ==> (d, id) in revoked)
    && (forall d: Address, d': Address, id: MandateId ::
          RevokedUnder(journal, d, id) && RevokedUnder(journal, d', id) ==> d == d')
    && (forall id: MandateId :: HasId(journal, OfRevocation(id)) ==> exists d: Address :: RevokedUnder(journal, d, id))
  }

  ghost predicate AllLines(journal: seq<Entry>, revoked: Revocations) {
    forall d: Address, id: MandateId :: (d, id) in revoked ==> HasId(journal, OfRevocation(id))
  }

  lemma {:induction false} HasIdSnoc(journal: seq<Entry>, e: Entry, id: EntryId)
    ensures HasId(journal + [e], id) <==> HasId(journal, id) || e.id == id
  {
    var j := journal + [e];
    if HasId(journal, id) {
      var i :| 0 <= i < |journal| && journal[i].id == id;
      assert j[i].id == id;
    }
    assert j[|journal|] == e;
  }

  lemma {:induction false} RevokedSnoc(journal: seq<Entry>, e: Entry, d: Address, id: MandateId)
    ensures RevokedUnder(journal + [e], d, id) <==>
              RevokedUnder(journal, d, id) || e == Entry(OfRevocation(id), RevocationBody(d, id))
  {
    var j := journal + [e];
    if RevokedUnder(journal, d, id) {
      var i :| 0 <= i < |journal| && journal[i] == Entry(OfRevocation(id), RevocationBody(d, id));
      assert j[i] == Entry(OfRevocation(id), RevocationBody(d, id));
    }
    assert j[|journal|] == e;
  }

  lemma {:induction false} RevokedHasId(journal: seq<Entry>, d: Address, id: MandateId)
    requires RevokedUnder(journal, d, id)
    ensures HasId(journal, OfRevocation(id))
  {
    var i :| 0 <= i < |journal| && journal[i] == Entry(OfRevocation(id), RevocationBody(d, id));
    assert journal[i].id == OfRevocation(id);
  }

  /** A line that is not a revocation changes nothing here. */
  lemma {:induction false} OtherLine(journal: seq<Entry>, e: Entry, written: bool, revoked: Revocations)
    requires LinesOk(journal, revoked) && !e.body.RevocationBody? && !e.id.OfRevocation?
    ensures LinesOk(AppendEntry(journal, e, written), revoked)
    ensures AllLines(journal, revoked) ==> AllLines(AppendEntry(journal, e, written), revoked)
  {
    hide HasId, RevokedUnder;
    InitOfSnoc(journal, e);
    forall d: Address, id: MandateId
      ensures RevokedUnder(journal + [e], d, id) <==> RevokedUnder(journal, d, id)
    {
      RevokedSnoc(journal, e, d, id);
    }
    forall id: MandateId
      ensures HasId(journal + [e], OfRevocation(id)) <==> HasId(journal, OfRevocation(id))
    {
      HasIdSnoc(journal, e, OfRevocation(id));
    }
    forall id: MandateId | HasId(journal + [e], OfRevocation(id))
      ensures exists d: Address :: RevokedUnder(journal + [e], d, id)
    {
      var d: Address :| RevokedUnder(journal, d, id);
      assert RevokedUnder(journal + [e], d, id);
    }
  }

  /** The first revocation line of an id. */
  lemma {:induction false} FirstLine(journal: seq<Entry>, d0: Address, id0: MandateId)
    requires !HasId(journal, OfRevocation(id0))
    ensures var j := journal + [Entry(OfRevocation(id0), RevocationBody(d0, id0))];
            && (forall d: Address, id: MandateId ::
                  RevokedUnder(j, d, id) <==> RevokedUnder(journal, d, id) || (d == d0 && id == id0))
            && (forall d: Address :: !RevokedUnder(journal, d, id0))
            && (forall id: MandateId :: HasId(j, OfRevocation(id)) <==> HasId(journal, OfRevocation(id)) || id == id0)
            && RestoredRevoked(j) == RestoredRevoked(journal) + {(d0, id0)}
  {
    hide HasId, RevokedUnder;
    var e := Entry(OfRevocation(id0), RevocationBody(d0, id0));
    InitOfSnoc(journal, e);
    forall d: Address, id: MandateId
      ensures RevokedUnder(journal + [e], d, id) <==> RevokedUnder(journal, d, id) || (d == d0 && id == id0)
      ensures !RevokedUnder(journal, d, id0)
    {
      RevokedSnoc(journal, e, d, id);
      if RevokedUnder(journal, d, id0) {
        RevokedHasId(journal, d, id0);
      }
    }
    forall id: MandateId
      ensures HasId(journal + [e], OfRevocation(id)) <==> HasId(journal, OfRevocation(id)) || id == id0
    {
      HasIdSnoc(journal, e, OfRevocation(id));
    }
  }

  lemma {:induction false} FirstLineKeeps(journal: seq<Entry>, revoked: Revocations, d0: Address, id0: MandateId)
    requires LinesOk(journal, revoked) && !HasId(journal, OfRevocation(id0))
    ensures var j := journal + [Entry(OfRevocation(id0), RevocationBody(d0, id0))];
            && LinesOk(j, revoked + {(d0, id0)})
            && (AllLines(journal, revoked) ==> AllLines(j, revoked + {(d0, id0)}))
  {
    hide HasId, RevokedUnder, RestoredRevoked;
    FirstLine(journal, d0, id0);
    var j := journal + [Entry(OfRevocation(id0), RevocationBody(d0, id0))];
    forall id: MandateId | HasId(j, OfRevocation(id))
      ensures exists d: Address :: RevokedUnder(j, d, id)
    {
      if id == id0 {
        assert RevokedUnder(j, d0, id);
      } else {
        var d: Address :| RevokedUnder(journal, d, id);
        assert RevokedUnder(j, d, id);
      }
    }
  }

  lemma {:induction false} RevocationLine(journal: seq<Entry>, revoked: Revocations, d0: Address, id0: MandateId,
      written: bool)
    requires LinesOk(journal, revoked)
    ensures var j := AppendEntry(journal, Entry(OfRevocation(id0), RevocationBody(d0, id0)), written);
            && LinesOk(j, revoked + {(d0, id0)})
            && (AllLines(journal, revoked) && written ==> AllLines(j, revoked + {(d0, id0)}))
  {
    hide HasId, RevokedUnder, RestoredRevoked;
    if written && !HasId(journal, OfRevocation(id0)) {
      hide LinesOk, AllLines;
      FirstLineKeeps(journal, revoked, d0, id0);
    }
  }

  lemma {:induction false} LinesKept(g: State, cfg: Config, step: Step)
    requires Enabled(g, step) && LinesOk(g.journal, g.revoked)
    ensures var g' := Next(g, cfg, step);
            && LinesOk(g'.journal, g'.revoked)
            && (AllLines(g.journal, g.revoked) && (step.RevokeIt? ==> step.written) ==>
                AllLines(g'.journal, g'.revoked))
  {
    hide LinesOk, AllLines, Next, AppendEntry, RefundOutcome;
    StepAppends(g, cfg, step);
    match LineOf(g, cfg, step)
    case None =>
    case Some(line) =>
      if step.RevokeIt? {
        RevocationLine(g.journal, g.revoked, step.delegator, step.id, step.written);
      } else {
        OtherLine(g.journal, line.0, line.1, g.revoked);
      }
  }

  predicate RevocationsWritten(steps: seq<Step>) {
    forall i :: 0 <= i < |steps| && steps[i].RevokeIt? ==> steps[i].written
  }

  lemma {:induction false} RunLines(token: Token.TokenState, head: nat, now: int, cfg: Config, steps: seq<Step>)
    requires ValidRun(Started(token, head, now), cfg, steps)
    ensures var g := After(Started(token, head, now), cfg, steps);
            LinesOk(g.journal, g.revoked) && (RevocationsWritten(steps) ==> AllLines(g.journal, g.revoked))
  {
    hide Next;
    if steps == [] {
    } else {
      hide LinesOk, AllLines;
      RunLines(token, head, now, cfg, Init(steps));
      LinesKept(After(Started(token, head, now), cfg, Init(steps)), cfg, Last(steps));
      assert RevocationsWritten(steps) ==> RevocationsWritten(Init(steps)) by {
        assert forall i :: 0 <= i < |Init(steps)| ==> Init(steps)[i] == steps[i];
      }
      assert Last(steps) == steps[|steps| - 1];
    }
  }

  predicate OneDelegatorPerId(revoked: Revocations) {
    forall x, y :: x in revoked && y in revoked && x.1 == y.1 ==> x == y
  }

  /** A restart never invents a revocation. When every revocation line was written it restores the
      very set that was in force exactly when no mandate id was revoked by two delegators, because
      a line is keyed by the mandate id alone. */
  lemma {:induction false} RevocationsRestoredIff(token: Token.TokenState, head: nat, now: int, cfg: Config,
      steps: seq<Step>)
    requires ValidRun(Started(token, head, now), cfg, steps)
    ensures var g := After(Started(token, head, now), cfg, steps);
            && Restarted(g).revoked <= g.revoked
            && (RevocationsWritten(steps) ==> (Restarted(g).revoked == g.revoked <==> OneDelegatorPerId(g.revoked)))
  {
    hide After, RestoredRevoked, RevokedUnder, RestoredAccounts, RestoredSettlements, HasId, RevocationsWritten;
    RunLines(token, head, now, cfg, steps);
    var g := After(Started(token, head, now), cfg, steps);
    var restored := RestoredRevoked(g.journal);
    forall x | x in restored
      ensures x in g.revoked
    {
      assert (x.0, x.1) in restored;
      assert RevokedUnder(g.journal, x.0, x.1);
    }
    if RevocationsWritten(steps) && OneDelegatorPerId(g.revoked) {
      forall x | x in g.revoked
        ensures x in restored
      {
        assert HasId(g.journal, OfRevocation(x.1));
        var d: Address :| RevokedUnder(g.journal, d, x.1);
        assert (d, x.1) in g.revoked;
      }
    }
  }

  /** The shortest loss: two delegators revoke the same id, and only the first one's line is written. */
  lemma {:induction false} SecondRevokerIsLost(token: Token.TokenState, head: nat, now: int, cfg: Config)
    ensures var g0 := Started(token, head, now);
            var steps := [RevokeIt(1, 7, true), RevokeIt(2, 7, true)];
            && ValidRun(g0, cfg, steps)
            && After(g0, cfg, steps).revoked == {(1, 7), (2, 7)}
            && Restarted(After(g0, cfg, steps)).revoked == {(1, 7)}
  {
    hide ValidRun, After, Next, Enabled, AppendEntry, RestoredRevoked, RestoredAccounts, RestoredSettlements;
    var g0 := Started(token, head, now);
    var first, second := RevokeIt(1, 7, true), RevokeIt(2, 7, true);
    var line, other := Entry(OfRevocation(7), RevocationBody(1, 7)), Entry(OfRevocation(7), RevocationBody(2, 7));
    RevokesOne(g0, cfg, 1, 7);
    var g1 := Next(g0, cfg, first);
    RevokesOne(g1, cfg, 2, 7);
    RunOfTwo(g0, cfg, first, second);
    OneLinePerId(line, other);
    assert After(g0, cfg, [first, second]).journal == [line];
    OneRevocation(line);
  }

  lemma {:induction false} RevokesOne(g: State, cfg: Config, delegator: Address, id: MandateId)
    ensures Enabled(g, RevokeIt(delegator, id, true))
    ensures Next(g, cfg, RevokeIt(delegator, id, true)) ==
              g.(revoked := g.revoked + {(delegator, id)},
                 journal := AppendEntry(g.journal, Entry(OfRevocation(id), RevocationBody(delegator, id)), true))
  {
    hide AppendEntry;
  }

  lemma {:induction false} OneLinePerId(line: Entry, other: Entry)
    requires line.id == other.id
    ensures AppendEntry([], line, true) == [line] && AppendEntry([line], other, true) == [line]
  {
    assert [] + [line] == [line];
    assert [line][0].id == other.id;
  }

  lemma {:induction false} OneRevocation(line: Entry)
    requires line.body.RevocationBody?
    ensures RestoredRevoked([line]) == {(line.body.delegator, line.body.revokedId)}
  {
    assert Init([line]) == [];
  }

  lemma {:induction false} RunOfTwo(g0: State, cfg: Config, a: Step, b: Step)
    requires Enabled(g0, a) && Enabled(Next(g0, cfg, a), b)
    ensures ValidRun(g0, cfg, [a, b]) && After(g0, cfg, [a, b]) == Next(Next(g0, cfg, a), cfg, b)
  {
    hide Next, Enabled;
    assert Init([a, b]) == [a] && Init([a]) == [];
    assert ValidRun(g0, cfg, []) && After(g0, cfg, []) == g0;
    assert ValidRun(g0, cfg, [a]) && After(g0, cfg, [a]) == Next(g0, cfg, a);
  }
}
