/** Exactly when each gate of the gateway opens (x402/gateway.go, x402/facilitator_local.go), in every
    reachable state and in terms of the payment, the mandate and the chain alone: verification, the
    decision, the transaction, the retry of a deferred payment, and the end of a delivery. */
module GatewayGates {
  import opened Common
  import opened MandateAccounts
  import opened Policy
  import opened Gateway
  import opened GatewaySafety
  import opened GatewayProvenance
  import AccountLaws
  import PolicyLaws
  import TokenLaws
  import Token = Stablecoin

  // ---- The token's books stay balanced ----

  /** A step makes at most one token call. */
  function CallOf(g: State, cfg: Config, step: Step): Token.Transaction
    requires Enabled(g, step)
  {
    match step
    case Outside(call) => call
    case Submit(n, _, _, _, _) =>
      var p := g.active[n].p;
      var seconds := if g.now < 0 then 0 else UnixSeconds(g.now);
      Token.Transaction(cfg.relayer, seconds, Token.DoSettle(p.auth, p.recovered, false))
    case Deliver(n, _, _, _, _) =>
      var r := g.active[n].record;
      Token.Transaction(cfg.payTo, 0, Token.DoTransfer(r.payer, if r.amount < Token.WORD_SPACE then r.amount else 0))
    case _ => Token.Transaction(0, 0, Token.DoApprove(0, 0))
  }

  lemma {:induction false} TokenMovesBy(g: State, cfg: Config, step: Step)
    requires Enabled(g, step)
    ensures var st' := Next(g, cfg, step).token;
            st' == g.token || st' == Token.StateAfter(g.token, CallOf(g, cfg, step))
  {
    hide Token.Transfer, Token.SettleAuthorization, ArriveStep, DecideStep, DeliverStep, ResumeStep, JournalStep,
         CommitStep, ListStep, StampStep, AppendEntry, Notified, VerifyPayment;
    match step
    case Arrive(p) => ArriveKeepsToken(g, cfg, p);
    case DecideOn(n, middle, written) => DecideAsUpdate(g, cfg, n, middle, written);
    case Deliver(n, delivered, refundTx, refund, written) =>
      DeliverAsUpdate(g, cfg, n, delivered, refundTx, refund, written);
    case Resume(p, middle) => ResumeKeepsToken(g, cfg, p, middle);
    case Journal(n, written) => JournalKeepsToken(g, n, written);
    case CommitIt(n) => RecordingKeepsToken(g, n, true, true);
    case ListIt(n) => RecordingKeepsToken(g, n, true, true);
    case StampIt(n, written, known) => RecordingKeepsToken(g, n, written, known);
    case _ =>
  }

  lemma {:induction false} ArriveKeepsToken(g: State, cfg: Config, p: Payment)
    ensures ArriveStep(g, cfg, p).token == g.token
  {
    hide VerifyPayment;
  }

  lemma {:induction false} ResumeKeepsToken(g: State, cfg: Config, p: Payment, middle: seq<Decision>)
    requires p.auth.nonce in g.inflight
    ensures ResumeStep(g, cfg, p, middle).token == g.token
  {
    hide ChainDecide;
  }

  lemma {:induction false} JournalKeepsToken(g: State, n: Nonce, written: bool)
    requires n in g.active && g.active[n].Mined?
    ensures JournalStep(g, n, written).token == g.token
  {
    hide Notified, AppendEntry;
  }

  lemma {:induction false} RecordingKeepsToken(g: State, n: Nonce, written: bool, known: bool)
    requires n in g.active
    ensures g.active[n].Journaled? ==> CommitStep(g, n).token == g.token
    ensures g.active[n].Committed? ==> ListStep(g, n).token == g.token
    ensures g.active[n].Listed? ==> StampStep(g, n, written, known).token == g.token
  {
    hide Notified, AppendEntry;
  }

  lemma {:induction false} RunSolid(token: Token.TokenState, head: nat, now: int, cfg: Config, steps: seq<Step>)
    requires Token.Solid(token) && ValidRun(Started(token, head, now), cfg, steps)
    ensures Token.Solid(After(Started(token, head, now), cfg, steps).token)
  {
    hide Next, Token.Solid;
    if steps != [] {
      RunSolid(token, head, now, cfg, Init(steps));
      var g := After(Started(token, head, now), cfg, Init(steps));
      TokenMovesBy(g, cfg, Last(steps));
      Token.SolidStays(g.token, CallOf(g, cfg, Last(steps)));
    }
  }

  // ---- The way in ----

  /** A payment that arrives is taken for verified exactly when it is proper; one that is bound to the
      resource and not proper is remembered as unverified; any other is turned away. */
  lemma {:induction false} ArrivalIsJudged(g: State, cfg: Config, p: Payment)
    requires Enabled(g, Arrive(p))
    ensures var active := Next(g, cfg, Arrive(p)).active;
            && (p.auth.nonce in active <==> p.bound)
            && (p.bound ==> active == g.active[p.auth.nonce := Verified(p, Proper(g, cfg, p))])
            && (!p.bound ==> active == g.active)
  {
    ProperIsVerified(g, cfg, p);
    hide Proper, VerifyPayment;
  }

  /** A request goes on to settlement exactly when its payment was verified and is let through. */
  lemma {:induction false} DecisionIsExact(g: State, cfg: Config, n: Nonce, middle: seq<Decision>, written: bool)
    requires Enabled(g, DecideOn(n, middle, written))
    ensures n in Next(g, cfg, DecideOn(n, middle, written)).active <==>
              g.active[n].valid && LetThrough(g, cfg, g.active[n].p, middle)
  {
    var p, valid := g.active[n].p, g.active[n].valid;
    DecideAsUpdate(g, cfg, n, middle, written);
    if valid {
      PassesIffLetThrough(g, cfg, p, middle);
    } else {
      UnverifiedStops(g, cfg, p, middle);
    }
    hide DecideStep, ChainDecide, HeldBy, LetThrough, AppendEntry;
  }

  /** In every reachable state, a transaction that is included executes the authorization exactly when the
      token's own conditions hold at that moment, and then moves the value from payer to payee. It
      counts as settled only if, besides, its success is reported; otherwise its reservation is
      dropped. */
  lemma {:induction false} SubmissionIsExact(token: Token.TokenState, head: nat, now: int, cfg: Config,
      steps: seq<Step>, n: Nonce, tx: TxHash, included: bool, reported: bool, block: nat)
    requires Token.Solid(token) && ValidRun(Started(token, head, now), cfg, steps)
    requires Enabled(After(Started(token, head, now), cfg, steps), Step.Submit(n, tx, included, reported, block))
    ensures var g := After(Started(token, head, now), cfg, steps);
            var g' := Next(g, cfg, Step.Submit(n, tx, included, reported, block));
            var p := g.active[n].p;
            var executes := included && Executable(g, cfg, p);
            && (n in g'.active <==> executes && reported)
            && (if executes && reported then g'.accounts == g.accounts else Told(g, p, false, g'.accounts))
            && (if executes
                then g'.token.used == g.token.used + {KeyOf(p)} && MovedExactly(g.token, p.auth, g'.token)
                else g'.token == g.token)
  {
    hide Next, After, ValidRun, Executable;
    RunSolid(token, head, now, cfg, steps);
    var g := After(Started(token, head, now), cfg, steps);
    SubmitIs(g, cfg, n, tx, included, reported, block);
    SubmissionAt(g, cfg, n, tx, included, reported, block);
    hide SubmitStep, MovedExactly, Told;
  }

  lemma {:induction false} SubmitIs(g: State, cfg: Config, n: Nonce, tx: TxHash, included: bool, reported: bool,
      block: nat)
    requires Enabled(g, Step.Submit(n, tx, included, reported, block))
    ensures n in g.active && g.active[n].Settling?
    ensures Next(g, cfg, Step.Submit(n, tx, included, reported, block)) ==
              SubmitStep(g, cfg, n, tx, included, reported, block)
  {
    hide SubmitStep;
  }

  ghost predicate MovedExactly(st: Token.TokenState, a: Token.Authorization, st': Token.TokenState) {
    forall x: Address ::
      st'.BalanceOf(x) ==
        st.BalanceOf(x) + (if x == a.to then a.value else 0) - (if x == a.from then a.value else 0)
  }

  lemma {:induction false} SubmissionAt(g: State, cfg: Config, n: Nonce, tx: TxHash, included: bool, reported: bool,
      block: nat)
    requires Token.Solid(g.token) && n in g.active && g.active[n].Settling?
    ensures var g' := SubmitStep(g, cfg, n, tx, included, reported, block);
            var p := g.active[n].p;
            var executes := included && Executable(g, cfg, p);
            && (n in g'.active <==> executes && reported)
            && (if executes && reported then g'.accounts == g.accounts else Told(g, p, false, g'.accounts))
            && (if executes
                then g'.token.used == g.token.used + {KeyOf(p)} && MovedExactly(g.token, p.auth, g'.token)
                else g'.token == g.token)
  {
    var p := g.active[n].p;
    LandsOnlyIf(g, cfg, p);
    if OnChain(g, cfg, p).Done? {
      ExecutionMoves(g, cfg, p);
    }
    NotifiedTells(g, p, false);
    hide OnChain, Executable, Notified, Told, Token.Solid, MovedExactly;
  }

  lemma {:induction false} ExecutionMoves(g: State, cfg: Config, p: Payment)
    requires OnChain(g, cfg, p).Done?
    ensures var st := OnChain(g, cfg, p).state;
            st.used == g.token.used + {KeyOf(p)} && MovedExactly(g.token, p.auth, st)
  {}

  // ---- The way out ----

  /** The policies judge a retry by its own payload and the recorded payer; only the cap is asked again,
      not the windows. */
  predicate LicensedAgain(g: State, cfg: Config, p: Payment, payer: Address) {
    && p.mandate.Some?
    && var m := p.mandate.value;
    && p.genuine && m.agent == payer
    && m.validAfter <= g.now / SECOND < m.validBefore
    && (m.delegator, m.id) !in g.revoked
    && PolicyLaws.Covers(m, cfg.payTo, p.resource)
    && PolicyLaws.UnderCap(m, p.auth.value, p.confirmed)
  }

  lemma {:induction false} ApprovedAgainIff(g: State, cfg: Config, p: Payment, payer: Address, middle: seq<Decision>,
      stage: Stage)
    requires stage != PreSettlement
    ensures ChainDecide(g, cfg, Retried(p, payer), true, middle, stage).0.action == Approve <==>
              && AllApprove(middle, |middle|)
              && LicensedAgain(g, cfg, p, payer)
              && (0 < cfg.settings.deferAbove <= p.auth.value ==> stage == Confirmed)
  {
    VerifiedVeto(middle);
    FirstVetoOf(middle);
    var r := RequestOf(cfg, Retried(p, payer));
    PolicyLaws.PassesIff(cfg.settings, g.revoked, g.accounts, r, g.now, stage);
    hide FirstVeto, Decide, PolicyLaws.Covers, DefersEarly;
  }

  /** A retry releases a deferred payment exactly when the block it is kept with is not above the head, the
      policies let the retry pass, and it names a small amount or the block lies the confirm depth
      below the head. What is released is the stored payment. */
  lemma {:induction false} RetryReleasesIff(g: State, cfg: Config, p: Payment, middle: seq<Decision>)
    requires Enabled(g, Resume(p, middle))
    ensures var n, df, g' := p.auth.nonce, g.inflight[p.auth.nonce], Next(g, cfg, Resume(p, middle));
            var releases :=
              && df.block <= g.head
              && AllApprove(middle, |middle|)
              && LicensedAgain(g, cfg, p, df.record.payer)
              && (0 < cfg.settings.deferAbove <= p.auth.value ==> df.block + cfg.confirmDepth <= g.head);
            if releases
            then g' == g.(inflight := g.inflight - {n}, active := g.active[n := Delivering(df.p, df.record)])
            else g' == g
  {
    var df := g.inflight[p.auth.nonce];
    hide ChainDecide, LicensedAgain, AllApprove;
    if StageOf(g, cfg, df.block).Some? {
      ApprovedAgainIff(g, cfg, p, df.record.payer, middle, StageOf(g, cfg, df.block).value);
    }
  }

  /** The end of a delivery in every reachable state: served exactly when there is no deliverer or the
      delivery succeeds; otherwise refunded exactly when there is a refunder, the refund is included and
      reported, and the payee's account can return the amount; otherwise the refund stays pending.
      Value flows back exactly when the refund is included and can be, reported or not. */
  lemma {:induction false} DeliveryEndsExactly(token: Token.TokenState, head: nat, now: int, cfg: Config,
      steps: seq<Step>, n: Nonce, delivered: bool, refundTx: TxHash, refund: Reply, written: bool)
    requires Token.Solid(token) && ValidRun(Started(token, head, now), cfg, steps)
    requires Enabled(After(Started(token, head, now), cfg, steps),
                     Step.Deliver(n, delivered, refundTx, refund, written))
    ensures var g := After(Started(token, head, now), cfg, steps);
            var g' := Next(g, cfg, Step.Deliver(n, delivered, refundTx, refund, written));
            var r := g.active[n].record;
            var serves := !cfg.hasDeliverer || delivered;
            var flowsBack :=
              && !serves && cfg.hasRefunder && refund != NotIncluded && Returnable(g, cfg, r);
            && n !in g'.active
            && g'.served == (if serves then g.served + [Served(r, n)] else g.served)
            && g'.fates == g.fates[r.tx := if serves then Delivered
                                           else if flowsBack && refund == Reported then Refunded(refundTx)
                                           else RefundPending]
            && (forall x: Address ::
                  g'.token.BalanceOf(x) ==
                    g.token.BalanceOf(x) + (if flowsBack && x == r.payer then r.amount else 0)
                      - (if flowsBack && x == cfg.payTo then r.amount else 0))
  {
    hide Next, After, ValidRun;
    RunSolid(token, head, now, cfg, steps);
    DeliveryAt(After(Started(token, head, now), cfg, steps), cfg, n, delivered, refundTx, refund, written);
  }

  predicate Returnable(g: State, cfg: Config, r: Record) {
    && r.amount < Token.WORD_SPACE
    && TokenLaws.Free(g.token.controls, cfg.payTo, r.payer) && r.amount <= g.token.BalanceOf(cfg.payTo)
  }

  lemma {:induction false} DeliveryAt(g: State, cfg: Config, n: Nonce, delivered: bool, refundTx: TxHash,
      refund: Reply, written: bool)
    requires Token.Solid(g.token) && Enabled(g, Step.Deliver(n, delivered, refundTx, refund, written))
    ensures var g' := Next(g, cfg, Step.Deliver(n, delivered, refundTx, refund, written));
            var r := g.active[n].record;
            var serves := !cfg.hasDeliverer || delivered;
            var flowsBack :=
              && !serves && cfg.hasRefunder && refund != NotIncluded && Returnable(g, cfg, r);
            && n !in g'.active
            && g'.served == (if serves then g.served + [Served(r, n)] else g.served)
            && g'.fates == g.fates[r.tx := if serves then Delivered
                                           else if flowsBack && refund == Reported then Refunded(refundTx)
                                           else RefundPending]
            && (forall x: Address ::
                  g'.token.BalanceOf(x) ==
                    g.token.BalanceOf(x) + (if flowsBack && x == r.payer then r.amount else 0)
                      - (if flowsBack && x == cfg.payTo then r.amount else 0))
  {
    DeliverAsUpdate(g, cfg, n, delivered, refundTx, refund, written);
    RefundIsExact(g, cfg, g.active[n].record);
    hide DeliverStep, RefundOutcome, AppendEntry, Returnable, Token.Solid;
  }

  lemma {:induction false} RefundIsExact(g: State, cfg: Config, r: Record)
    requires Token.Solid(g.token)
    ensures RefundOutcome(g, cfg, r).Done? <==> Returnable(g, cfg, r)
    ensures RefundOutcome(g, cfg, r).Done? ==>
              forall x: Address ::
                RefundOutcome(g, cfg, r).state.BalanceOf(x) ==
                  g.token.BalanceOf(x) + (if x == r.payer then r.amount else 0)
                    - (if x == cfg.payTo then r.amount else 0)
  {
    if r.amount < Token.WORD_SPACE {
      TokenLaws.MoveLaw(g.token, cfg.payTo, r.payer, r.amount);
    }
    hide Token.Move;
  }

  // ---- The record ----

  /** The journal after a write of a line: one more entry if the write succeeds and the id is new. */
  ghost predicate Logged(journal: seq<Entry>, id: EntryId, body: Body, written: bool, journal': seq<Entry>) {
    if written && (forall e :: e in journal ==> e.id != id) then journal' == journal + [Entry(id, body)]
    else journal' == journal
  }

  lemma {:induction false} AppendLogs(journal: seq<Entry>, e: Entry, written: bool)
    ensures Logged(journal, e.id, e.body, written, AppendEntry(journal, e, written))
  {
    if forall x :: x in journal ==> x.id != e.id {
      assert forall i :: 0 <= i < |journal| ==> journal[i] in journal;
    }
  }

  /** The accounts after the mandate policy is told of an outcome: the reservation of the nonce is gone, and a
      success has become one spend at this reading of the clock. */
  ghost predicate Told(g: State, p: Payment, ok: bool, accounts: Accounts) {
    forall id: MandateId, s: Spend :: ToldAt(g, p, ok, accounts, id, s)
  }

  ghost predicate ToldAt(g: State, p: Payment, ok: bool, accounts: Accounts, id: MandateId, s: Spend) {
    var mine := p.mandate.Some? && p.mandate.value.id == id;
    var held, times := AccountLaws.HeldUnder(g.accounts, id),
      AccountLaws.Times(AccountLaws.SpendsOf(g.accounts, id), s);
    var counts := ok && mine && p.auth.nonce in held;
    && AccountLaws.HeldUnder(accounts, id) == (map n | n in held && (!mine || n != p.auth.nonce) :: held[n])
    && AccountLaws.Times(AccountLaws.SpendsOf(accounts, id), s) ==
         if !counts then times
         else if s.at < g.now - MaxWindow(p.mandate.value) then 0
         else times + if s == Spend(g.now, held[p.auth.nonce].amount) then 1 else 0
  }

  lemma {:induction false} NotifiedTells(g: State, p: Payment, ok: bool)
    ensures Told(g, p, ok, Notified(g, p, ok))
  {
    hide Commit, MandateAccounts.Release, AccountLaws.HeldUnder, AccountLaws.SpendsOf, AccountLaws.Times, WindowDur;
    forall id: MandateId, s: Spend
      ensures ToldAt(g, p, ok, Notified(g, p, ok), id, s)
    {
      var held := AccountLaws.HeldUnder(g.accounts, id);
      assert (map n | n in held :: held[n]) == held;
      if p.mandate.Some? {
        AccountLaws.CommitIs(g.accounts, p.mandate.value, p.auth.nonce, g.now, id, s);
        AccountLaws.ReleaseIs(g.accounts, p.mandate.value, p.auth.nonce, id);
      }
    }
  }

  /** A mined payment goes on exactly when its settlement line is written: payer, amount and whole second of the
      clock, under the transaction. Otherwise the request ends and its reservation is dropped. */
  lemma {:induction false} JournalingIsExact(g: State, cfg: Config, n: Nonce, written: bool)
    requires Enabled(g, Step.Journal(n, written))
    ensures var g', ph := Next(g, cfg, Step.Journal(n, written)), g.active[n];
            var r := Record(ph.p.auth.from, ph.p.auth.value, ph.tx, g.now);
            && Logged(g.journal, OfTx(ph.tx), SettlementBody(r.payer, r.amount, g.now / SECOND), written, g'.journal)
            && (g'.settlements, g'.inflight, g'.token) == (g.settlements, g.inflight, g.token)
            && (if written
                then g'.active == g.active[n := Journaled(ph.p, ph.deferred, ph.held, r, ph.block)]
                     && g'.accounts == g.accounts
                else g'.active == g.active - {n} && Told(g, ph.p, false, g'.accounts))
  {
    var ph := g.active[n];
    AppendLogs(g.journal, SettlementEntry(RecordFor(g, ph.p, ph.tx)), written);
    NotifiedTells(g, ph.p, false);
    hide AppendEntry, Notified, Told, Logged;
  }

  /** The commit counts the payment and lists nothing, the listing lists its record and counts nothing. */
  lemma {:induction false} CountingIsExact(g: State, cfg: Config, n: Nonce)
    ensures Enabled(g, CommitIt(n)) ==>
              var g', ph := Next(g, cfg, CommitIt(n)), g.active[n];
              && Told(g, ph.p, true, g'.accounts)
              && g' == g.(accounts := g'.accounts,
                          active := g.active[n := Committed(ph.p, ph.deferred, ph.record, ph.block, g.now)])
    ensures Enabled(g, ListIt(n)) ==>
              var ph := g.active[n];
              Next(g, cfg, ListIt(n)) ==
                g.(settlements := g.settlements + [ph.record],
                   active := g.active[n := Listed(ph.p, ph.deferred, ph.record, ph.block, ph.at)])
  {
    if Enabled(g, CommitIt(n)) {
      NotifiedTells(g, g.active[n].p, true);
    }
    hide Notified, Told;
  }

  /** The settled line names the mandate, the amount and the whole second of its own reading of the clock. Then a
      deferred payment is kept with the block of its receipt, or block 0 without one, and any other is
      handed on. */
  lemma {:induction false} StampingIsExact(g: State, cfg: Config, n: Nonce, written: bool, receiptKnown: bool)
    requires Enabled(g, StampIt(n, written, receiptKnown))
    ensures var g', ph := Next(g, cfg, StampIt(n, written, receiptKnown)), g.active[n];
            var under := if ph.p.mandate.Some? then Some(ph.p.mandate.value.id) else None;
            var kept := Deferred(ph.p, ph.record, if receiptKnown then ph.block else 0);
            && Logged(g.journal, OfDecision(ph.p.auth.nonce, true),
                      DecisionBody(under, ph.p.auth.value, g.now / SECOND, true), written, g'.journal)
            && g' == g.(journal := g'.journal,
                        active := if ph.deferred then g.active - {n} else g.active[n := Delivering(ph.p, ph.record)],
                        inflight := if ph.deferred then g.inflight[n := kept] else g.inflight)
  {
    AppendLogs(g.journal, DecisionEntry(g.active[n].p, g.now, true), written);
    hide AppendEntry, Logged;
  }

  /** A revocation takes hold at once, whether or not its line is written. */
  lemma {:induction false} RevocationIsExact(g: State, cfg: Config, delegator: Address, id: MandateId, written: bool)
    ensures var g' := Next(g, cfg, RevokeIt(delegator, id, written));
            && Logged(g.journal, OfRevocation(id), RevocationBody(delegator, id), written, g'.journal)
            && g' == g.(journal := g'.journal, revoked := g.revoked + {(delegator, id)})
  {
    AppendLogs(g.journal, Entry(OfRevocation(id), RevocationBody(delegator, id)), written);
    hide AppendEntry, Logged;
  }
}
