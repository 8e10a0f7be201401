/** The gateway's accounting inside its lifecycle: what is reserved at any moment, and that what a
    gateway commits under a mandate is a run of that mandate's accounting, so its window bounds
    carry over to settled payments. */
module GatewayAccounting {
  import opened Common
  import opened MandateAccounts
  import opened Policy
  import opened Gateway
  import Token = Stablecoin

  function MandateIdOf(p: Payment): Option<MandateId> {
    if p.mandate.Some? then Some(p.mandate.value.id) else None
  }

  /** Between the decision and the end of settle, a payment the mandate policy let through. */
  predicate HoldsFor(ph: Phase, id: MandateId) {
    (ph.Settling? || ph.Mined? || ph.Journaled?) && ph.held && MandateIdOf(ph.p) == Some(id)
  }

  predicate Held(active: map<Nonce, Phase>, id: MandateId, n: Nonce) {
    n in active && HoldsFor(active[n], id)
  }

  predicate Reserved(accounts: Accounts, id: MandateId, n: Nonce) {
    n in AccountOf(accounts, id).reserved
  }

  /** The reservations are exactly the nonces between decision and the end of settle, each with its
      own amount. */
  ghost predicate Exact(accounts: Accounts, active: map<Nonce, Phase>) {
    && (forall id, n :: Reserved(accounts, id, n) <==> Held(active, id, n))
    && (forall id, n :: Reserved(accounts, id, n) && n in active ==>
          AccountOf(accounts, id).reserved[n].amount == active[n].p.auth.value)
  }

  /** Requests are filed under the nonce of their payment. */
  ghost predicate Filed(active: map<Nonce, Phase>) {
    forall n :: n in active ==> active[n].p.auth.nonce == n
  }

  // ---- What each accounting call does to one account ----

  lemma {:induction false} ReleaseAt(g: State, p: Payment, id: MandateId)
    ensures AccountOf(Notified(g, p, false), id) ==
              if MandateIdOf(p) == Some(id) then ReleaseIn(AccountOf(g.accounts, id), p.auth.nonce)
              else AccountOf(g.accounts, id)
  {
    assert NewAccount.reserved - {p.auth.nonce} == map[];
  }

  lemma {:induction false} CommitAt(g: State, p: Payment, id: MandateId)
    ensures AccountOf(Notified(g, p, true), id) ==
              if MandateIdOf(p) == Some(id)
              then CommitIn(AccountOf(g.accounts, id), p.mandate.value, p.auth.nonce, g.now)
              else AccountOf(g.accounts, id)
  {}

  /** The decision reaches the windows: verified, past the middle policies, entitled, under the cap. */
  ghost predicate Reaches(g: State, cfg: Config, p: Payment, valid: bool, middle: seq<Decision>) {
    && FirstVeto([AlwaysVerify(valid)] + middle).action == Approve
    && Entitlement(g.revoked, RequestOf(cfg, p), g.now).None?
    && !OverCap(p.mandate.value, RequestOf(cfg, p))
  }

  lemma {:induction false} DecideAt(g: State, cfg: Config, p: Payment, valid: bool, middle: seq<Decision>,
      id: MandateId)
    ensures AccountOf(ChainDecide(g, cfg, p, valid, middle, PreSettlement).1, id) ==
              if Reaches(g, cfg, p, valid, middle) && MandateIdOf(p) == Some(id)
              then ReserveIn(AccountOf(g.accounts, id), p.mandate.value, p.auth.nonce, p.auth.value, g.now, p.confirmed)
              else AccountOf(g.accounts, id)
  {
    hide VerdictOf, FirstVeto;
  }

  // ---- Reservations are exact ----

  /** A request that is not held moves to a phase that is not held, or ends; accounts look the same. */
  lemma {:induction false} ExactIdle(accounts: Accounts, accounts': Accounts, active: map<Nonce, Phase>, n: Nonce,
      ph: Phase)
    requires Exact(accounts, active)
    requires forall id: MandateId :: AccountOf(accounts', id) == AccountOf(accounts, id)
    requires forall id: MandateId :: !Held(active, id, n) && !HoldsFor(ph, id)
    ensures Exact(accounts', active[n := ph]) && Exact(accounts', active - {n})
  {
    forall id, k
      ensures Reserved(accounts', id, k) <==> Held(active[n := ph], id, k)
      ensures Reserved(accounts', id, k) <==> Held(active - {n}, id, k)
    {
      assert Reserved(accounts, id, k) <==> Held(active, id, k);
    }
  }

  /** The held request moves on within settle. */
  lemma {:induction false} ExactMoves(accounts: Accounts, active: map<Nonce, Phase>, n: Nonce, ph: Phase)
    requires Exact(accounts, active) && n in active
    requires ph.p == active[n].p && forall id: MandateId :: HoldsFor(ph, id) <==> HoldsFor(active[n], id)
    ensures Exact(accounts, active[n := ph])
  {
    forall id, k
      ensures Reserved(accounts, id, k) <==> Held(active[n := ph], id, k)
    {
      assert Reserved(accounts, id, k) <==> Held(active, id, k);
    }
  }

  /** The policy takes the payment: one new reservation. */
  lemma {:induction false} ExactReserved(accounts: Accounts, accounts': Accounts, active: map<Nonce, Phase>, n: Nonce,
      ph: Phase, id0: MandateId, s: Spend)
    requires Exact(accounts, active) && (forall id: MandateId :: !Held(active, id, n))
    requires HoldsFor(ph, id0) && s.amount == ph.p.auth.value
    requires forall id: MandateId :: AccountOf(accounts', id) ==
               if id == id0 then AccountOf(accounts, id).(reserved := AccountOf(accounts, id).reserved[n := s])
               else AccountOf(accounts, id)
    ensures Exact(accounts', active[n := ph])
  {
    forall id, k
      ensures Reserved(accounts', id, k) <==> Held(active[n := ph], id, k)
    {
      assert Reserved(accounts, id, k) <==> Held(active, id, k);
    }
    forall id, k | Reserved(accounts', id, k) && k in active[n := ph]
      ensures AccountOf(accounts', id).reserved[k].amount == active[n := ph][k].p.auth.value
    {
      if k != n {
        assert Reserved(accounts, id, k);
      }
    }
  }

  /** Settle ends, one way or the other: the reservation is gone. */
  lemma {:induction false} ExactEnds(accounts: Accounts, accounts': Accounts, active: map<Nonce, Phase>, n: Nonce,
      ph: Phase)
    requires Exact(accounts, active) && n in active
    requires forall id: MandateId :: !HoldsFor(ph, id)
    requires forall id: MandateId :: AccountOf(accounts', id).reserved ==
               if MandateIdOf(active[n].p) == Some(id) then AccountOf(accounts, id).reserved - {n}
               else AccountOf(accounts, id).reserved
    ensures Exact(accounts', active - {n}) && Exact(accounts', active[n := ph])
  {
    forall id, k
      ensures Reserved(accounts', id, k) <==> Held(active - {n}, id, k)
      ensures Reserved(accounts', id, k) <==> Held(active[n := ph], id, k)
    {
      assert Reserved(accounts, id, k) <==> Held(active, id, k);
    }
    forall id, k | Reserved(accounts', id, k) && k in active
      ensures k != n && AccountOf(accounts', id).reserved[k].amount == active[k].p.auth.value
    {
      assert Reserved(accounts, id, k) && Held(active, id, k);
    }
  }

  /** And so are the deferred payments. */
  ghost predicate FiledAway(inflight: map<Nonce, Deferred>) {
    forall n :: n in inflight ==> inflight[n].p.auth.nonce == n
  }

  ghost predicate Books(g: State) {
    Exact(g.accounts, g.active) && Filed(g.active) && FiledAway(g.inflight)
  }

  lemma {:induction false} FiledPut(active: map<Nonce, Phase>, n: Nonce, ph: Phase)
    requires Filed(active) && ph.p.auth.nonce == n
    ensures Filed(active[n := ph]) && Filed(active - {n})
  {}

  // ---- Each step keeps the books ----

  /** A decision reserves exactly when the mandate policy holds the payment. */
  lemma {:induction false} DecideReserves(g: State, cfg: Config, p: Payment, valid: bool, middle: seq<Decision>,
      id: MandateId)
    ensures AccountOf(ChainDecide(g, cfg, p, valid, middle, PreSettlement).1, id) ==
              var acct := AccountOf(g.accounts, id);
              if HeldBy(g, cfg, p, valid, middle) && MandateIdOf(p) == Some(id)
              then acct.(reserved := acct.reserved[p.auth.nonce := Spend(g.now, p.auth.value)])
              else acct
  {
    hide ChainDecide, VerdictOf, FirstVeto, Entitlement, OverCap;
    DecideAt(g, cfg, p, valid, middle, id);
  }

  lemma {:induction false} HeldSettles(g: State, cfg: Config, p: Payment, valid: bool, middle: seq<Decision>)
    requires HeldBy(g, cfg, p, valid, middle)
    ensures p.mandate.Some?
    ensures var action := ChainDecide(g, cfg, p, valid, middle, PreSettlement).0.action;
            action == Approve || action == Defer
  {
    hide VerdictOf, FirstVeto, Decide;
    SettlesIffHeld(cfg.settings, g.revoked, g.accounts, RequestOf(cfg, p), g.now);
  }

  /** What a decision does to the reservations, whether the request goes on or ends. */
  lemma {:induction false} ExactDecided(g: State, cfg: Config, n: Nonce, middle: seq<Decision>, ph: Phase)
    requires Books(g) && n in g.active && g.active[n].Verified? && g.active[n].p.auth.nonce == n
    requires ph.Settling? && ph.p == g.active[n].p && ph.held == HeldBy(g, cfg, ph.p, g.active[n].valid, middle)
    ensures var accounts := ChainDecide(g, cfg, ph.p, g.active[n].valid, middle, PreSettlement).1;
            && Exact(accounts, g.active[n := ph])
            && (!ph.held ==> Exact(accounts, g.active - {n}))
            && (ph.held ==> var action := ChainDecide(g, cfg, ph.p, g.active[n].valid, middle, PreSettlement).0.action;
                            action == Approve || action == Defer)
  {
    hide Exact, Filed, ChainDecide, HeldBy, AccountOf;
    var p, valid := ph.p, g.active[n].valid;
    var decision := ChainDecide(g, cfg, p, valid, middle, PreSettlement);
    forall id: MandateId
      ensures AccountOf(decision.1, id) ==
                var acct := AccountOf(g.accounts, id);
                if ph.held && MandateIdOf(p) == Some(id)
                then acct.(reserved := acct.reserved[n := Spend(g.now, p.auth.value)])
                else acct
    {
      DecideReserves(g, cfg, p, valid, middle, id);
    }
    if ph.held {
      HeldSettles(g, cfg, p, valid, middle);
      ExactReserved(g.accounts, decision.1, g.active, n, ph, p.mandate.value.id, Spend(g.now, p.auth.value));
    } else {
      ExactIdle(g.accounts, decision.1, g.active, n, ph);
    }
  }

  lemma {:induction false} BooksDecide(g: State, cfg: Config, n: Nonce, middle: seq<Decision>, written: bool)
    requires Books(g) && n in g.active && g.active[n].Verified?
    ensures Books(DecideStep(g, cfg, n, middle, written))
  {
    hide AppendEntry, Exact, ChainDecide, HeldBy;
    var p, valid := g.active[n].p, g.active[n].valid;
    assert p.auth.nonce == n;
    hide Filed;
    var next := Settling(p, ChainDecide(g, cfg, p, valid, middle, PreSettlement).0.action == Defer,
                         HeldBy(g, cfg, p, valid, middle));
    FiledPut(g.active, n, next);
    ExactDecided(g, cfg, n, middle, next);
  }

  lemma {:induction false} BooksArrive(g: State, cfg: Config, p: Payment)
    requires Books(g) && Enabled(g, Arrive(p))
    ensures Books(ArriveStep(g, cfg, p))
  {
    hide VerifyPayment, Exact, Filed, AccountOf;
    var ph := Verified(p, VerifyPayment(cfg, g.token, p, UnixSeconds(g.now)));
    ExactIdle(g.accounts, g.accounts, g.active, p.auth.nonce, ph);
    FiledPut(g.active, p.auth.nonce, ph);
  }

  /** Settle fails: the policy is told, and the request ends. */
  lemma {:induction false} BooksFail(g: State, n: Nonce, ph: Phase)
    requires Books(g) && n in g.active && ph == g.active[n]
    requires ph.Settling? || ph.Mined?
    ensures Exact(Notified(g, ph.p, false), g.active - {n}) && Filed(g.active - {n})
  {
    hide Exact, Notified, AccountOf;
    FiledPut(g.active, n, ph);
    assert ph.p.auth.nonce == n;
    forall id: MandateId
      ensures AccountOf(Notified(g, ph.p, false), id).reserved ==
                if MandateIdOf(ph.p) == Some(id) then AccountOf(g.accounts, id).reserved - {n}
                else AccountOf(g.accounts, id).reserved
    {
      ReleaseAt(g, ph.p, id);
    }
    ExactEnds(g.accounts, Notified(g, ph.p, false), g.active, n, Verified(ph.p, false));
  }

  lemma {:induction false} BooksSubmit(g: State, cfg: Config, n: Nonce, tx: TxHash, included: bool, reported: bool,
      block: nat)
    requires Books(g) && n in g.active && g.active[n].Settling?
    ensures Books(SubmitStep(g, cfg, n, tx, included, reported, block))
  {
    hide Exact, Notified, OnChain, AccountOf;
    var ph := g.active[n];
    var next := Mined(ph.p, ph.deferred, ph.held, tx, block);
    assert ph.p.auth.nonce == n;
    hide Filed;
    BooksFail(g, n, ph);
    ExactMoves(g.accounts, g.active, n, next);
    FiledPut(g.active, n, next);
  }

  lemma {:induction false} BooksJournal(g: State, n: Nonce, written: bool)
    requires Books(g) && n in g.active && g.active[n].Mined?
    ensures Books(JournalStep(g, n, written))
  {
    hide Exact, Notified, AppendEntry, AccountOf;
    var ph := g.active[n];
    var next := Journaled(ph.p, ph.deferred, ph.held, RecordFor(g, ph.p, ph.tx), ph.block);
    assert ph.p.auth.nonce == n;
    hide Filed;
    BooksFail(g, n, ph);
    ExactMoves(g.accounts, g.active, n, next);
    FiledPut(g.active, n, next);
  }

  lemma {:induction false} BooksCommit(g: State, n: Nonce)
    requires Books(g) && n in g.active && g.active[n].Journaled?
    ensures Books(CommitStep(g, n))
  {
    hide Exact, Notified, AccountOf, Pruned;
    var ph := g.active[n];
    var next := Committed(ph.p, ph.deferred, ph.record, ph.block, g.now);
    assert ph.p.auth.nonce == n;
    hide Filed;
    forall id: MandateId
      ensures AccountOf(Notified(g, ph.p, true), id).reserved ==
                if MandateIdOf(ph.p) == Some(id) then AccountOf(g.accounts, id).reserved - {n}
                else AccountOf(g.accounts, id).reserved
    {
      CommitAt(g, ph.p, id);
      DropMissing(AccountOf(g.accounts, id).reserved, n);
    }
    ExactEnds(g.accounts, Notified(g, ph.p, true), g.active, n, next);
    FiledPut(g.active, n, next);
  }

  lemma {:induction false} BooksList(g: State, n: Nonce)
    requires Books(g) && n in g.active && g.active[n].Committed?
    ensures Books(ListStep(g, n))
  {
    hide Exact, AccountOf;
    var ph := g.active[n];
    var next := Listed(ph.p, ph.deferred, ph.record, ph.block, ph.at);
    assert ph.p.auth.nonce == n;
    hide Filed;
    ExactIdle(g.accounts, g.accounts, g.active, n, next);
    FiledPut(g.active, n, next);
  }

  lemma {:induction false} BooksStamp(g: State, n: Nonce, written: bool, receiptKnown: bool)
    requires Books(g) && n in g.active && g.active[n].Listed?
    ensures Books(StampStep(g, n, written, receiptKnown))
  {
    hide Exact, AppendEntry, AccountOf;
    var ph := g.active[n];
    var next := Delivering(ph.p, ph.record);
    assert ph.p.auth.nonce == n;
    hide Filed;
    ExactIdle(g.accounts, g.accounts, g.active, n, next);
    FiledPut(g.active, n, next);
  }

  lemma {:induction false} DropMissing(reserved: map<Nonce, Spend>, n: Nonce)
    ensures n !in reserved ==> reserved - {n} == reserved
  {}

  lemma {:induction false} BooksDeliver(g: State, cfg: Config, n: Nonce, delivered: bool, refundTx: TxHash,
      refund: Reply, written: bool)
    requires Books(g) && n in g.active && g.active[n].Delivering?
    ensures Books(DeliverStep(g, cfg, n, delivered, refundTx, refund, written))
  {
    hide Exact, AppendEntry, RefundOutcome, AccountOf;
    var ph := g.active[n];
    assert ph.p.auth.nonce == n;
    hide Filed;
    ExactIdle(g.accounts, g.accounts, g.active, n, ph);
    FiledPut(g.active, n, ph);
  }

  lemma {:induction false} BooksResume(g: State, cfg: Config, p: Payment, middle: seq<Decision>)
    requires Books(g) && Enabled(g, Resume(p, middle))
    ensures Books(ResumeStep(g, cfg, p, middle))
  {
    hide Exact, Filed, ChainDecide, AccountOf;
    var n := p.auth.nonce;
    assert g.inflight[n].p.auth.nonce == n;
    var next := Delivering(g.inflight[n].p, g.inflight[n].record);
    ExactIdle(g.accounts, g.accounts, g.active, n, next);
    FiledPut(g.active, n, next);
  }

  lemma {:induction false} BooksKept(g: State, cfg: Config, step: Step)
    requires Books(g) && Enabled(g, step)
    ensures Books(Next(g, cfg, step))
  {
    hide ArriveStep, DecideStep, SubmitStep, JournalStep, CommitStep, ListStep, StampStep, DeliverStep, ResumeStep,
         AppendEntry;
    hide Token.StateAfter, Exact, Filed, FiledAway;
    match step
    case Arrive(p) => BooksArrive(g, cfg, p);
    case DecideOn(n, middle, written) => BooksDecide(g, cfg, n, middle, written);
    case Submit(n, tx, included, reported, block) => BooksSubmit(g, cfg, n, tx, included, reported, block);
    case Journal(n, written) => BooksJournal(g, n, written);
    case CommitIt(n) => BooksCommit(g, n);
    case ListIt(n) => BooksList(g, n);
    case StampIt(n, written, receiptKnown) => BooksStamp(g, n, written, receiptKnown);
    case Deliver(n, delivered, refundTx, refund, written) =>
      BooksDeliver(g, cfg, n, delivered, refundTx, refund, written);
    case Resume(p, middle) => BooksResume(g, cfg, p, middle);
    case RevokeIt(_, _, _) =>
    case Outside(_) =>
    case Tick(_, _) =>
  }

  lemma {:induction false} RunBooks(token: Token.TokenState, head: nat, now: int, cfg: Config, steps: seq<Step>)
    requires ValidRun(Started(token, head, now), cfg, steps)
    ensures Books(After(Started(token, head, now), cfg, steps))
  {
    hide Next;
    var g0 := Started(token, head, now);
    if steps == [] {
    } else {
      hide Books;
      RunBooks(token, head, now, cfg, Init(steps));
      BooksKept(After(g0, cfg, Init(steps)), cfg, Last(steps));
    }
  }

  /** In every reachable state the reservation map holds exactly the nonces of the payments the
      mandate policy let through and whose settle has not ended, each with its own amount: every
      exit of settle notifies, and a refused payment leaves nothing behind. */
  lemma {:induction false} ReservationsExact(token: Token.TokenState, head: nat, now: int, cfg: Config,
      steps: seq<Step>)
    requires ValidRun(Started(token, head, now), cfg, steps)
    ensures var g := After(Started(token, head, now), cfg, steps);
            && (forall id, n :: Reserved(g.accounts, id, n) <==> Held(g.active, id, n))
            && (forall id, n :: Reserved(g.accounts, id, n) && n in g.active ==>
                  AccountOf(g.accounts, id).reserved[n].amount == g.active[n].p.auth.value)
            && (g.active == map[] ==> forall id: MandateId :: AccountOf(g.accounts, id).reserved == map[])
  {
    hide After, AccountOf;
    RunBooks(token, head, now, cfg, steps);
    var g := After(Started(token, head, now), cfg, steps);
    if g.active == map[] {
      forall id: MandateId
        ensures AccountOf(g.accounts, id).reserved == map[]
      {
        assert forall n :: n in AccountOf(g.accounts, id).reserved ==> Reserved(g.accounts, id, n);
      }
    }
  }
}
