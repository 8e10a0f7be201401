/** The gateway (x402/gateway.go) and its local facilitator (x402/facilitator_local.go) as objects.
    Every call is a run of the lifecycle machine, so what is proved of all runs holds of every
    state the gateway can reach. */
module GatewayService {
  import opened Common
  import opened MandateAccounts
  import opened Policy
  import opened Gateway
  import opened GatewaySafety
  import Token = Stablecoin

  /** What one answer adds to the served payments. */
  function ServedBy(answer: Answer, n: Nonce): seq<Served> {
    if answer.Paid? then [Served(answer.record, n)] else []
  }

  /** What the world does during one call: the answers of the policies in the middle, which journal
      writes succeed, and what becomes of the transactions. */
  datatype Env = Env(
    middle: seq<Decision>, decisionLogged: bool,
    tx: TxHash, included: bool, reported: bool, block: nat,
    persisted: bool, settledLogged: bool, receiptKnown: bool,
    delivered: bool, refundTx: TxHash, refund: Reply, refundLogged: bool)

  /** The chain as the facilitator sees it. Which transactions get in and which replies get lost is
      up to the caller. */
  class LocalFacilitator {
    const cfg: Config
    var token: Token.TokenState
    var head: nat
    var now: int

    constructor (cfg: Config, token: Token.TokenState, head: nat, now: int)
      ensures this.cfg == cfg && this.token == token && this.head == head && this.now == now
    {
      this.cfg, this.token, this.head, this.now := cfg, token, head, now;
    }

    method Verify(p: Payment) returns (valid: bool)
      ensures valid == VerifyPayment(cfg, token, p, UnixSeconds(now))
    {
      var seconds := UnixSeconds(now);
      if !p.wellFormed || p.auth.to != cfg.payTo || p.auth.value < cfg.price {
        return false;
      }
      if p.auth.validBefore <= seconds + 5 || p.auth.validAfter >= seconds {
        return false;
      }
      if p.recovered != p.auth.from || KeyOf(p) in token.used {
        return false;
      }
      if token.BalanceOf(p.auth.from) < p.auth.value {
        return false;
      }
      return p.auth.from !in token.controls.frozen;
    }

    /** In the lifecycle state g, which shares the chain. */
    method Settle(ghost g: State, p: Payment, included: bool, reported: bool, block: nat) returns (success: bool)
      requires g.token == token && g.now == now && g.head == head
      modifies this`token, this`head
      ensures head == if block > g.head then block else g.head
      ensures token == if included && OnChain(g, cfg, p).Done? then OnChain(g, cfg, p).state else g.token
      ensures success == (included && OnChain(g, cfg, p).Done? && reported)
    {
      hide Token.SettleAuthorization;
      var outcome := Token.SettleAuthorization(
        token, cfg.relayer, if now < 0 then 0 else UnixSeconds(now), p.auth, p.recovered, false);
      success := included && outcome.Done? && reported;
      if included && outcome.Done? {
        token := outcome.state;
      }
      if block > head {
        head := block;
      }
    }

    method Refund(ghost g: State, r: Record, reply: Reply) returns (success: bool)
      requires g.token == token
      modifies this`token
      ensures token == if reply != NotIncluded && RefundOutcome(g, cfg, r).Done? then RefundOutcome(g, cfg, r).state
                       else g.token
      ensures success == (reply == Reported && RefundOutcome(g, cfg, r).Done?)
    {
      hide Token.Transfer;
      if r.amount > Token.MAX_WORD {
        return false;
      }
      var outcome := Token.Transfer(token, cfg.payTo, r.payer, r.amount);
      if reply != NotIncluded && outcome.Done? {
        token := outcome.state;
      }
      return reply == Reported && outcome.Done?;
    }
  }

  /** What a request is answered. */
  datatype Answer = Paid(record: Record) | Refused(decision: Decision) | NotBound | SettlementFailed
    | Waiting(record: Record) | DeliveryFailed

  lemma {:induction false} SubmitFields(g: State, cfg: Config, n: Nonce, env: Env)
    requires n in g.active && g.active[n].Settling? && env.tx !in g.txs
    ensures var g' := SubmitStep(g, cfg, n, env.tx, env.included, env.reported, env.block);
            var p := g.active[n].p;
            var lands := env.included && OnChain(g, cfg, p).Done?;
            && g'.token == (if lands then OnChain(g, cfg, p).state else g.token)
            && g'.head == (if env.block > g.head then env.block else g.head) && g'.now == g.now
            && g'.settlements == g.settlements && g'.journal == g.journal && g'.inflight == g.inflight
            && g'.accounts == (if lands && env.reported then g.accounts else Notified(g, p, false))
            && g'.revoked == g.revoked
            && g'.served == g.served && g'.txs == g.txs + {env.tx} && g'.fates == g.fates
            && g'.active == (if lands && env.reported
                             then g.active[n := Mined(p, g.active[n].deferred, g.active[n].held, env.tx, env.block)]
                             else g.active - {n})
  {
    hide OnChain, Notified;
  }

  /** A transaction lands above the head it was submitted at. */
  ghost predicate LandsAbove(g: State, env: Env) { env.included ==> g.head < env.block }

  lemma {:induction false} NextIsSubmit(g: State, cfg: Config, n: Nonce, env: Env)
    requires n in g.active && g.active[n].Settling? && env.tx !in g.txs && LandsAbove(g, env)
    ensures var step := Step.Submit(n, env.tx, env.included, env.reported, env.block);
            && Enabled(g, step)
            && Next(g, cfg, step) == SubmitStep(g, cfg, n, env.tx, env.included, env.reported, env.block)
  {
    hide SubmitStep, OnChain, Notified;
  }

  lemma {:induction false} UnwrittenAddsNothing(journal: seq<Entry>, e: Entry)
    ensures AppendEntry(journal, e, false) == journal
  {}

  lemma {:induction false} NextIsJournal(g: State, cfg: Config, n: Nonce, written: bool)
    requires n in g.active && g.active[n].Mined?
    ensures Enabled(g, Step.Journal(n, written)) && Next(g, cfg, Step.Journal(n, written)) == JournalStep(g, n, written)
    ensures var g' := JournalStep(g, n, written);
            var ph := g.active[n];
            var r := RecordFor(g, ph.p, ph.tx);
            && g'.token == g.token && g'.head == g.head && g'.now == g.now
            && g'.settlements == g.settlements && g'.inflight == g.inflight && g'.revoked == g.revoked
            && g'.journal == AppendEntry(g.journal, SettlementEntry(r), written)
            && g'.accounts == (if written then g.accounts else Notified(g, ph.p, false))
            && g'.served == g.served && g'.txs == g.txs && g'.fates == g.fates
            && g'.active == (if written then g.active[n := Journaled(ph.p, ph.deferred, ph.held, r, ph.block)]
                             else g.active - {n})
  {
    hide Notified, HasId;
  }

  lemma {:induction false} NextIsCommit(g: State, cfg: Config, n: Nonce)
    requires n in g.active && g.active[n].Journaled?
    ensures Enabled(g, CommitIt(n)) && Next(g, cfg, CommitIt(n)) == CommitStep(g, n)
    ensures var ph := g.active[n];
            CommitStep(g, n) ==
              g.(accounts := Notified(g, ph.p, true),
                 active := g.active[n := Committed(ph.p, ph.deferred, ph.record, ph.block, g.now)])
  {
    hide Notified;
  }

  lemma {:induction false} NextIsList(g: State, cfg: Config, n: Nonce)
    requires n in g.active && g.active[n].Committed?
    ensures Enabled(g, ListIt(n)) && Next(g, cfg, ListIt(n)) == ListStep(g, n)
    ensures var ph := g.active[n];
            ListStep(g, n) ==
              g.(settlements := g.settlements + [ph.record],
                 active := g.active[n := Listed(ph.p, ph.deferred, ph.record, ph.block, ph.at)])
  {}

  function BlockShown(block: nat, receiptKnown: bool): nat { if receiptKnown then block else 0 }

  lemma {:induction false} NextIsStamp(g: State, cfg: Config, n: Nonce, written: bool, receiptKnown: bool)
    requires n in g.active && g.active[n].Listed?
    ensures var step := StampIt(n, written, receiptKnown);
            Enabled(g, step) && Next(g, cfg, step) == StampStep(g, n, written, receiptKnown)
    ensures var ph := g.active[n];
            StampStep(g, n, written, receiptKnown) ==
              g.(journal := AppendEntry(g.journal, DecisionEntry(ph.p, g.now, true), written),
                 active := if ph.deferred then g.active - {n} else g.active[n := Delivering(ph.p, ph.record)],
                 inflight := if ph.deferred
                             then g.inflight[n := Deferred(ph.p, ph.record, BlockShown(ph.block, receiptKnown))]
                             else g.inflight)
  {
    hide AppendEntry, DecisionEntry;
  }

  lemma {:induction false} NextIsDeliver(g: State, cfg: Config, n: Nonce, env: Env)
    requires n in g.active && g.active[n].Delivering? && env.refundTx !in g.txs
    ensures var step := Step.Deliver(n, env.delivered, env.refundTx, env.refund, env.refundLogged);
            && Enabled(g, step)
            && Next(g, cfg, step) == DeliverStep(
                 g, cfg, n, env.delivered, env.refundTx, env.refund, env.refundLogged)
  {
    hide DeliverStep, RefundOutcome, AppendEntry;
  }

  lemma {:induction false} ResumeFields(g: State, cfg: Config, p: Payment, middle: seq<Decision>)
    requires Enabled(g, Resume(p, middle))
    ensures var g' := ResumeStep(g, cfg, p, middle);
            var n := p.auth.nonce;
            var df := g.inflight[n];
            var stage := StageOf(g, cfg, df.block);
            var goes := stage.Some?
              && ChainDecide(g, cfg, Retried(p, df.record.payer), true, middle, stage.value).0.action == Approve;
            && g'.token == g.token && g'.head == g.head && g'.now == g.now && g'.settlements == g.settlements
            && g'.accounts == g.accounts && g'.revoked == g.revoked && g'.journal == g.journal
            && g'.served == g.served && g'.txs == g.txs
            && g'.inflight == (if goes then g.inflight - {n} else g.inflight)
            && g'.active == (if goes then g.active[n := Delivering(df.p, df.record)] else g.active)
  {
    hide ChainDecide;
  }

  lemma {:induction false} NextIsResume(g: State, cfg: Config, p: Payment, middle: seq<Decision>)
    requires Enabled(g, Resume(p, middle))
    ensures Next(g, cfg, Resume(p, middle)) == ResumeStep(g, cfg, p, middle)
  {
    hide ResumeStep, ChainDecide;
  }

  /** Once a payment has settled, no decision about it touches the accounts. */
  lemma {:induction false} LaterDecisionsReserveNothing(g: State, cfg: Config, p: Payment, valid: bool,
      middle: seq<Decision>, stage: Stage)
    requires stage != PreSettlement
    ensures ChainDecide(g, cfg, p, valid, middle, stage).1 == g.accounts
  {
    hide VerdictOf, FirstVeto, Entitlement, OverCap;
  }

  lemma {:induction false} NextIsArrive(g: State, cfg: Config, p: Payment)
    requires Enabled(g, Arrive(p))
    ensures Next(g, cfg, Arrive(p)) == ArriveStep(g, cfg, p)
    ensures ArriveStep(g, cfg, p) ==
              var seen := Verified(p, VerifyPayment(cfg, g.token, p, UnixSeconds(g.now)));
              if p.bound then g.(active := g.active[p.auth.nonce := seen]) else g
  {
    hide VerifyPayment;
  }

  lemma {:induction false} NextIsDecide(g: State, cfg: Config, n: Nonce, env: Env)
    requires n in g.active && g.active[n].Verified?
    ensures var step := DecideOn(n, env.middle, env.decisionLogged);
            Enabled(g, step) && Next(g, cfg, step) == DecideStep(g, cfg, n, env.middle, env.decisionLogged)
  {
    hide DecideStep, ChainDecide, HeldBy, AppendEntry, DecisionEntry;
  }

  /** Commit, list and write the settled line, with no other request in between. */
  ghost function RecordRun(g: State, n: Nonce, env: Env): State
    requires n in g.active && g.active[n].Journaled?
  {
    StampStep(ListStep(CommitStep(g, n), n), n, env.settledLogged, env.receiptKnown)
  }

  lemma {:induction false} RecordRunEnds(g: State, cfg: Config, n: Nonce, env: Env)
    requires n in g.active && g.active[n].Journaled?
    ensures var ph := g.active[n];
            RecordRun(g, n, env) ==
              g.(accounts := Notified(g, ph.p, true),
                 settlements := g.settlements + [ph.record],
                 journal := AppendEntry(g.journal, DecisionEntry(ph.p, g.now, true), env.settledLogged),
                 active := if ph.deferred then g.active - {n} else g.active[n := Delivering(ph.p, ph.record)],
                 inflight := if ph.deferred
                             then g.inflight[n := Deferred(ph.p, ph.record, BlockShown(ph.block, env.receiptKnown))]
                             else g.inflight)
  {
    hide CommitStep, ListStep, StampStep, Notified, AppendEntry, DecisionEntry, Next, Enabled;
    var ph := g.active[n];
    var committed := Committed(ph.p, ph.deferred, ph.record, ph.block, g.now);
    var listed := Listed(ph.p, ph.deferred, ph.record, ph.block, g.now);
    NextIsCommit(g, cfg, n);
    var g1 := CommitStep(g, n);
    NextIsList(g1, cfg, n);
    var g2 := ListStep(g1, n);
    NextIsStamp(g2, cfg, n, env.settledLogged, env.receiptKnown);
    OnlyOne(g.active, n, committed, listed, Delivering(ph.p, ph.record));
  }

  /** One whole settle of the machine, from submission to the record or to the failure. */
  ghost function SettleRun(g: State, cfg: Config, n: Nonce, env: Env): State
    requires n in g.active && g.active[n].Settling? && env.tx !in g.txs
  {
    var g1 := SubmitStep(g, cfg, n, env.tx, env.included, env.reported, env.block);
    if !(n in g1.active && g1.active[n].Mined?) then g1
    else
      var g2 := JournalStep(g1, n, env.persisted);
      if !(n in g2.active && g2.active[n].Journaled?) then g2
      else RecordRun(g2, n, env)
  }

  /** A settle either fails and the request is over, or it records one settlement, and the payment
      is handed on to delivery or kept in flight. */
  lemma {:induction false} SettleRunEnds(g: State, cfg: Config, n: Nonce, env: Env)
    requires n in g.active && g.active[n].Settling? && env.tx !in g.txs
    ensures var g' := SettleRun(g, cfg, n, env);
            var p := g.active[n].p;
            && g'.served == g.served && g'.txs == g.txs + {env.tx} && g'.fates == g.fates
            && if env.included && OnChain(g, cfg, p).Done? && env.reported && env.persisted then
                 var r := Record(p.auth.from, p.auth.value, env.tx, g.now);
                 && g'.settlements == g.settlements + [r]
                 && (if g.active[n].deferred
                     then g'.active == g.active - {n}
                       && g'.inflight == g.inflight[n := Deferred(p, r, BlockShown(env.block, env.receiptKnown))]
                     else g'.active == g.active[n := Delivering(p, r)] && g'.inflight == g.inflight)
               else
                 g'.active == g.active - {n} && g'.inflight == g.inflight && g'.settlements == g.settlements
  {
    hide Notified, AppendEntry, OnChain, SubmitStep, JournalStep, RecordRun, Next, Enabled;
    var ph := g.active[n];
    SubmitFields(g, cfg, n, env);
    var g1 := SubmitStep(g, cfg, n, env.tx, env.included, env.reported, env.block);
    if n in g1.active && g1.active[n].Mined? {
      NextIsJournal(g1, cfg, n, env.persisted);
      var g2 := JournalStep(g1, n, env.persisted);
      var r := RecordFor(g1, ph.p, env.tx);
      OnlyOne(g.active, n, Mined(ph.p, ph.deferred, ph.held, env.tx, env.block),
              Journaled(ph.p, ph.deferred, ph.held, r, env.block), Delivering(ph.p, r));
      if n in g2.active && g2.active[n].Journaled? {
        RecordRunEnds(g2, cfg, n, env);
      }
    }
  }

  /** Within one settle only the entry of the request itself changes. */
  lemma {:induction false} OnlyOne(active: map<Nonce, Phase>, n: Nonce, a: Phase, b: Phase, c: Phase)
    ensures active[n := a] - {n} == active - {n} && active[n := a][n := b] - {n} == active - {n}
    ensures active[n := a][n := b][n := c] == active[n := c]
  {}

  /** The chain of policies: verification, the middle ones, the mandate policy. */
  method AskPolicies(policy: MandatePolicy, ghost g: State, cfg: Config, p: Payment, valid: bool, middle: seq<Decision>,
      stage: Stage, now: int)
    returns (d: Decision)
    requires policy.Valid() && policy.settings == cfg.settings
    requires g.accounts == policy.View() && g.revoked == policy.revoked && g.now == now
    modifies policy.Repr
    ensures policy.Valid() && fresh(policy.Repr - old(policy.Repr)) && policy.revoked == old(policy.revoked)
    ensures (d, policy.View()) == ChainDecide(g, cfg, p, valid, middle, stage)
  {
    hide Policy.Decide;
    var all := [AlwaysVerify(valid)] + middle;
    var i := 0;
    while i < |all|
      invariant 0 <= i <= |all|
      invariant FirstVeto(all) == FirstVeto(all[i..])
    {
      if all[i].action != Approve {
        return all[i];
      }
      assert all[i..][1..] == all[i + 1..];
      i := i + 1;
    }
    d := policy.Evaluate(RequestOf(cfg, p), now, stage);
  }

  /** Appending is idempotent on the id. */
  method AppendLine(journal: seq<Entry>, e: Entry, written: bool) returns (after: seq<Entry>)
    ensures after == AppendEntry(journal, e, written)
  {
    if !written {
      return journal;
    }
    var i := 0;
    while i < |journal|
      invariant 0 <= i <= |journal|
      invariant forall j :: 0 <= j < i ==> journal[j].id != e.id
    {
      if journal[i].id == e.id {
        return journal;
      }
      i := i + 1;
    }
    return journal + [e];
  }

  class PaymentGateway {
    const cfg: Config
    const facilitator: LocalFacilitator
    const policy: MandatePolicy
    var settlements: seq<Record>
    var journal: seq<Entry>
    var inflight: map<Nonce, Deferred>

    /** The machine's history so far, and the state it has led to. */
    ghost var origin: State
    ghost var trace: seq<Step>
    ghost var world: State

    /** The real fields are those of the machine's state. */
    ghost predicate Tied()
      requires policy.Valid()
      reads this, facilitator, policy, policy.Repr
    {
      && world.token == facilitator.token && world.head == facilitator.head && world.now == facilitator.now
      && world.settlements == settlements && world.journal == journal && world.inflight == inflight
      && world.accounts == policy.View() && world.revoked == policy.revoked
    }

    ghost predicate Valid()
      reads this, facilitator, policy, policy.Repr
    {
      && facilitator.cfg == cfg && policy.settings == cfg.settings
      && policy.Valid() && this !in policy.Repr && facilitator !in policy.Repr
      && ValidRun(origin, cfg, trace)
      && world == After(origin, cfg, trace)
      && Tied()
    }

    constructor (cfg: Config, token: Token.TokenState, head: nat, now: int)
      ensures Valid() && this.cfg == cfg && trace == [] && origin == Started(token, head, now)
    {
      this.cfg := cfg;
      facilitator := new LocalFacilitator(cfg, token, head, now);
      policy := new MandatePolicy(cfg.settings);
      settlements, journal, inflight := [], [], map[];
      origin := Started(token, head, now);
      trace, world := [], Started(token, head, now);
    }

    /** The machine takes a step. */
    ghost method Advance(step: Step)
      requires ValidRun(origin, cfg, trace) && world == After(origin, cfg, trace) && Enabled(world, step)
      modifies this`trace, this`world
      ensures trace == old(trace) + [step] && ValidRun(origin, cfg, trace)
      ensures world == Next(old(world), cfg, step) == After(origin, cfg, trace)
    {
      hide Next;
      InitOfSnoc(trace, step);
      trace := trace + [step];
      world := Next(world, cfg, step);
    }

    /** Appending is idempotent on the id. */
    method Append(e: Entry, written: bool)
      modifies this`journal
      ensures journal == AppendEntry(old(journal), e, written)
    {
      journal := AppendLine(journal, e, written);
    }

    /** The chain of policies: verification, the middle ones, the mandate policy. */
    method Decide(ghost g: State, p: Payment, valid: bool, middle: seq<Decision>, stage: Stage) returns (d: Decision)
      requires policy.Valid() && policy.settings == cfg.settings
      requires g.accounts == policy.View() && g.revoked == policy.revoked && g.now == facilitator.now
      modifies policy.Repr
      ensures policy.Valid() && fresh(policy.Repr - old(policy.Repr)) && policy.revoked == old(policy.revoked)
      ensures (d, policy.View()) == ChainDecide(g, cfg, p, valid, middle, stage)
    {
      hide ChainDecide;
      d := AskPolicies(policy, g, cfg, p, valid, middle, stage, facilitator.now);
    }

    method Notify(ghost g: State, p: Payment, ok: bool)
      requires policy.Valid() && g.accounts == policy.View() && g.now == facilitator.now
      modifies policy.Repr
      ensures policy.Valid() && policy.Repr == old(policy.Repr) && policy.revoked == old(policy.revoked)
      ensures policy.View() == Notified(g, p, ok)
    {
      hide Commit, MandateAccounts.Release;
      match p.mandate {
        case None =>
        case Some(m) => policy.Settled(m, p.auth.nonce, facilitator.now, ok);
      }
    }

    /** A settlement that fails, whether or not its transaction landed, releases its reservation. */
    method Submit(p: Payment, env: Env) returns (success: bool)
      requires Valid() && p.auth.nonce in world.active && env.tx !in world.txs && LandsAbove(world, env)
      requires var ph := world.active[p.auth.nonce]; ph.Settling? && ph.p == p
      modifies this`trace, this`world, facilitator, policy.Repr
      ensures Valid() && old(trace) <= trace && fresh(policy.Repr - old(policy.Repr))
      ensures world == SubmitStep(old(world), cfg, p.auth.nonce, env.tx, env.included, env.reported, env.block)
      ensures success <==> env.included && OnChain(old(world), cfg, p).Done? && env.reported
    {
      hide ValidRun, After, Next, Enabled, Notified, OnChain, SubmitStep, MandatePolicy.View, MandatePolicy.Valid;
      var n := p.auth.nonce;
      NextIsSubmit(world, cfg, n, env);
      SubmitFields(world, cfg, n, env);
      success := facilitator.Settle(world, p, env.included, env.reported, env.block);
      if !success {
        Notify(world, p, false);
      }
      Advance(Step.Submit(n, env.tx, env.included, env.reported, env.block));
    }

    /** Durable before anyone is told. */
    method Persist(p: Payment, tx: TxHash, written: bool) returns (r: Record)
      requires Valid() && p.auth.nonce in world.active
      requires var ph := world.active[p.auth.nonce]; ph.Mined? && ph.p == p && ph.tx == tx
      modifies this`journal, this`trace, this`world, policy.Repr
      ensures Valid() && old(trace) <= trace && fresh(policy.Repr - old(policy.Repr))
      ensures world == JournalStep(old(world), p.auth.nonce, written) && r == RecordFor(old(world), p, tx)
    {
      hide ValidRun, After, Next, Enabled, Notified, AppendEntry, JournalStep, MandatePolicy.View, MandatePolicy.Valid;
      NextIsJournal(world, cfg, p.auth.nonce, written);
      r := Record(p.auth.from, p.auth.value, tx, facilitator.now);
      Append(SettlementEntry(r), written);
      if !written {
        UnwrittenAddsNothing(old(journal), SettlementEntry(r));
        Notify(world, p, false);
      }
      Advance(Step.Journal(p.auth.nonce, written));
    }

    /** The policy counts the payment. */
    method CommitPayment(p: Payment)
      requires Valid() && p.auth.nonce in world.active
      requires var ph := world.active[p.auth.nonce]; ph.Journaled? && ph.p == p
      modifies this`trace, this`world, policy.Repr
      ensures Valid() && old(trace) <= trace && fresh(policy.Repr - old(policy.Repr))
      ensures world == CommitStep(old(world), p.auth.nonce)
    {
      hide ValidRun, After, Next, Enabled, Notified, CommitStep, MandatePolicy.View, MandatePolicy.Valid;
      NextIsCommit(world, cfg, p.auth.nonce);
      Notify(world, p, true);
      Advance(CommitIt(p.auth.nonce));
    }

    method ListSettlement(p: Payment, r: Record)
      requires Valid() && p.auth.nonce in world.active
      requires var ph := world.active[p.auth.nonce]; ph.Committed? && ph.record == r
      modifies this`settlements, this`trace, this`world
      ensures Valid() && old(trace) <= trace
      ensures world == ListStep(old(world), p.auth.nonce)
    {
      hide ValidRun, After, Next, Enabled, ListStep, MandatePolicy.View, MandatePolicy.Valid;
      NextIsList(world, cfg, p.auth.nonce);
      settlements := settlements + [r];
      Advance(ListIt(p.auth.nonce));
    }

    /** The settled line. A deferred settlement goes to the in-flight map, with the block of its
        receipt or, when there is no receipt, with block 0. */
    method StampSettlement(p: Payment, r: Record, deferred: bool, block: nat, logged: bool, receiptKnown: bool)
      requires Valid() && p.auth.nonce in world.active
      requires var ph := world.active[p.auth.nonce];
               ph.Listed? && ph.p == p && ph.record == r && ph.deferred == deferred && ph.block == block
      modifies this`journal, this`inflight, this`trace, this`world
      ensures Valid() && old(trace) <= trace
      ensures world == StampStep(old(world), p.auth.nonce, logged, receiptKnown)
    {
      hide ValidRun, After, Next, Enabled, AppendEntry, StampStep, MandatePolicy.View, MandatePolicy.Valid;
      NextIsStamp(world, cfg, p.auth.nonce, logged, receiptKnown);
      Append(DecisionEntry(p, facilitator.now, true), logged);
      if deferred {
        inflight := inflight[p.auth.nonce := Deferred(p, r, if receiptKnown then block else 0)];
      }
      Advance(StampIt(p.auth.nonce, logged, receiptKnown));
    }

    /** What follows the settlement line, each in its own critical section. */
    method RecordSettlement(p: Payment, r: Record, deferred: bool, env: Env)
      requires Valid() && p.auth.nonce in world.active
      requires var ph := world.active[p.auth.nonce];
               ph.Journaled? && ph.p == p && ph.record == r && ph.deferred == deferred && ph.block == env.block
      modifies this`settlements, this`journal, this`inflight, this`trace, this`world, policy.Repr
      ensures Valid() && old(trace) <= trace && fresh(policy.Repr - old(policy.Repr))
      ensures world == RecordRun(old(world), p.auth.nonce, env)
    {
      hide Notified, AppendEntry, CommitStep, ListStep, StampStep, Next, Enabled, Valid;
      NextIsCommit(world, cfg, p.auth.nonce);
      CommitPayment(p);
      NextIsList(world, cfg, p.auth.nonce);
      ListSettlement(p, r);
      StampSettlement(p, r, deferred, env.block, env.settledLogged, env.receiptKnown);
    }

    /** Submit, journal, commit, list, stamp: every exit notifies the mandate policy once. */
    method Settle(p: Payment, deferred: bool, env: Env) returns (record: Option<Record>)
      requires Valid() && p.auth.nonce in world.active && env.tx !in world.txs && LandsAbove(world, env)
      requires var ph := world.active[p.auth.nonce]; ph.Settling? && ph.p == p && ph.deferred == deferred
      modifies this`settlements, this`journal, this`inflight, this`trace, this`world
      modifies facilitator, policy.Repr
      ensures Valid() && old(trace) <= trace && fresh(policy.Repr - old(policy.Repr))
      ensures world == SettleRun(old(world), cfg, p.auth.nonce, env)
      ensures record.Some? <==> env.included && OnChain(old(world), cfg, p).Done? && env.reported && env.persisted
      ensures record.Some? ==> record.value == RecordFor(old(world), p, env.tx)
    {
      hide Notified, AppendEntry, OnChain, SubmitStep, JournalStep, RecordRun, Next, Enabled, Valid;
      var n := p.auth.nonce;
      NextIsSubmit(world, cfg, n, env);
      SubmitFields(world, cfg, n, env);
      var success := Submit(p, env);
      if !success {
        return None;
      }
      NextIsJournal(world, cfg, n, env.persisted);
      var r := Persist(p, env.tx, env.persisted);
      if !env.persisted {
        return None;
      }
      RecordSettlement(p, r, deferred, env);
      return Some(r);
    }

    /** Hand over, or refund, or leave a refund pending. */
    method Deliver(p: Payment, r: Record, env: Env) returns (served: bool)
      requires Valid() && p.auth.nonce in world.active && env.refundTx !in world.txs
      requires var ph := world.active[p.auth.nonce]; ph.Delivering? && ph.record == r
      modifies this`journal, this`trace, this`world, facilitator`token
      ensures Valid() && old(trace) <= trace
      ensures world == DeliverStep(old(world), cfg, p.auth.nonce, env.delivered, env.refundTx, env.refund,
                                   env.refundLogged)
      ensures served == (!cfg.hasDeliverer || env.delivered)
    {
      hide ValidRun, After, Next, Enabled, AppendEntry, RefundOutcome, DeliverStep, MandatePolicy.View,
           MandatePolicy.Valid;
      var n := p.auth.nonce;
      NextIsDeliver(world, cfg, n, env);
      DeliverAsUpdate(world, cfg, n, env.delivered, env.refundTx, env.refund, env.refundLogged);
      served := !cfg.hasDeliverer || env.delivered;
      if !served {
        var refunded := false;
        if cfg.hasRefunder {
          refunded := facilitator.Refund(world, r, env.refund);
        }
        var e := if refunded then Entry(OfTx(env.refundTx), RefundBody(r.payer, r.amount))
                 else Entry(OfPending(r.tx), RefundPendingBody(r.payer, r.amount));
        Append(e, env.refundLogged);
      }
      Advance(Step.Deliver(n, env.delivered, env.refundTx, env.refund, env.refundLogged));
    }

    method StageNow(ghost g: State, block: nat) returns (stage: Option<Stage>)
      requires g.head == facilitator.head
      ensures stage == StageOf(g, cfg, block)
    {
      if facilitator.head < block {
        return None;
      }
      return Some(if facilitator.head - block >= cfg.confirmDepth then Confirmed else Submitted);
    }

    /** Evaluate a deferred payment again at its current stage. It leaves the in-flight map before
        its delivery starts. */
    method Reconsider(p: Payment, middle: seq<Decision>) returns (refusal: Option<Answer>, record: Record)
      requires Valid() && Enabled(world, Resume(p, middle))
      modifies this`inflight, this`trace, this`world, policy.Repr
      ensures Valid() && old(trace) <= trace && fresh(policy.Repr - old(policy.Repr))
      ensures world == ResumeStep(old(world), cfg, p, middle)
      ensures record == old(world.inflight)[p.auth.nonce].record
      ensures refusal.None? <==> p.auth.nonce in world.active
      ensures refusal.Some? ==> refusal.value.Refused? || refusal.value.SettlementFailed?
    {
      hide ValidRun, After, Next, ChainDecide, ResumeStep, StageOf, MandatePolicy.View, MandatePolicy.Valid;
      var df := inflight[p.auth.nonce];
      record := df.record;
      refusal := None;
      NextIsResume(world, cfg, p, middle);
      ResumeFields(world, cfg, p, middle);
      var stage := StageNow(world, df.block);
      if stage.None? {
        refusal := Some(SettlementFailed);
      } else {
        StageIsLater(world, df.block);
        LaterDecisionsReserveNothing(world, cfg, Retried(p, df.record.payer), true, middle, stage.value);
        var d := Decide(world, Retried(p, df.record.payer), true, middle, stage.value);
        if d.action != Approve {
          refusal := Some(Refused(d));
        } else {
          inflight := inflight - {p.auth.nonce};
        }
      }
      Advance(Resume(p, middle));
    }

    lemma {:induction false} StageIsLater(g: State, block: nat)
      ensures StageOf(g, cfg, block) != Some(PreSettlement)
    {}

    /** Verify and decide, logging the decision. */
    method Accept(p: Payment, env: Env) returns (decision: Decision)
      requires Valid() && Enabled(world, Arrive(p)) && p.bound
      modifies this`journal, this`trace, this`world, policy.Repr
      ensures Valid() && old(trace) <= trace && fresh(policy.Repr - old(policy.Repr))
      ensures world == DecideStep(ArriveStep(old(world), cfg, p), cfg, p.auth.nonce, env.middle, env.decisionLogged)
      ensures p.auth.nonce in world.active <==> decision.action == Approve || decision.action == Defer
      ensures decision.action == Approve || decision.action == Defer ==>
                var ph := world.active[p.auth.nonce];
                ph.Settling? && ph.p == p && ph.deferred == (decision.action == Defer)
    {
      hide ValidRun, After, Next, Enabled, ChainDecide, HeldBy, DecideStep, ArriveStep, VerifyPayment, AppendEntry,
           MandatePolicy.View, MandatePolicy.Valid;
      NextIsArrive(world, cfg, p);
      var valid := facilitator.Verify(p);
      Advance(Arrive(p));
      NextIsDecide(world, cfg, p.auth.nonce, env);
      DecideAsUpdate(world, cfg, p.auth.nonce, env.middle, env.decisionLogged);
      decision := Decide(world, p, valid, env.middle, PreSettlement);
      Append(DecisionEntry(p, facilitator.now, false), env.decisionLogged);
      Advance(DecideOn(p.auth.nonce, env.middle, env.decisionLogged));
    }

    /** A retry of a payment in flight: no new settlement, and delivery at most now. */
    method ResumeDeferred(p: Payment, env: Env) returns (answer: Answer)
      requires Valid() && Enabled(world, Resume(p, env.middle)) && env.refundTx !in world.txs
      modifies this`journal, this`inflight, this`trace, this`world, facilitator`token, policy.Repr
      ensures Valid() && old(trace) <= trace && fresh(policy.Repr - old(policy.Repr))
      ensures world.active == old(world.active) && world.settlements == old(world.settlements)
      ensures world.served == old(world.served) + ServedBy(answer, p.auth.nonce)
      ensures answer.Paid? || answer.DeliveryFailed? <==> p.auth.nonce !in world.inflight
      ensures answer.Paid? ==> answer.record == old(world.inflight)[p.auth.nonce].record
      ensures !answer.Waiting?
    {
      hide Next, ResumeStep, DeliverStep, ChainDecide, RefundOutcome, AppendEntry, Valid, StageOf;
      var n := p.auth.nonce;
      ResumeFields(world, cfg, p, env.middle);
      ghost var before := world;
      var refusal, record := Reconsider(p, env.middle);
      if refusal.Some? {
        return refusal.value;
      }
      DeliverAsUpdate(world, cfg, n, env.delivered, env.refundTx, env.refund, env.refundLogged);
      PutDrop(before.active, n, Delivering(before.inflight[n].p, record));
      var served := Deliver(p, record, env);
      return if served then Paid(record) else DeliveryFailed;
    }

    lemma {:induction false} PutDrop(active: map<Nonce, Phase>, n: Nonce, ph: Phase)
      ensures n !in active ==> active[n := ph] - {n} == active
    {}

    /** One request, from the payment header to the answer. Nothing of it stays active; it is served
        exactly when it is answered as paid, and a settlement that is neither delivered nor
        failed waits in flight. */
    method VerifyAndSettle(p: Payment, env: Env) returns (answer: Answer)
      requires Valid() && p.auth.nonce !in world.active
      requires LandsAbove(world, env)
      requires env.tx !in world.txs && env.refundTx !in world.txs && env.tx != env.refundTx
      modifies this`settlements, this`journal, this`inflight, this`trace, this`world, facilitator, policy.Repr
      ensures Valid() && old(trace) <= trace && fresh(policy.Repr - old(policy.Repr))
      ensures world.active == old(world.active)
      ensures world.served == old(world.served) + ServedBy(answer, p.auth.nonce)
      ensures p.auth.nonce in old(world.inflight) ==> world.settlements == old(world.settlements)
      ensures p.auth.nonce !in old(world.inflight) ==>
                && (answer.Paid? || answer.Waiting? || answer.DeliveryFailed? <==>
                    |world.settlements| == |old(world.settlements)| + 1)
                && (answer.Paid? || answer.Waiting? ==> world.settlements == old(world.settlements) + [answer.record])
                && (answer.Waiting? <==> p.auth.nonce in world.inflight)
    {
      hide Next, ResumeStep, DeliverStep, ChainDecide, RefundOutcome, AppendEntry, StageOf, SettleRun, DecideStep,
           ArriveStep, OnChain, HeldBy, VerifyPayment, Tied, ValidRun, After;
      if InFlight(p.auth.nonce) {
        answer := ResumeDeferred(p, env);
        return;
      }
      if !p.bound {
        return NotBound;
      }
      answer := Pay(p, env);
    }

    function InFlight(n: Nonce): (found: bool)
      requires Valid()
      reads this, facilitator, policy, policy.Repr
      ensures found <==> n in world.inflight
    {
      n in inflight
    }

    /** What follows an approval or a deferral. */
    method SettleAndDeliver(p: Payment, deferred: bool, env: Env) returns (answer: Answer)
      requires Valid() && p.auth.nonce in world.active && p.auth.nonce !in world.inflight && LandsAbove(world, env)
      requires env.tx !in world.txs && env.refundTx !in world.txs && env.tx != env.refundTx
      requires var ph := world.active[p.auth.nonce]; ph.Settling? && ph.p == p && ph.deferred == deferred
      modifies this`settlements, this`journal, this`inflight, this`trace, this`world, facilitator, policy.Repr
      ensures Valid() && old(trace) <= trace && fresh(policy.Repr - old(policy.Repr))
      ensures world.active == old(world.active) - {p.auth.nonce}
      ensures world.served == old(world.served) + ServedBy(answer, p.auth.nonce)
      ensures answer.Paid? || answer.Waiting? || answer.DeliveryFailed? <==>
                |world.settlements| == |old(world.settlements)| + 1
      ensures answer.Paid? || answer.Waiting? ==> world.settlements == old(world.settlements) + [answer.record]
      ensures answer.Waiting? <==> p.auth.nonce in world.inflight
    {
      hide Next, DeliverStep, RefundOutcome, AppendEntry, SettleRun, OnChain, Valid;
      var n := p.auth.nonce;
      SettleRunEnds(world, cfg, n, env);
      ghost var before := world.active;
      var record := Settle(p, deferred, env);
      if record.None? {
        return SettlementFailed;
      }
      if deferred {
        return Waiting(record.value);
      }
      OnlyOne(before, n, Delivering(p, record.value), Delivering(p, record.value), Delivering(p, record.value));
      DeliverAsUpdate(world, cfg, n, env.delivered, env.refundTx, env.refund, env.refundLogged);
      var served := Deliver(p, record.value, env);
      return if served then Paid(record.value) else DeliveryFailed;
    }

    /** A first attempt: accept, settle, then deliver or leave the payment in flight. */
    method Pay(p: Payment, env: Env) returns (answer: Answer)
      requires Valid() && Enabled(world, Arrive(p)) && p.bound && LandsAbove(world, env)
      requires env.tx !in world.txs && env.refundTx !in world.txs && env.tx != env.refundTx
      modifies this`settlements, this`journal, this`inflight, this`trace, this`world, facilitator, policy.Repr
      ensures Valid() && old(trace) <= trace && fresh(policy.Repr - old(policy.Repr))
      ensures world.active == old(world.active)
      ensures world.served == old(world.served) + ServedBy(answer, p.auth.nonce)
      ensures answer.Paid? || answer.Waiting? || answer.DeliveryFailed? <==>
                |world.settlements| == |old(world.settlements)| + 1
      ensures answer.Paid? || answer.Waiting? ==> world.settlements == old(world.settlements) + [answer.record]
      ensures answer.Waiting? <==> p.auth.nonce in world.inflight
    {
      hide Next, ChainDecide, AppendEntry, DecideStep, ArriveStep, HeldBy, VerifyPayment, Valid;
      var n := p.auth.nonce;
      NextIsArrive(world, cfg, p);
      ghost var arrived := ArriveStep(world, cfg, p);
      DecideAsUpdate(arrived, cfg, n, env.middle, env.decisionLogged);
      var d := Accept(p, env);
      PutDrop(old(world).active, n, arrived.active[n]);
      if d.action != Approve && d.action != Defer {
        return Refused(d);
      }
      answer := SettleAndDeliver(p, d.action == Defer, env);
    }

    method RevokeMandate(delegator: Address, id: MandateId, written: bool)
      requires Valid()
      modifies this`journal, this`trace, this`world, policy.Repr
      ensures Valid() && old(trace) <= trace && fresh(policy.Repr - old(policy.Repr))
      ensures world == RevokeStep(old(world), delegator, id, written)
    {
      hide ValidRun, After, AppendEntry, MandatePolicy.View, MandatePolicy.Valid;
      policy.RevokeFor(delegator, id);
      Append(Entry(OfRevocation(id), RevocationBody(delegator, id)), written);
      Advance(RevokeIt(delegator, id, written));
    }

    /** Spends and revocations from the journal, on top of what the policy already has. */
    method RestoreAccounting(entries: seq<Entry>)
      requires policy.Valid()
      modifies policy.Repr
      ensures policy.Valid() && fresh(policy.Repr - old(policy.Repr))
      ensures policy.View() == RestoredAccounts(old(policy.View()), entries)
      ensures policy.revoked == old(policy.revoked) + RestoredRevoked(entries)
    {
      hide Restore, MandatePolicy.View, MandatePolicy.Valid;
      var i := 0;
      while i < |entries|
        invariant 0 <= i <= |entries|
        invariant policy.Valid() && fresh(policy.Repr - old(policy.Repr))
        invariant policy.View() == RestoredAccounts(old(policy.View()), entries[..i])
        invariant policy.revoked == old(policy.revoked) + RestoredRevoked(entries[..i])
      {
        InitOfTake(entries, i + 1);
        match entries[i].body {
          case DecisionBody(Some(id), amount, at, true) => policy.RestoreSpend(id, at * SECOND, amount);
          case RevocationBody(delegator, id) => policy.RevokeFor(delegator, id);
          case _ =>
        }
        i := i + 1;
      }
      assert entries[..i] == entries;
    }

    /** A new process takes over the journal of the last one. */
    method AttachJournal(entries: seq<Entry>)
      requires Valid()
      modifies this`journal, this`settlements, this`origin, this`trace, this`world, policy.Repr
      ensures Valid() && trace == [] && fresh(policy.Repr - old(policy.Repr))
      ensures world == old(world).(
                journal := entries,
                settlements := RestoredSettlements(entries),
                accounts := RestoredAccounts(old(world).accounts, entries),
                revoked := old(world).revoked + RestoredRevoked(entries))
    {
      hide RestoredSettlements, RestoredAccounts, RestoredRevoked, SettlementsIn, MandatePolicy.View,
           MandatePolicy.Valid;
      journal, settlements := entries, [];
      ListEntries(entries);
      RestoreAccounting(entries);
      world := old(world).(journal := entries, settlements := settlements, accounts := policy.View(),
                           revoked := policy.revoked);
      origin, trace := world, [];
    }

    method ListEntries(entries: seq<Entry>)
      requires settlements == []
      modifies this`settlements
      ensures settlements == RestoredSettlements(entries)
    {
      var i := 0;
      while i < |entries|
        invariant 0 <= i <= |entries|
        invariant settlements == RestoredSettlements(entries[..i])
      {
        InitOfTake(entries, i + 1);
        match entries[i] {
          case Entry(OfTx(tx), SettlementBody(payer, amount, at)) =>
            settlements := settlements + [Record(payer, amount, tx, at * SECOND)];
          case _ =>
        }
        i := i + 1;
      }
      assert entries[..i] == entries;
    }
  }
}
