/** The payment lifecycle of the gateway (x402/gateway.go) as a state machine. A request passes
    through verify, decide, submit, journal, commit, list, stamp and deliver; requests with different nonces
    interleave at these points in any order, together with token calls by anyone else. */
module Gateway {
  import opened Common
  import opened MandateAccounts
  import opened Policy
  import Token = Stablecoin

  datatype Config = Config(
    payTo: Address,
    price: nat,
    confirmDepth: nat,
    settings: Settings,
    hasDeliverer: bool,
    hasRefunder: bool,
    relayer: Address)

  /** An amount whose delivery waits for confirmations. */
  predicate Large(cfg: Config, amount: nat) { cfg.settings.deferAbove > 0 && amount >= cfg.settings.deferAbove }

  /** A decoded payment. The flags stand for checks of its form: `wellFormed` for version, scheme,
      network and encodings, `bound` for the binding of its nonce to the resource. */
  datatype Payment = Payment(
    auth: Token.Authorization,
    recovered: Address,
    wellFormed: bool,
    bound: bool,
    mandate: Option<Mandate>,
    genuine: bool,
    confirmed: bool,
    resource: string)

  type AuthKey = (Address, Nonce)

  function KeyOf(p: Payment): AuthKey { (p.auth.from, p.auth.nonce) }

  function RequestOf(cfg: Config, p: Payment): Request {
    Request(p.mandate, p.genuine, Some(p.auth.from), cfg.payTo, p.resource, p.auth.value, p.auth.nonce, p.confirmed)
  }

  /** The facilitator's checks, all off chain. */
  predicate VerifyPayment(cfg: Config, st: Token.TokenState, p: Payment, seconds: int) {
    && p.wellFormed
    && p.auth.to == cfg.payTo
    && p.auth.value >= cfg.price
    && p.auth.validBefore > seconds + 5
    && p.auth.validAfter < seconds
    && p.recovered == p.auth.from
    && KeyOf(p) !in st.used
    && st.BalanceOf(p.auth.from) >= p.auth.value
    && p.auth.from !in st.controls.frozen
  }

  // ---- The journal as the gateway sees it ----

  datatype EntryId = OfTx(tx: TxHash) | OfDecision(nonce: Nonce, settled: bool) | OfRevocation(id: MandateId)
    | OfPending(tx: TxHash)

  datatype Body =
    | SettlementBody(payer: Address, amount: nat, at: int)
    | DecisionBody(mandateId: Option<MandateId>, amount: nat, at: int, settled: bool)
    | RevocationBody(delegator: Address, revokedId: MandateId)
    | RefundBody(payer: Address, amount: nat)
    | RefundPendingBody(payer: Address, amount: nat)

  datatype Entry = Entry(id: EntryId, body: Body)

  predicate HasId(journal: seq<Entry>, id: EntryId) {
    exists i :: 0 <= i < |journal| && journal[i].id == id
  }

  /** Appending is idempotent on the id; a failed write adds nothing. */
  function AppendEntry(journal: seq<Entry>, e: Entry, written: bool): seq<Entry> {
    if written && !HasId(journal, e.id) then journal + [e] else journal
  }

  // ---- State ----

  datatype Record = Record(payer: Address, amount: nat, tx: TxHash, time: int)

  /** Where a request stands. `held` says that the mandate policy was reached and holds it. The last
      steps of settle are critical sections of their own: the settlement line, the notification,
      the list, the settled line. `at` is the reading of the clock the commit was counted at. */
  datatype Phase =
    | Verified(p: Payment, valid: bool)
    | Settling(p: Payment, deferred: bool, held: bool)
    | Mined(p: Payment, deferred: bool, held: bool, tx: TxHash, block: nat)
    | Journaled(p: Payment, deferred: bool, held: bool, record: Record, block: nat)
    | Committed(p: Payment, deferred: bool, record: Record, block: nat, at: int)
    | Listed(p: Payment, deferred: bool, record: Record, block: nat, at: int)
    | Delivering(p: Payment, record: Record)

  /** A settled payment whose resource is withheld, with the block its receipt showed, or 0. */
  datatype Deferred = Deferred(p: Payment, record: Record, block: nat)

  datatype Served = Served(record: Record, nonce: Nonce)

  datatype Fate = Delivered | Refunded(refundTx: TxHash) | RefundPending

  /** What becomes of a refund transaction. A lost reply does not mean that it did not happen. */
  datatype Reply = NotIncluded | ReplyLost | Reported

  datatype State = State(
    token: Token.TokenState,
    head: nat,
    now: int,
    txs: set<TxHash>,
    landed: map<TxHash, AuthKey>,
    active: map<Nonce, Phase>,
    inflight: map<Nonce, Deferred>,
    accounts: Accounts,
    revoked: Revocations,
    settlements: seq<Record>,
    journal: seq<Entry>,
    served: seq<Served>,
    fates: map<TxHash, Fate>)

  function Started(token: Token.TokenState, head: nat, now: int): State {
    State(token, head, now, {}, map[], map[], map[], map[], {}, [], [], [], map[])
  }

  datatype Step =
    | Arrive(p: Payment)
    | DecideOn(nonce: Nonce, middle: seq<Decision>, written: bool)
    | Submit(nonce: Nonce, tx: TxHash, included: bool, reported: bool, block: nat)
    | Journal(nonce: Nonce, written: bool)
    | CommitIt(nonce: Nonce)
    | ListIt(nonce: Nonce)
    | StampIt(nonce: Nonce, written: bool, receiptKnown: bool)
    | Deliver(nonce: Nonce, delivered: bool, refundTx: TxHash, refund: Reply, written: bool)
    | Resume(p: Payment, middle: seq<Decision>)
    | RevokeIt(delegator: Address, id: MandateId, written: bool)
    | Outside(call: Token.Transaction)
    | Tick(head: nat, now: int)

  /** What may happen next. Requests in flight carry distinct nonces, a retry of a deferred payment is
      handled alone, transaction hashes are fresh, a transaction lands above the head it was
      submitted at, and the clock does not go back. */
  predicate Enabled(g: State, step: Step) {
    match step
    case Arrive(p) => p.auth.nonce !in g.active && p.auth.nonce !in g.inflight
    case DecideOn(n, _, _) => n in g.active && g.active[n].Verified?
    case Submit(n, tx, included, _, block) =>
      n in g.active && g.active[n].Settling? && tx !in g.txs && (included ==> g.head < block)
    case Journal(n, _) => n in g.active && g.active[n].Mined?
    case CommitIt(n) => n in g.active && g.active[n].Journaled?
    case ListIt(n) => n in g.active && g.active[n].Committed?
    case StampIt(n, _, _) => n in g.active && g.active[n].Listed?
    case Deliver(n, _, refundTx, _, _) => n in g.active && g.active[n].Delivering? && refundTx !in g.txs
    case Resume(p, _) => p.auth.nonce in g.inflight && p.auth.nonce !in g.active
    case RevokeIt(_, _, _) => true
    case Outside(_) => true
    case Tick(_, now) => g.now <= now
  }

  // ---- Steps ----

  function Finish(g: State, n: Nonce): State { g.(active := g.active - {n}) }

  function Goto(g: State, n: Nonce, phase: Phase): State { g.(active := g.active[n := phase]) }

  /** The accounts after the mandate policy is told that a settlement failed or succeeded. */
  function Notified(g: State, p: Payment, ok: bool): Accounts {
    match p.mandate
    case None => g.accounts
    case Some(m) =>
      if ok then Commit(g.accounts, m, p.auth.nonce, g.now)
      else MandateAccounts.Release(g.accounts, m, p.auth.nonce)
  }

  function DecisionEntry(p: Payment, now: int, settled: bool): Entry {
    Entry(
      OfDecision(p.auth.nonce, settled),
      DecisionBody(
        if p.mandate.Some? then Some(p.mandate.value.id) else None,
        p.auth.value, UnixSeconds(now), settled))
  }

  function ArriveStep(g: State, cfg: Config, p: Payment): State {
    if !p.bound then g
    else Goto(g, p.auth.nonce, Verified(p, VerifyPayment(cfg, g.token, p, UnixSeconds(g.now))))
  }

  /** The chain: verification first, any policies in the middle, the mandate policy last. */
  ghost function ChainDecide(g: State, cfg: Config, p: Payment, valid: bool, middle: seq<Decision>,
      stage: Stage): (Decision, Accounts)
  {
    var early := FirstVeto([AlwaysVerify(valid)] + middle);
    if early.action != Approve then (early, g.accounts)
    else Decide(cfg.settings, g.revoked, g.accounts, RequestOf(cfg, p), g.now, stage)
  }

  /** Whether the mandate policy is reached and holds the payment. */
  ghost predicate HeldBy(g: State, cfg: Config, p: Payment, valid: bool, middle: seq<Decision>) {
    && FirstVeto([AlwaysVerify(valid)] + middle).action == Approve
    && Holds(cfg.settings, g.revoked, g.accounts, RequestOf(cfg, p), g.now)
  }

  ghost function DecideStep(g: State, cfg: Config, n: Nonce, middle: seq<Decision>, written: bool): State
    requires n in g.active && g.active[n].Verified?
  {
    var p, valid := g.active[n].p, g.active[n].valid;
    var (d, accounts) := ChainDecide(g, cfg, p, valid, middle, PreSettlement);
    var held := HeldBy(g, cfg, p, valid, middle);
    var g1 := g.(accounts := accounts, journal := AppendEntry(g.journal, DecisionEntry(p, g.now, false), written));
    match d.action
    case Approve => Goto(g1, n, Settling(p, false, held))
    case Defer => Goto(g1, n, Settling(p, true, held))
    case _ => Finish(g1, n)
  }

  function OnChain(g: State, cfg: Config, p: Payment): Token.Outcome {
    Token.SettleAuthorization(
      g.token, cfg.relayer, if g.now < 0 then 0 else UnixSeconds(g.now), p.auth, p.recovered, false)
  }

  /** The facilitator submits the authorization. Even when it reports an error the transaction may
      have landed. */
  function SubmitStep(g: State, cfg: Config, n: Nonce, tx: TxHash, included: bool, reported: bool, block: nat): State
    requires n in g.active && g.active[n].Settling?
  {
    var ph := g.active[n];
    var outcome := OnChain(g, cfg, ph.p);
    var lands := included && outcome.Done?;
    var g1 := if lands then g.(token := outcome.state, landed := g.landed[tx := KeyOf(ph.p)]) else g;
    var g2 := g1.(txs := g.txs + {tx}, head := if block > g.head then block else g.head);
    if lands && reported then Goto(g2, n, Mined(ph.p, ph.deferred, ph.held, tx, block))
    else Finish(g2.(accounts := Notified(g, ph.p, false)), n)
  }

  function RecordFor(g: State, p: Payment, tx: TxHash): Record {
    Record(p.auth.from, p.auth.value, tx, g.now)
  }

  function SettlementEntry(r: Record): Entry {
    Entry(OfTx(r.tx), SettlementBody(r.payer, r.amount, UnixSeconds(r.time)))
  }

  /** Durable before anyone is told: a failed append turns the settlement into an error. */
  function JournalStep(g: State, n: Nonce, written: bool): State
    requires n in g.active && g.active[n].Mined?
  {
    var ph := g.active[n];
    var r := RecordFor(g, ph.p, ph.tx);
    if !written then Finish(g.(accounts := Notified(g, ph.p, false)), n)
    else
      Goto(g.(journal := AppendEntry(g.journal, SettlementEntry(r), true)), n,
           Journaled(ph.p, ph.deferred, ph.held, r, ph.block))
  }

  /** The policy is told of the success, and counts the payment at its own reading of the clock. */
  function CommitStep(g: State, n: Nonce): State
    requires n in g.active && g.active[n].Journaled?
  {
    var ph := g.active[n];
    Goto(g.(accounts := Notified(g, ph.p, true)), n, Committed(ph.p, ph.deferred, ph.record, ph.block, g.now))
  }

  function ListStep(g: State, n: Nonce): State
    requires n in g.active && g.active[n].Committed?
  {
    var ph := g.active[n];
    Goto(g.(settlements := g.settlements + [ph.record]), n, Listed(ph.p, ph.deferred, ph.record, ph.block, ph.at))
  }

  /** The settled line carries a later reading of the clock. A deferred payment is kept with the block
      its receipt shows, or 0 when there is no receipt to be had. */
  function StampStep(g: State, n: Nonce, written: bool, receiptKnown: bool): State
    requires n in g.active && g.active[n].Listed?
  {
    var ph := g.active[n];
    var g1 := g.(journal := AppendEntry(g.journal, DecisionEntry(ph.p, g.now, true), written));
    if ph.deferred
    then Finish(g1, n).(inflight := g.inflight[n := Deferred(ph.p, ph.record, if receiptKnown then ph.block else 0)])
    else Goto(g1, n, Delivering(ph.p, ph.record))
  }

  function RefundOutcome(g: State, cfg: Config, r: Record): Token.Outcome {
    if r.amount > Token.MAX_WORD then Token.Reverted else Token.Transfer(g.token, cfg.payTo, r.payer, r.amount)
  }

  /** Hand over, or else refund, or else leave a refund pending: one of the three, on record. */
  function DeliverStep(g: State, cfg: Config, n: Nonce, delivered: bool, refundTx: TxHash, refund: Reply,
      written: bool): State
    requires n in g.active && g.active[n].Delivering?
  {
    var ph := g.active[n];
    var r := ph.record;
    if !cfg.hasDeliverer || delivered then
      Finish(g.(served := g.served + [Served(r, n)], fates := g.fates[r.tx := Delivered]), n)
    else
      var lands := cfg.hasRefunder && refund != NotIncluded && RefundOutcome(g, cfg, r).Done?;
      var g1 := if lands then g.(token := RefundOutcome(g, cfg, r).state, txs := g.txs + {refundTx}) else g;
      if lands && refund == Reported then
        Finish(
          g1.(journal := AppendEntry(g.journal, Entry(OfTx(refundTx), RefundBody(r.payer, r.amount)), written),
              fates := g.fates[r.tx := Refunded(refundTx)]),
          n)
      else
        Finish(
          g1.(journal := AppendEntry(g.journal, Entry(OfPending(r.tx), RefundPendingBody(r.payer, r.amount)), written),
              fates := g.fates[r.tx := RefundPending]),
          n)
  }

  /** A settlement block above the head means that a reorg dropped it: an error. */
  function StageOf(g: State, cfg: Config, block: nat): Option<Stage> {
    if g.head < block then None
    else if g.head - block >= cfg.confirmDepth then Some(Confirmed)
    else Some(Submitted)
  }

  /** What the policies judge at a retry: the payload of the retry, with the recorded payer. */
  function Retried(p: Payment, payer: Address): Payment { p.(auth := p.auth.(from := payer)) }

  /** The entry leaves the in-flight map before delivery starts. */
  ghost function ResumeStep(g: State, cfg: Config, p: Payment, middle: seq<Decision>): State
    requires p.auth.nonce in g.inflight
  {
    var n := p.auth.nonce;
    var df := g.inflight[n];
    match StageOf(g, cfg, df.block)
    case None => g
    case Some(stage) =>
      if ChainDecide(g, cfg, Retried(p, df.record.payer), true, middle, stage).0.action != Approve then g
      else Goto(g.(inflight := g.inflight - {n}), n, Delivering(df.p, df.record))
  }

  function RevokeStep(g: State, delegator: Address, id: MandateId, written: bool): State {
    g.(revoked := g.revoked + {(delegator, id)},
       journal := AppendEntry(g.journal, Entry(OfRevocation(id), RevocationBody(delegator, id)), written))
  }

  ghost function Next(g: State, cfg: Config, step: Step): State
    requires Enabled(g, step)
  {
    match step
    case Arrive(p) => ArriveStep(g, cfg, p)
    case DecideOn(n, middle, written) => DecideStep(g, cfg, n, middle, written)
    case Submit(n, tx, included, reported, block) => SubmitStep(g, cfg, n, tx, included, reported, block)
    case Journal(n, written) => JournalStep(g, n, written)
    case CommitIt(n) => CommitStep(g, n)
    case ListIt(n) => ListStep(g, n)
    case StampIt(n, written, receiptKnown) => StampStep(g, n, written, receiptKnown)
    case Deliver(n, delivered, refundTx, refund, written) =>
      DeliverStep(g, cfg, n, delivered, refundTx, refund, written)
    case Resume(p, middle) => ResumeStep(g, cfg, p, middle)
    case RevokeIt(delegator, id, written) => RevokeStep(g, delegator, id, written)
    case Outside(call) => g.(token := Token.StateAfter(g.token, call))
    case Tick(head, now) => g.(head := head, now := now)
  }

  // ---- What a restart reads from the journal ----

  /** The committed spend of a mandate that an entry restores, if any. */
  function SpendIn(e: Entry, id: MandateId): seq<Spend> {
    match e.body
    case DecisionBody(Some(i), amount, at, true) => if i == id then [Spend(at * SECOND, amount)] else []
    case _ => []
  }

  function RestoredSpends(journal: seq<Entry>, id: MandateId): seq<Spend> {
    if journal == [] then [] else RestoredSpends(Init(journal), id) + SpendIn(Last(journal), id)
  }

  function RestoredAccounts(accounts: Accounts, journal: seq<Entry>): Accounts {
    if journal == [] then accounts
    else
      var before := RestoredAccounts(accounts, Init(journal));
      match Last(journal).body
      case DecisionBody(Some(id), amount, at, true) => Restore(before, id, at * SECOND, amount)
      case _ => before
  }

  function RestoredRevoked(journal: seq<Entry>): Revocations {
    if journal == [] then {}
    else
      RestoredRevoked(Init(journal)) +
      match Last(journal).body
      case RevocationBody(delegator, id) => {(delegator, id)}
      case _ => {}
  }

  function SettlementsIn(e: Entry): seq<Record> {
    match e
    case Entry(OfTx(tx), SettlementBody(payer, amount, at)) => [Record(payer, amount, tx, at * SECOND)]
    case _ => []
  }

  function RestoredSettlements(journal: seq<Entry>): seq<Record> {
    if journal == [] then [] else RestoredSettlements(Init(journal)) + SettlementsIn(Last(journal))
  }

  /** A new gateway on the journal of an old one: nothing in flight, no request active. */
  function Restarted(g: State): State {
    g.(active := map[], inflight := map[], accounts := RestoredAccounts(map[], g.journal),
       revoked := RestoredRevoked(g.journal), settlements := RestoredSettlements(g.journal))
  }

  /** A run of the machine: every step is enabled where it happens. */
  ghost predicate ValidRun(g: State, cfg: Config, steps: seq<Step>)
    decreases |steps|, 0
  {
    steps != [] ==> ValidRun(g, cfg, Init(steps)) && Enabled(After(g, cfg, Init(steps)), Last(steps))
  }

  ghost function After(g: State, cfg: Config, steps: seq<Step>): State
    requires ValidRun(g, cfg, steps)
    decreases |steps|, 1
  {
    if steps == [] then g else Next(After(g, cfg, Init(steps)), cfg, Last(steps))
  }
}
