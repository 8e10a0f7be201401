/** The outcome of every settlement is on record: in a run whose refund lines are written, the journal
    itself tells the refunded and refund pending settlements, one line each. */
module GatewayOutcomes {
  import opened Common
  import opened MandateAccounts
  import opened Policy
  import opened Gateway
  import opened GatewaySafety
  import opened GatewayPlaces
  import opened GatewayRestart
  import opened GatewayMirror
  import Token = Stablecoin

  function RefundLine(refundTx: TxHash, r: Record): Entry { Entry(OfTx(refundTx), RefundBody(r.payer, r.amount)) }

  function PendingLine(r: Record): Entry { Entry(OfPending(r.tx), RefundPendingBody(r.payer, r.amount)) }

  function CountRefunds(journal: seq<Entry>): nat {
    if journal == [] then 0
    else
      var rest := CountRefunds(Init(journal));
      if Last(journal).body.RefundBody? then rest + 1 else rest
  }

  function CountPending(journal: seq<Entry>): nat {
    if journal == [] then 0
    else
      var rest := CountPending(Init(journal));
      if Last(journal).body.RefundPendingBody? then rest + 1 else rest
  }

  /** The line that records an outcome; a delivery has none. */
  predicate OnRecord(journal: seq<Entry>, r: Record, fate: Fate) {
    match fate
    case Delivered => true
    case Refunded(refundTx) => RefundLine(refundTx, r) in journal
    case RefundPending => PendingLine(r) in journal
  }

  predicate HasRecord(settlements: seq<Record>, journal: seq<Entry>, tx: TxHash, fate: Fate) {
    exists r :: r in settlements && r.tx == tx && OnRecord(journal, r, fate)
  }

  /** Every outcome has its line, about the settlement it is the outcome of. */
  ghost predicate AllOnRecord(g: State) {
    forall tx :: tx in g.fates ==> HasRecord(g.settlements, g.journal, tx, g.fates[tx])
  }

  /** Every such line is the line of an outcome, and no two outcomes share one. */
  ghost predicate NoStrayLines(journal: seq<Entry>, fates: map<TxHash, Fate>) {
    && (forall tx :: HasId(journal, OfPending(tx)) ==> tx in fates && fates[tx] == RefundPending)
    && (forall e :: e in journal && e.body.RefundPendingBody? ==> e.id.OfPending?)
    && (forall e :: e in journal && e.body.RefundBody? ==>
          e.id.OfTx? && exists tx :: tx in fates && fates[tx] == Refunded(e.id.tx))
  }

  ghost predicate RefundsApart(fates: map<TxHash, Fate>, txs: set<TxHash>) {
    && (forall x :: x in fates && fates[x].Refunded? ==> fates[x].refundTx in txs)
    && (forall x, y :: x in fates && y in fates && fates[x].Refunded? && fates[x] == fates[y] ==> x == y)
  }

  /** The records requests carry are those of the list. */
  ghost predicate CarriedListed(active: map<Nonce, Phase>, inflight: map<Nonce, Deferred>, settlements: seq<Record>) {
    && (forall n :: n in active && Carries(active[n]) ==> active[n].record in settlements)
    && (forall n :: n in inflight ==> inflight[n].record in settlements)
  }

  ghost predicate Outcomes(g: State) {
    && AllOnRecord(g)
    && NoStrayLines(g.journal, g.fates)
    && RefundsApart(g.fates, g.txs)
    && CarriedListed(g.active, g.inflight, g.settlements)
    && |g.fates| == |g.served| + CountRefunds(g.journal) + CountPending(g.journal)
  }

  /** The refund and refund pending lines of the run are written. */
  predicate OutcomesWritten(steps: seq<Step>) {
    forall i :: 0 <= i < |steps| && steps[i].Deliver? ==> steps[i].written
  }

  // ---- Other lines ----

  predicate OtherLine(e: Entry) { !e.body.RefundBody? && !e.body.RefundPendingBody? && !e.id.OfPending? }

  lemma {:induction false} LineOfOther(g: State, cfg: Config, step: Step)
    requires Enabled(g, step) && !step.Deliver?
    ensures match LineOf(g, cfg, step) case None => true case Some(line) => OtherLine(line.0)
  {}

  lemma {:induction false} OtherAppend(journal: seq<Entry>, e: Entry, written: bool, fates: map<TxHash, Fate>)
    requires OtherLine(e) && NoStrayLines(journal, fates)
    ensures var j := AppendEntry(journal, e, written);
            && NoStrayLines(j, fates)
            && CountRefunds(j) == CountRefunds(journal) && CountPending(j) == CountPending(journal)
            && journal <= j
  {
    hide HasId;
    InitOfSnoc(journal, e);
    forall tx: TxHash
      ensures HasId(journal + [e], OfPending(tx)) <==> HasId(journal, OfPending(tx))
    {
      HasIdSnoc(journal, e, OfPending(tx));
    }
  }

  lemma {:induction false} RecordStays(s: seq<Record>, more: seq<Record>, journal: seq<Entry>, j: seq<Entry>,
      tx: TxHash, fate: Fate)
    requires HasRecord(s, journal, tx, fate) && s <= more && journal <= j
    ensures HasRecord(more, j, tx, fate)
  {
    var r :| r in s && r.tx == tx && OnRecord(journal, r, fate);
    assert r in more && OnRecord(j, r, fate);
  }

  lemma {:induction false} AllStay(g: State, g': State)
    requires AllOnRecord(g) && g.settlements <= g'.settlements && g.journal <= g'.journal && g'.fates == g.fates
    ensures AllOnRecord(g')
  {
    hide HasRecord;
    forall tx | tx in g'.fates
      ensures HasRecord(g'.settlements, g'.journal, tx, g'.fates[tx])
    {
      RecordStays(g.settlements, g'.settlements, g.journal, g'.journal, tx, g.fates[tx]);
    }
  }

  // ---- The requests ----

  /** A request moves to a phase whose record is listed, or ends. */
  lemma {:induction false} CarriedMove(active: map<Nonce, Phase>, inflight: map<Nonce, Deferred>, s: seq<Record>,
      more: seq<Record>, n: Nonce, ph: Phase)
    requires CarriedListed(active, inflight, s) && s <= more
    requires Carries(ph) ==> ph.record in more
    ensures CarriedListed(active, inflight, more)
    ensures CarriedListed(active[n := ph], inflight, more) && CarriedListed(active - {n}, inflight, more)
  {
    assert forall r :: r in s ==> r in more;
  }

  lemma {:induction false} CarriedStamp(active: map<Nonce, Phase>, inflight: map<Nonce, Deferred>, s: seq<Record>,
      n: Nonce, ph: Phase, d: Deferred)
    requires CarriedListed(active, inflight, s) && n in active && Carries(active[n])
    requires Carries(ph) && ph.record == active[n].record == d.record
    ensures CarriedListed(active[n := ph], inflight, s) && CarriedListed(active - {n}, inflight[n := d], s)
  {}

  lemma {:induction false} CarriedResume(active: map<Nonce, Phase>, inflight: map<Nonce, Deferred>, s: seq<Record>,
      n: Nonce, ph: Phase)
    requires CarriedListed(active, inflight, s) && n in inflight && Carries(ph) && ph.record == inflight[n].record
    ensures CarriedListed(active[n := ph], inflight - {n}, s)
  {}

  lemma {:induction false} SamePrefix<T>(s: seq<T>)
    ensures s <= s
  {}

  lemma {:induction false} CarriedByJournal(g: State, n: Nonce, written: bool)
    requires CarriedListed(g.active, g.inflight, g.settlements) && n in g.active && g.active[n].Mined?
    ensures var g' := JournalStep(g, n, written); CarriedListed(g'.active, g'.inflight, g'.settlements)
  {
    hide CarriedListed, Notified, AppendEntry;
    var ph := g.active[n];
    SamePrefix(g.settlements);
    CarriedMove(g.active, g.inflight, g.settlements, g.settlements, n,
                Journaled(ph.p, ph.deferred, ph.held, RecordFor(g, ph.p, ph.tx), ph.block));
  }

  lemma {:induction false} CarriedByList(g: State, n: Nonce)
    requires CarriedListed(g.active, g.inflight, g.settlements) && n in g.active && g.active[n].Committed?
    ensures var g' := ListStep(g, n); CarriedListed(g'.active, g'.inflight, g'.settlements)
  {
    hide CarriedListed;
    var ph := g.active[n];
    assert g.settlements <= g.settlements + [ph.record] && ph.record in g.settlements + [ph.record];
    CarriedMove(g.active, g.inflight, g.settlements, g.settlements + [ph.record], n,
                Listed(ph.p, ph.deferred, ph.record, ph.block, ph.at));
  }

  lemma {:induction false} CarriedByStamp(g: State, n: Nonce, written: bool, receiptKnown: bool)
    requires CarriedListed(g.active, g.inflight, g.settlements) && n in g.active && g.active[n].Listed?
    ensures var g' := StampStep(g, n, written, receiptKnown); CarriedListed(g'.active, g'.inflight, g'.settlements)
  {
    hide CarriedListed, AppendEntry;
    var ph := g.active[n];
    CarriedStamp(g.active, g.inflight, g.settlements, n, Delivering(ph.p, ph.record),
                 Deferred(ph.p, ph.record, if receiptKnown then ph.block else 0));
  }

  lemma {:induction false} CarriedByStep(g: State, cfg: Config, step: Step)
    requires Enabled(g, step) && CarriedListed(g.active, g.inflight, g.settlements)
    ensures var g' := Next(g, cfg, step); CarriedListed(g'.active, g'.inflight, g'.settlements)
  {
    hide CarriedListed, DecideStep, SubmitStep, JournalStep, ListStep, StampStep, DeliverStep, ResumeStep, AppendEntry,
         Notified, VerifyPayment, Token.StateAfter, ChainDecide, HeldBy;
    SamePrefix(g.settlements);
    match step
    case Arrive(p) =>
      CarriedMove(g.active, g.inflight, g.settlements, g.settlements, p.auth.nonce,
                  Verified(p, VerifyPayment(cfg, g.token, p, UnixSeconds(g.now))));
    case DecideOn(n, middle, written) =>
      DecideAsUpdate(g, cfg, n, middle, written);
      var action := ChainDecide(g, cfg, g.active[n].p, g.active[n].valid, middle, PreSettlement).0.action;
      CarriedMove(g.active, g.inflight, g.settlements, g.settlements, n,
                  Settling(g.active[n].p, action == Defer, HeldBy(g, cfg, g.active[n].p, g.active[n].valid, middle)));
    case Submit(n, tx, included, reported, block) =>
      IdleSubmit(g, cfg, n, tx, included, reported, block);
      SubmitKeeps(g, cfg, n, tx, included, reported, block);
      var ph := g.active[n];
      CarriedMove(g.active, g.inflight, g.settlements, g.settlements, n, Mined(ph.p, ph.deferred, ph.held, tx, block));
    case Journal(n, written) => CarriedByJournal(g, n, written);
    case CommitIt(n) =>
      var ph := g.active[n];
      CarriedMove(g.active, g.inflight, g.settlements, g.settlements, n,
                  Committed(ph.p, ph.deferred, ph.record, ph.block, g.now));
    case ListIt(n) => CarriedByList(g, n);
    case StampIt(n, written, receiptKnown) => CarriedByStamp(g, n, written, receiptKnown);
    case Deliver(n, delivered, refundTx, refund, written) =>
      DeliverAsUpdate(g, cfg, n, delivered, refundTx, refund, written);
      CarriedMove(g.active, g.inflight, g.settlements, g.settlements, n, Verified(g.active[n].p, false));
    case Resume(p, middle) => CarriedByResume(g, cfg, p, middle);
    case _ =>
  }

  lemma {:induction false} SubmitKeeps(g: State, cfg: Config, n: Nonce, tx: TxHash, included: bool, reported: bool,
      block: nat)
    requires n in g.active && g.active[n].Settling?
    ensures var g' := SubmitStep(g, cfg, n, tx, included, reported, block);
            g'.inflight == g.inflight && g'.fates == g.fates && g'.served == g.served && g.txs <= g'.txs
  {
    hide OnChain, Notified;
  }

  lemma {:induction false} CarriedByResume(g: State, cfg: Config, p: Payment, middle: seq<Decision>)
    requires Enabled(g, Resume(p, middle)) && CarriedListed(g.active, g.inflight, g.settlements)
    ensures var g' := ResumeStep(g, cfg, p, middle); CarriedListed(g'.active, g'.inflight, g'.settlements)
  {
    hide CarriedListed, ChainDecide;
    var df := g.inflight[p.auth.nonce];
    CarriedResume(g.active, g.inflight, g.settlements, p.auth.nonce, Delivering(df.p, df.record));
  }

  // ---- Steps that decide nothing ----

  /** A step decides no outcome, forgets no settlement and no transaction. */
  predicate DecidesNothing(g: State, g': State) {
    g'.fates == g.fates && g'.served == g.served && g.txs <= g'.txs && g.settlements <= g'.settlements
  }

  lemma {:induction false} DecideKeeps(g: State, cfg: Config, n: Nonce, middle: seq<Decision>, written: bool)
    requires n in g.active && g.active[n].Verified?
    ensures DecidesNothing(g, DecideStep(g, cfg, n, middle, written))
  {
    hide DecideStep, ChainDecide, HeldBy, AppendEntry;
    DecideAsUpdate(g, cfg, n, middle, written);
  }

  lemma {:induction false} JournalKeeps(g: State, n: Nonce, written: bool)
    requires n in g.active && g.active[n].Mined?
    ensures DecidesNothing(g, JournalStep(g, n, written))
  {
    hide Notified, AppendEntry;
  }

  lemma {:induction false} EndKeeps(g: State, n: Nonce, written: bool, receiptKnown: bool)
    requires n in g.active
    ensures g.active[n].Journaled? ==> DecidesNothing(g, CommitStep(g, n))
    ensures g.active[n].Committed? ==> DecidesNothing(g, ListStep(g, n))
    ensures g.active[n].Listed? ==> DecidesNothing(g, StampStep(g, n, written, receiptKnown))
  {
    hide Notified, AppendEntry;
  }

  lemma {:induction false} FatesByStep(g: State, cfg: Config, step: Step)
    requires Enabled(g, step) && !step.Deliver?
    ensures DecidesNothing(g, Next(g, cfg, step))
  {
    hide DecideStep, SubmitStep, JournalStep, CommitStep, ListStep, StampStep, ResumeStep, AppendEntry, VerifyPayment,
         Token.StateAfter;
    match step
    case DecideOn(n, middle, written) => DecideKeeps(g, cfg, n, middle, written);
    case Submit(n, tx, included, reported, block) =>
      IdleSubmit(g, cfg, n, tx, included, reported, block);
      SubmitKeeps(g, cfg, n, tx, included, reported, block);
    case Journal(n, written) => JournalKeeps(g, n, written);
    case CommitIt(n) => EndKeeps(g, n, true, true);
    case ListIt(n) => EndKeeps(g, n, true, true);
    case StampIt(n, written, receiptKnown) => EndKeeps(g, n, written, receiptKnown);
    case Resume(p, middle) =>
      IdleResume(g, cfg, p, middle);
      ResumeKeeps(g, cfg, p, middle);
    case _ =>
  }

  lemma {:induction false} ResumeKeeps(g: State, cfg: Config, p: Payment, middle: seq<Decision>)
    requires Enabled(g, Resume(p, middle))
    ensures var g' := ResumeStep(g, cfg, p, middle); g'.fates == g.fates && g'.served == g.served && g'.txs == g.txs
  {
    hide ChainDecide;
  }

  lemma {:induction false} OutcomesQuiet(g: State, cfg: Config, step: Step)
    requires Enabled(g, step) && !step.Deliver? && Outcomes(g)
    ensures Outcomes(Next(g, cfg, step))
  {
    hide Next, AllOnRecord, NoStrayLines, CarriedListed, CountRefunds, CountPending, AppendEntry, RefundOutcome;
    var g' := Next(g, cfg, step);
    FatesByStep(g, cfg, step);
    CarriedByStep(g, cfg, step);
    StepAppends(g, cfg, step);
    LineOfOther(g, cfg, step);
    SamePrefix(g.journal);
    match LineOf(g, cfg, step) {
      case None =>
      case Some(line) => OtherAppend(g.journal, line.0, line.1, g.fates);
    }
    AllStay(g, g');
  }

  // ---- Decisions ----

  lemma {:induction false} OutcomeLine(journal: seq<Entry>, e: Entry)
    requires !HasId(journal, e.id)
    ensures AppendEntry(journal, e, true) == journal + [e]
    ensures CountRefunds(journal + [e]) == CountRefunds(journal) + if e.body.RefundBody? then 1 else 0
    ensures CountPending(journal + [e]) == CountPending(journal) + if e.body.RefundPendingBody? then 1 else 0
  {
    hide HasId;
    InitOfSnoc(journal, e);
  }

  /** A new outcome with its line: about a listed settlement that had none. */
  lemma {:induction false} OutcomeAdds(g: State, g': State, r: Record, fate: Fate)
    requires Outcomes(g) && r in g.settlements && r.tx !in g.fates
    requires g'.settlements == g.settlements && g'.fates == g.fates[r.tx := fate]
    requires match fate
             case Delivered => g'.journal == g.journal
             case Refunded(refundTx) => g'.journal == g.journal + [RefundLine(refundTx, r)]
             case RefundPending => g'.journal == g.journal + [PendingLine(r)]
    ensures AllOnRecord(g') && NoStrayLines(g'.journal, g'.fates)
  {
    hide HasId, HasRecord, CarriedListed, CountRefunds, CountPending, RefundsApart;
    RecordNow(g'.settlements, g'.journal, r, fate);
    forall tx | tx in g'.fates
      ensures HasRecord(g'.settlements, g'.journal, tx, g'.fates[tx])
    {
      if tx != r.tx {
        RecordStays(g.settlements, g'.settlements, g.journal, g'.journal, tx, g.fates[tx]);
      }
    }
    StrayAdds(g.journal, g'.journal, g.fates, r, fate);
  }

  lemma {:induction false} RecordNow(settlements: seq<Record>, journal: seq<Entry>, r: Record, fate: Fate)
    requires r in settlements && OnRecord(journal, r, fate)
    ensures HasRecord(settlements, journal, r.tx, fate)
  {}

  lemma {:induction false} StrayAdds(journal: seq<Entry>, j: seq<Entry>, fates: map<TxHash, Fate>, r: Record,
      fate: Fate)
    requires NoStrayLines(journal, fates) && r.tx !in fates
    requires match fate
             case Delivered => j == journal
             case Refunded(refundTx) => j == journal + [RefundLine(refundTx, r)]
             case RefundPending => j == journal + [PendingLine(r)]
    ensures NoStrayLines(j, fates[r.tx := fate])
  {
    hide HasId;
    var after := fates[r.tx := fate];
    forall tx: TxHash | HasId(j, OfPending(tx))
      ensures tx in after && after[tx] == RefundPending
    {
      match fate {
        case Delivered =>
        case Refunded(refundTx) => HasIdSnoc(journal, RefundLine(refundTx, r), OfPending(tx));
        case RefundPending => HasIdSnoc(journal, PendingLine(r), OfPending(tx));
      }
    }
    forall e | e in j && e.body.RefundBody?
      ensures e.id.OfTx? && exists tx :: tx in after && after[tx] == Refunded(e.id.tx)
    {
      if e in journal {
        var tx :| tx in fates && fates[tx] == Refunded(e.id.tx);
        assert after[tx] == Refunded(e.id.tx);
      } else {
        assert after[r.tx] == fate;
      }
    }
  }

  lemma {:induction false} RefundsStayApart(fates: map<TxHash, Fate>, txs: set<TxHash>, more: set<TxHash>, tx: TxHash,
      fate: Fate)
    requires RefundsApart(fates, txs) && txs <= more && tx !in fates
    requires fate.Refunded? ==> fate.refundTx in more && fate.refundTx !in txs
    ensures RefundsApart(fates[tx := fate], more)
  {}

  lemma {:induction false} CarriedRecord(g: State, n: Nonce)
    requires Places(g) && CarriedListed(g.active, g.inflight, g.settlements) && n in g.active && g.active[n].Delivering?
    ensures g.active[n].record in g.settlements && g.active[n].record.tx !in g.fates
  {
    hide NoneLost, InflightHolding, ServedOk, Distinct, Delivery, Txs;
    assert Holding(Txs(g.settlements), g.fates.Keys, g.active[n]);
  }

  /** What the end of a delivery changes, given what it does to the journal. */
  lemma {:induction false} OutcomesDecided(g: State, g': State, n: Nonce, r: Record, fate: Fate)
    requires Outcomes(g) && r in g.settlements && r.tx !in g.fates
    requires g'.settlements == g.settlements && g'.inflight == g.inflight && g'.active == g.active - {n}
    requires g'.fates == g.fates[r.tx := fate] && g.txs <= g'.txs
    requires g'.served == if fate == Delivered then g.served + [Served(r, n)] else g.served
    requires fate.Refunded? ==> fate.refundTx in g'.txs && fate.refundTx !in g.txs
    requires match fate
             case Delivered => g'.journal == g.journal
             case Refunded(refundTx) =>
               !HasId(g.journal, OfTx(refundTx)) && g'.journal == g.journal + [RefundLine(refundTx, r)]
             case RefundPending => !HasId(g.journal, OfPending(r.tx)) && g'.journal == g.journal + [PendingLine(r)]
    ensures Outcomes(g')
  {
    hide AllOnRecord, NoStrayLines, CarriedListed, RefundsApart, CountRefunds, CountPending, HasId, RefundLine,
         PendingLine;
    OutcomeAdds(g, g', r, fate);
    RefundsStayApart(g.fates, g.txs, g'.txs, r.tx, fate);
    CarriedEnds(g.active, g.inflight, g.settlements, n);
    OutcomeCounts(g, g', n, r, fate);
  }

  lemma {:induction false} CarriedEnds(active: map<Nonce, Phase>, inflight: map<Nonce, Deferred>, s: seq<Record>,
      n: Nonce)
    requires CarriedListed(active, inflight, s)
    ensures CarriedListed(active - {n}, inflight, s)
  {}

  lemma {:induction false} OutcomeCounts(g: State, g': State, n: Nonce, r: Record, fate: Fate)
    requires |g.fates| == |g.served| + CountRefunds(g.journal) + CountPending(g.journal) && r.tx !in g.fates
    requires g'.fates == g.fates[r.tx := fate]
    requires g'.served == if fate == Delivered then g.served + [Served(r, n)] else g.served
    requires match fate
             case Delivered => g'.journal == g.journal
             case Refunded(refundTx) =>
               !HasId(g.journal, OfTx(refundTx)) && g'.journal == g.journal + [RefundLine(refundTx, r)]
             case RefundPending => !HasId(g.journal, OfPending(r.tx)) && g'.journal == g.journal + [PendingLine(r)]
    ensures |g'.fates| == |g'.served| + CountRefunds(g'.journal) + CountPending(g'.journal)
  {
    hide CountRefunds, CountPending, HasId;
    SizeAfterPut(g.fates, r.tx, fate);
    match fate
    case Delivered =>
    case Refunded(refundTx) => OutcomeLine(g.journal, RefundLine(refundTx, r));
    case RefundPending => OutcomeLine(g.journal, PendingLine(r));
  }

  lemma {:induction false} OutcomesDeliver(g: State, cfg: Config, n: Nonce, delivered: bool, refundTx: TxHash,
      refund: Reply)
    requires Enabled(g, Deliver(n, delivered, refundTx, refund, true))
    requires Outcomes(g) && Places(g) && FreshOf(g)
    ensures Outcomes(DeliverStep(g, cfg, n, delivered, refundTx, refund, true))
  {
    assert !HasId(g.journal, OfTx(refundTx)) by {
      hide Places, HasId;
    }
    CarriedRecord(g, n);
    var r := g.active[n].record;
    NoPendingLine(g, r.tx);
    hide Outcomes, Places, FreshOf, FreshLines, HasId, RefundOutcome, DeliverStep, Enabled;
    DeliverAsUpdate(g, cfg, n, delivered, refundTx, refund, true);
    var g' := DeliverStep(g, cfg, n, delivered, refundTx, refund, true);
    OutcomesDecided(g, g', n, r, g'.fates[r.tx]);
  }

  lemma {:induction false} NoPendingLine(g: State, tx: TxHash)
    requires Outcomes(g) && tx !in g.fates
    ensures !HasId(g.journal, OfPending(tx))
  {
    hide HasId;
  }

  // ---- Whole runs ----

  lemma {:induction false} StartOutcomes(token: Token.TokenState, head: nat, now: int)
    ensures Outcomes(Started(token, head, now))
  {}

  lemma {:induction false} OutcomesKept(g: State, cfg: Config, step: Step)
    requires Enabled(g, step) && (step.Deliver? ==> step.written)
    requires Outcomes(g) && Places(g) && FreshOf(g)
    ensures Outcomes(Next(g, cfg, step))
  {
    hide Outcomes, Places, FreshOf, DeliverStep, DecideStep, SubmitStep, ResumeStep, StampStep, JournalStep,
         Token.StateAfter;
    match step
    case Deliver(n, delivered, refundTx, refund, _) => OutcomesDeliver(g, cfg, n, delivered, refundTx, refund);
    case _ => OutcomesQuiet(g, cfg, step);
  }

  lemma {:induction false} WrittenInit(steps: seq<Step>)
    requires OutcomesWritten(steps) && steps != []
    ensures OutcomesWritten(Init(steps)) && (Last(steps).Deliver? ==> Last(steps).written)
  {
    assert forall i :: 0 <= i < |Init(steps)| ==> Init(steps)[i] == steps[i];
  }

  lemma {:induction false} RunOutcomes(token: Token.TokenState, head: nat, now: int, cfg: Config, steps: seq<Step>)
    requires ValidRun(Started(token, head, now), cfg, steps) && OutcomesWritten(steps)
    ensures Outcomes(After(Started(token, head, now), cfg, steps))
  {
    hide Outcomes, OutcomesWritten, Shape, Places, FreshOf, MirrorOf, LinesDistinct, Next;
    if steps == [] {
      StartOutcomes(token, head, now);
    } else {
      var before := Init(steps);
      WrittenInit(steps);
      RunOutcomes(token, head, now, cfg, before);
      RunPlaced(token, head, now, cfg, before);
      RunMirrored(token, head, now, cfg, before);
      OutcomesKept(After(Started(token, head, now), cfg, before), cfg, Last(steps));
    }
  }

  /** In every reachable state, when the refund lines were written: the recorded settlements are the
      served ones, one refund line each for the refunded, one refund pending line each for the
      pending, those deferred, and those a request still carries. */
  lemma {:induction false} ConservedOnRecord(token: Token.TokenState, head: nat, now: int, cfg: Config,
      steps: seq<Step>)
    requires ValidRun(Started(token, head, now), cfg, steps) && OutcomesWritten(steps)
    ensures var g := After(Started(token, head, now), cfg, steps);
            |g.settlements| == |g.served| + CountRefunds(g.journal) + CountPending(g.journal) + |g.inflight|
              + |Delivery(g.active)|
  {
    hide After, ValidRun, CountRefunds, CountPending, AllOnRecord, NoStrayLines, RefundsApart, CarriedListed, Shape;
    RunOutcomes(token, head, now, cfg, steps);
    RunPlaced(token, head, now, cfg, steps);
  }

  /** And the lines say which: a settlement is refunded or pending exactly when the journal has its line,
      with the payer and the amount of the settlement; no two settlements share a line, and a
      delivered one has none. */
  lemma {:induction false} OutcomesOnRecord(token: Token.TokenState, head: nat, now: int, cfg: Config, steps: seq<Step>)
    requires ValidRun(Started(token, head, now), cfg, steps) && OutcomesWritten(steps)
    ensures var g := After(Started(token, head, now), cfg, steps);
            && AllOnRecord(g)
            && (forall tx :: HasId(g.journal, OfPending(tx)) <==> tx in g.fates && g.fates[tx] == RefundPending)
            && (forall e :: e in g.journal && e.body.RefundBody? ==>
                  e.id.OfTx? && exists tx :: tx in g.fates && g.fates[tx] == Refunded(e.id.tx))
            && (forall x, y :: x in g.fates && y in g.fates && g.fates[x].Refunded? && g.fates[x] == g.fates[y] ==>
                x == y)
  {
    hide After, ValidRun, CountRefunds, CountPending, CarriedListed, HasRecord, HasId;
    RunOutcomes(token, head, now, cfg, steps);
    var g := After(Started(token, head, now), cfg, steps);
    forall tx | tx in g.fates && g.fates[tx] == RefundPending
      ensures HasId(g.journal, OfPending(tx))
    {
      PendingHasLine(g, tx);
    }
  }

  lemma {:induction false} PendingHasLine(g: State, tx: TxHash)
    requires AllOnRecord(g) && tx in g.fates && g.fates[tx] == RefundPending
    ensures HasId(g.journal, OfPending(tx))
  {
    assert HasRecord(g.settlements, g.journal, tx, RefundPending);
    var r :| r in g.settlements && r.tx == tx && OnRecord(g.journal, r, RefundPending);
    var i :| 0 <= i < |g.journal| && g.journal[i] == PendingLine(r);
    assert PendingLine(r).id == OfPending(tx);
    assert g.journal[i].id == OfPending(tx);
  }
}
