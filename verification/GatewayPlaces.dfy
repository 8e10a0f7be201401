/** Conservation of settlements: each recorded settlement is in exactly one place, delivered,
    refunded, refund pending, deferred or being delivered; and none is served twice. */
module GatewayPlaces {
  import opened Common
  import opened MandateAccounts
  import opened Policy
  import opened Gateway
  import opened GatewaySafety
  import Token = Stablecoin

  function Txs(s: seq<Record>): set<TxHash> {
    if s == [] then {} else Txs(Init(s)) + {Last(s).tx}
  }

  /** No transaction is recorded twice. */
  predicate Distinct(s: seq<Record>) {
    s != [] ==> Distinct(Init(s)) && Last(s).tx !in Txs(Init(s))
  }

  function Records(served: seq<Served>): seq<Record> {
    if served == [] then [] else Records(Init(served)) + [Last(served).record]
  }

  /** The request has a recorded settlement on its hands, about to be delivered or deferred. */
  predicate Carries(ph: Phase) { ph.Listed? || ph.Delivering? }

  predicate InDelivery(active: map<Nonce, Phase>, n: Nonce, tx: TxHash) {
    n in active && Carries(active[n]) && active[n].record.tx == tx
  }

  predicate InDeferral(inflight: map<Nonce, Deferred>, n: Nonce, tx: TxHash) {
    n in inflight && inflight[n].record.tx == tx
  }

  /** A request that holds a transaction holds one in the right place. */
  predicate Holding(settled: set<TxHash>, decided: set<TxHash>, ph: Phase) {
    && (Carries(ph) ==> ph.record.tx in settled && ph.record.tx !in decided)
    && (HasTx(ph) && !Carries(ph) ==> TxOf(ph) !in settled)
  }

  ghost predicate ActiveHolding(settled: set<TxHash>, decided: set<TxHash>, active: map<Nonce, Phase>) {
    forall n :: n in active ==> Holding(settled, decided, active[n])
  }

  ghost predicate InflightHolding(settled: set<TxHash>, decided: set<TxHash>, inflight: map<Nonce, Deferred>) {
    forall n :: n in inflight ==> inflight[n].record.tx in settled && inflight[n].record.tx !in decided
  }

  /** A settlement whose fate is open is with the request of its own nonce, or deferred under it. */
  ghost predicate NoneLost(landed: Landings, settled: set<TxHash>, decided: set<TxHash>, active: map<Nonce, Phase>,
      inflight: map<Nonce, Deferred>)
  {
    && settled <= landed.Keys
    && decided <= settled
    && forall tx :: tx in settled && tx !in decided ==>
         InDelivery(active, landed[tx].1, tx) || InDeferral(inflight, landed[tx].1, tx)
  }

  function Delivery(active: map<Nonce, Phase>): set<Nonce> {
    set n | n in active && Carries(active[n])
  }

  /** Served are exactly the settlements whose fate is delivery, each once. */
  ghost predicate ServedOk(served: seq<Served>, fates: map<TxHash, Fate>) {
    && Distinct(Records(served))
    && forall tx :: tx in Txs(Records(served)) <==> tx in fates && fates[tx] == Delivered
  }

  ghost predicate Places(g: State) {
    && Distinct(g.settlements)
    && NoneLost(g.landed, Txs(g.settlements), g.fates.Keys, g.active, g.inflight)
    && ActiveHolding(Txs(g.settlements), g.fates.Keys, g.active)
    && InflightHolding(Txs(g.settlements), g.fates.Keys, g.inflight)
    && ServedOk(g.served, g.fates)
    && |g.settlements| == |g.fates| + |g.inflight| + |Delivery(g.active)|
  }

  // ---- Small steps ----

  /** A request without a recorded settlement moves on without one, or ends. */
  lemma {:induction false} IdleMove(landed: Landings, settled: set<TxHash>, decided: set<TxHash>,
      active: map<Nonce, Phase>, inflight: map<Nonce, Deferred>, n: Nonce, ph: Phase)
    requires NoneLost(landed, settled, decided, active, inflight) && ActiveHolding(settled, decided, active)
    requires n in active ==> !Carries(active[n])
    requires !Carries(ph) && Holding(settled, decided, ph)
    ensures NoneLost(landed, settled, decided, active[n := ph], inflight)
    ensures NoneLost(landed, settled, decided, active - {n}, inflight)
    ensures ActiveHolding(settled, decided, active[n := ph]) && ActiveHolding(settled, decided, active - {n})
    ensures Delivery(active[n := ph]) == Delivery(active) == Delivery(active - {n})
  {
    forall tx | tx in settled && tx !in decided
      ensures InDelivery(active[n := ph], landed[tx].1, tx) || InDeferral(inflight, landed[tx].1, tx)
      ensures InDelivery(active - {n}, landed[tx].1, tx) || InDeferral(inflight, landed[tx].1, tx)
    {
      assert InDelivery(active, landed[tx].1, tx) || InDeferral(inflight, landed[tx].1, tx);
    }
  }

  lemma {:induction false} LandingMore(landed: Landings, settled: set<TxHash>, decided: set<TxHash>,
      active: map<Nonce, Phase>, inflight: map<Nonce, Deferred>, tx: TxHash, key: AuthKey)
    requires NoneLost(landed, settled, decided, active, inflight) && tx !in landed
    ensures NoneLost(landed[tx := key], settled, decided, active, inflight)
  {
    forall x | x in settled && x !in decided
      ensures InDelivery(active, landed[tx := key][x].1, x) || InDeferral(inflight, landed[tx := key][x].1, x)
    {
      assert InDelivery(active, landed[x].1, x) || InDeferral(inflight, landed[x].1, x);
    }
  }

  /** Recording a settlement: its request now carries it. */
  lemma {:induction false} ListMove(landed: Landings, settled: set<TxHash>, decided: set<TxHash>,
      active: map<Nonce, Phase>, inflight: map<Nonce, Deferred>, n: Nonce, ph: Phase)
    requires NoneLost(landed, settled, decided, active, inflight)
    requires ActiveHolding(settled, decided, active) && InflightHolding(settled, decided, inflight)
    requires ActiveOk(landed, active)
    requires n in active && active[n].Committed? && ph.Listed? && ph.record == active[n].record
    ensures var more := settled + {ph.record.tx};
            && NoneLost(landed, more, decided, active[n := ph], inflight)
            && ActiveHolding(more, decided, active[n := ph]) && InflightHolding(more, decided, inflight)
  {
    var tx := ph.record.tx;
    assert PhaseOk(landed, n, active[n]) && Holding(settled, decided, active[n]);
    assert landed[tx].1 == n;
    forall x | x in settled + {tx} && x !in decided
      ensures InDelivery(active[n := ph], landed[x].1, x) || InDeferral(inflight, landed[x].1, x)
    {
      if x != tx {
        assert InDelivery(active, landed[x].1, x) || InDeferral(inflight, landed[x].1, x);
      }
    }
    var after := active[n := ph];
    forall k | k in after
      ensures Holding(settled + {tx}, decided, after[k])
    {
      if k != n {
        assert PhaseOk(landed, k, active[k]) && Holding(settled, decided, active[k]);
      }
    }
  }

  /** The settlement a request carries stays with it, or is deferred under its nonce. */
  lemma {:induction false} StampMove(landed: Landings, settled: set<TxHash>, decided: set<TxHash>,
      active: map<Nonce, Phase>, inflight: map<Nonce, Deferred>, n: Nonce, ph: Phase, d: Deferred)
    requires NoneLost(landed, settled, decided, active, inflight)
    requires ActiveHolding(settled, decided, active) && InflightHolding(settled, decided, inflight)
    requires ActiveOk(landed, active) && n !in inflight
    requires n in active && active[n].Listed? && ph.Delivering? && ph.record == active[n].record == d.record
    ensures NoneLost(landed, settled, decided, active[n := ph], inflight)
    ensures ActiveHolding(settled, decided, active[n := ph])
    ensures NoneLost(landed, settled, decided, active - {n}, inflight[n := d])
    ensures ActiveHolding(settled, decided, active - {n}) && InflightHolding(settled, decided, inflight[n := d])
  {
    assert PhaseOk(landed, n, active[n]) && Holding(settled, decided, active[n]);
    assert landed[d.record.tx].1 == n;
    forall x | x in settled && x !in decided
      ensures InDelivery(active[n := ph], landed[x].1, x) || InDeferral(inflight, landed[x].1, x)
      ensures InDelivery(active - {n}, landed[x].1, x) || InDeferral(inflight[n := d], landed[x].1, x)
    {
      assert InDelivery(active, landed[x].1, x) || InDeferral(inflight, landed[x].1, x);
    }
  }

  /** A delivery ends: the settlement has its fate, and no other request is touched. */
  lemma {:induction false} DecideFate(landed: Landings, settled: set<TxHash>, decided: set<TxHash>,
      active: map<Nonce, Phase>, inflight: map<Nonce, Deferred>, n: Nonce)
    requires NoneLost(landed, settled, decided, active, inflight)
    requires ActiveHolding(settled, decided, active) && InflightHolding(settled, decided, inflight)
    requires ActiveOk(landed, active) && InflightOk(landed, inflight) && n !in inflight
    requires n in active && active[n].Delivering?
    ensures var tx := active[n].record.tx;
            && tx in settled && tx !in decided
            && NoneLost(landed, settled, decided + {tx}, active - {n}, inflight)
            && ActiveHolding(settled, decided + {tx}, active - {n})
            && InflightHolding(settled, decided + {tx}, inflight)
  {
    var tx := active[n].record.tx;
    assert PhaseOk(landed, n, active[n]) && Holding(settled, decided, active[n]);
    assert landed[tx].1 == n;
    forall x | x in settled && x !in decided + {tx}
      ensures InDelivery(active - {n}, landed[x].1, x) || InDeferral(inflight, landed[x].1, x)
    {
      assert InDelivery(active, landed[x].1, x) || InDeferral(inflight, landed[x].1, x);
    }
    forall k | k in active - {n}
      ensures Holding(settled, decided + {tx}, active[k])
    {
      assert PhaseOk(landed, k, active[k]) && Holding(settled, decided, active[k]);
    }
    forall k | k in inflight
      ensures inflight[k].record.tx in settled && inflight[k].record.tx !in decided + {tx}
    {
      assert DeferredOk(landed, k, inflight[k]);
    }
  }

  lemma {:induction false} ResumeMove(landed: Landings, settled: set<TxHash>, decided: set<TxHash>,
      active: map<Nonce, Phase>, inflight: map<Nonce, Deferred>, n: Nonce, ph: Phase)
    requires NoneLost(landed, settled, decided, active, inflight)
    requires ActiveHolding(settled, decided, active) && InflightHolding(settled, decided, inflight)
    requires n in inflight && n !in active && ph.Delivering? && ph.record == inflight[n].record
    ensures NoneLost(landed, settled, decided, active[n := ph], inflight - {n})
    ensures ActiveHolding(settled, decided, active[n := ph]) && InflightHolding(settled, decided, inflight - {n})
  {
    forall tx | tx in settled && tx !in decided
      ensures InDelivery(active[n := ph], landed[tx].1, tx) || InDeferral(inflight - {n}, landed[tx].1, tx)
    {
      assert InDelivery(active, landed[tx].1, tx) || InDeferral(inflight, landed[tx].1, tx);
    }
  }

  lemma {:induction false} ServeOne(served: seq<Served>, fates: map<TxHash, Fate>, s: Served)
    requires ServedOk(served, fates) && s.record.tx !in fates
    ensures ServedOk(served + [s], fates[s.record.tx := Delivered])
  {
    InitOfSnoc(served, s);
    InitOfSnoc(Records(served), s.record);
  }

  lemma {:induction false} OtherFate(served: seq<Served>, fates: map<TxHash, Fate>, tx: TxHash, fate: Fate)
    requires ServedOk(served, fates) && tx !in fates && fate != Delivered
    ensures ServedOk(served, fates[tx := fate])
  {}

  // ---- Counting ----

  lemma {:induction false} SizeAfterPut<V>(m: map<nat, V>, k: nat, v: V)
    ensures |m[k := v]| == if k in m then |m| else |m| + 1
  {
    assert m[k := v].Keys == m.Keys + {k};
    assert |m[k := v]| == |m[k := v].Keys| && |m| == |m.Keys|;
  }

  lemma {:induction false} SizeAfterDrop<V>(m: map<nat, V>, k: nat)
    ensures |m - {k}| == if k in m then |m| - 1 else |m|
  {
    assert (m - {k}).Keys == m.Keys - {k};
    assert |m - {k}| == |(m - {k}).Keys| && |m| == |m.Keys|;
  }

  lemma {:induction false} DeliveryPut(active: map<Nonce, Phase>, n: Nonce, ph: Phase)
    requires Carries(ph) && (n in active ==> !Carries(active[n]))
    ensures |Delivery(active[n := ph])| == |Delivery(active)| + 1
  {
    assert Delivery(active[n := ph]) == Delivery(active) + {n};
  }

  lemma {:induction false} DeliveryDrop(active: map<Nonce, Phase>, n: Nonce)
    ensures |Delivery(active - {n})| == |Delivery(active)| - if n in active && Carries(active[n]) then 1 else 0
  {
    if n in active && Carries(active[n]) {
      assert Delivery(active - {n}) == Delivery(active) - {n};
    } else {
      assert Delivery(active - {n}) == Delivery(active);
    }
  }

  // ---- Each step ----

  lemma {:induction false} PlacesIdle(g: State, g': State, n: Nonce, ph: Phase)
    requires Places(g)
    requires n in g.active ==> !Carries(g.active[n])
    requires !Carries(ph) && Holding(Txs(g.settlements), g.fates.Keys, ph)
    requires g'.active == g.active[n := ph] || g'.active == g.active - {n}
    requires g'.inflight == g.inflight && g'.landed == g.landed
    requires g'.settlements == g.settlements && g'.fates == g.fates && g'.served == g.served
    ensures Places(g')
  {
    hide Distinct, NoneLost, ActiveHolding, InflightHolding, ServedOk, Delivery, Txs;
    IdleMove(g.landed, Txs(g.settlements), g.fates.Keys, g.active, g.inflight, n, ph);
  }

  lemma {:induction false} PlacesArrive(g: State, cfg: Config, p: Payment)
    requires Places(g) && Enabled(g, Arrive(p))
    ensures Places(ArriveStep(g, cfg, p))
  {
    hide VerifyPayment, Places;
    if p.bound {
      PlacesIdle(g, ArriveStep(g, cfg, p), p.auth.nonce,
                 Verified(p, VerifyPayment(cfg, g.token, p, UnixSeconds(g.now))));
    }
  }

  lemma {:induction false} PlacesDecide(g: State, cfg: Config, n: Nonce, middle: seq<Decision>, written: bool)
    requires Places(g) && n in g.active && g.active[n].Verified?
    ensures Places(DecideStep(g, cfg, n, middle, written))
  {
    hide ChainDecide, HeldBy, AppendEntry, Places;
    var g' := DecideStep(g, cfg, n, middle, written);
    var held := HeldBy(g, cfg, g.active[n].p, g.active[n].valid, middle);
    var deferred := ChainDecide(g, cfg, g.active[n].p, g.active[n].valid, middle, PreSettlement).0.action == Defer;
    PlacesIdle(g, g', n, Settling(g.active[n].p, deferred, held));
  }

  lemma {:induction false} PlacesSubmit(g: State, cfg: Config, n: Nonce, tx: TxHash, included: bool, reported: bool,
      block: nat)
    requires Shape(g) && Places(g) && n in g.active && g.active[n].Settling? && tx !in g.txs
    ensures Places(SubmitStep(g, cfg, n, tx, included, reported, block))
  {
    hide OnChain, Notified, Distinct, ActiveHolding, InflightHolding, ServedOk, Delivery, Txs, ActiveOk, InflightOk,
         Apart;
    var ph := g.active[n];
    assert tx !in g.landed;
    assert tx !in Txs(g.settlements);
    var mid := if included && OnChain(g, cfg, ph.p).Done? then g.(landed := g.landed[tx := KeyOf(ph.p)]) else g;
    if included && OnChain(g, cfg, ph.p).Done? {
      LandingMore(g.landed, Txs(g.settlements), g.fates.Keys, g.active, g.inflight, tx, KeyOf(ph.p));
    }
    SubmitIdle(g, cfg, n, tx, included, reported, block, mid);
  }

  lemma {:induction false} SubmitIdle(g: State, cfg: Config, n: Nonce, tx: TxHash, included: bool, reported: bool,
      block: nat, mid: State)
    requires n in g.active && g.active[n].Settling?
    requires mid == if included && OnChain(g, cfg, g.active[n].p).Done?
                    then g.(landed := g.landed[tx := KeyOf(g.active[n].p)]) else g
    requires Places(mid) && tx !in Txs(g.settlements)
    ensures Places(SubmitStep(g, cfg, n, tx, included, reported, block))
  {
    hide OnChain, Notified, Places, Txs;
    var ph := g.active[n];
    PlacesIdle(mid, SubmitStep(g, cfg, n, tx, included, reported, block), n,
               Mined(ph.p, ph.deferred, ph.held, tx, block));
  }

  lemma {:induction false} PlacesJournal(g: State, n: Nonce, written: bool)
    requires Places(g) && n in g.active && g.active[n].Mined?
    ensures Places(JournalStep(g, n, written))
  {
    hide Notified, AppendEntry, NoneLost, InflightHolding, ServedOk, Delivery, Txs, Distinct;
    var ph := g.active[n];
    assert Holding(Txs(g.settlements), g.fates.Keys, ph);
    JournalIdle(g, n, written);
  }

  lemma {:induction false} JournalIdle(g: State, n: Nonce, written: bool)
    requires Places(g) && n in g.active && g.active[n].Mined? && g.active[n].tx !in Txs(g.settlements)
    ensures Places(JournalStep(g, n, written))
  {
    hide Notified, AppendEntry, Places, Txs;
    var ph := g.active[n];
    PlacesIdle(g, JournalStep(g, n, written), n,
               Journaled(ph.p, ph.deferred, ph.held, RecordFor(g, ph.p, ph.tx), ph.block));
  }

  lemma {:induction false} TxsSnoc(s: seq<Record>, r: Record)
    ensures Txs(s + [r]) == Txs(s) + {r.tx}
    ensures Distinct(s + [r]) <==> Distinct(s) && r.tx !in Txs(s)
  {
    InitOfSnoc(s, r);
  }

  lemma {:induction false} PlacesCommit(g: State, n: Nonce)
    requires Places(g) && n in g.active && g.active[n].Journaled?
    ensures Places(CommitStep(g, n))
  {
    hide Notified, NoneLost, InflightHolding, ServedOk, Delivery, Txs, Distinct;
    var ph := g.active[n];
    assert Holding(Txs(g.settlements), g.fates.Keys, ph);
    CommitIdle(g, n);
  }

  lemma {:induction false} CommitIdle(g: State, n: Nonce)
    requires Places(g) && n in g.active && g.active[n].Journaled? && g.active[n].record.tx !in Txs(g.settlements)
    ensures Places(CommitStep(g, n))
  {
    hide Notified, Places, Txs;
    var ph := g.active[n];
    PlacesIdle(g, CommitStep(g, n), n, Committed(ph.p, ph.deferred, ph.record, ph.block, g.now));
  }

  lemma {:induction false} PlacesList(g: State, n: Nonce)
    requires Shape(g) && Places(g) && n in g.active && g.active[n].Committed?
    ensures Places(ListStep(g, n))
  {
    hide Txs, Distinct, NoneLost, InflightHolding, ServedOk, Delivery, ActiveOk, InflightOk, LandedOk;
    var ph := g.active[n];
    var next := Listed(ph.p, ph.deferred, ph.record, ph.block, ph.at);
    assert Holding(Txs(g.settlements), g.fates.Keys, ph);
    hide ActiveHolding;
    TxsSnoc(g.settlements, ph.record);
    ListMove(g.landed, Txs(g.settlements), g.fates.Keys, g.active, g.inflight, n, next);
    DeliveryPut(g.active, n, next);
  }

  lemma {:induction false} StampCounts(g: State, n: Nonce, d: Deferred)
    requires n in g.active && g.active[n].Listed? && n !in g.inflight
    ensures var ph := g.active[n];
            && |g.inflight[n := d]| == |g.inflight| + 1
            && |Delivery(g.active - {n})| == |Delivery(g.active)| - 1
            && |Delivery(g.active[n := Delivering(ph.p, ph.record)])| == |Delivery(g.active)|
  {
    SizeAfterPut(g.inflight, n, d);
    DeliveryDrop(g.active, n);
    assert Delivery(g.active[n := Delivering(g.active[n].p, g.active[n].record)]) == Delivery(g.active);
  }

  lemma {:induction false} PlacesStamp(g: State, n: Nonce, written: bool, receiptKnown: bool)
    requires Shape(g) && Places(g) && n in g.active && g.active[n].Listed?
    ensures Places(StampStep(g, n, written, receiptKnown))
  {
    hide AppendEntry, Txs, Distinct, NoneLost, ActiveHolding, InflightHolding, ServedOk, Delivery, ActiveOk, InflightOk,
         LandedOk;
    var ph := g.active[n];
    var kept := Deferred(ph.p, ph.record, if receiptKnown then ph.block else 0);
    StampMove(g.landed, Txs(g.settlements), g.fates.Keys, g.active, g.inflight, n, Delivering(ph.p, ph.record), kept);
    StampCounts(g, n, kept);
  }

  /** What the end of a delivery changes, whatever the refund does to the token and the journal. */
  lemma {:induction false} PlacesDecided(g: State, g': State, n: Nonce, fate: Fate)
    requires Shape(g) && Places(g) && n in g.active && g.active[n].Delivering?
    requires g'.landed == g.landed && g'.settlements == g.settlements && g'.inflight == g.inflight
    requires g'.active == g.active - {n} && g'.fates == g.fates[g.active[n].record.tx := fate]
    requires g'.served == if fate == Delivered then g.served + [Served(g.active[n].record, n)] else g.served
    ensures Places(g')
  {
    hide NoneLost, ActiveHolding, InflightHolding, ServedOk, Delivery, ActiveOk, InflightOk, LandedOk, Distinct, Txs;
    var ph := g.active[n];
    var tx := ph.record.tx;
    DecideFate(g.landed, Txs(g.settlements), g.fates.Keys, g.active, g.inflight, n);
    assert g'.fates.Keys == g.fates.Keys + {tx};
    if fate == Delivered {
      ServeOne(g.served, g.fates, Served(ph.record, n));
    } else {
      OtherFate(g.served, g.fates, tx, fate);
    }
    SizeAfterPut(g.fates, tx, fate);
    DeliveryDrop(g.active, n);
  }

  lemma {:induction false} PlacesDeliver(g: State, cfg: Config, n: Nonce, delivered: bool, refundTx: TxHash,
      refund: Reply, written: bool)
    requires Shape(g) && Places(g) && n in g.active && g.active[n].Delivering?
    ensures Places(DeliverStep(g, cfg, n, delivered, refundTx, refund, written))
  {
    hide AppendEntry, RefundOutcome, Shape, Places;
    var g' := DeliverStep(g, cfg, n, delivered, refundTx, refund, written);
    PlacesDecided(g, g', n, g'.fates[g.active[n].record.tx]);
  }

  lemma {:induction false} PlacesResume(g: State, cfg: Config, p: Payment, middle: seq<Decision>)
    requires Places(g) && Enabled(g, Resume(p, middle))
    ensures Places(ResumeStep(g, cfg, p, middle))
  {
    hide ChainDecide, NoneLost, ActiveHolding, InflightHolding, ServedOk, Delivery, Distinct, Txs;
    var n := p.auth.nonce;
    var df := g.inflight[n];
    var next := Delivering(df.p, df.record);
    ResumeMove(g.landed, Txs(g.settlements), g.fates.Keys, g.active, g.inflight, n, next);
    SizeAfterDrop(g.inflight, n);
    DeliveryPut(g.active, n, next);
  }

  lemma {:induction false} PlacesKept(g: State, cfg: Config, step: Step)
    requires Shape(g) && Places(g) && Enabled(g, step)
    ensures Places(Next(g, cfg, step))
  {
    hide ArriveStep, DecideStep, SubmitStep, JournalStep, CommitStep, ListStep, StampStep, DeliverStep, ResumeStep,
         AppendEntry;
    hide Shape, Token.StateAfter, Distinct, NoneLost, ActiveHolding, InflightHolding, ServedOk, Delivery, Txs;
    match step
    case Arrive(p) => PlacesArrive(g, cfg, p);
    case DecideOn(n, middle, written) => PlacesDecide(g, cfg, n, middle, written);
    case Submit(n, tx, included, reported, block) => PlacesSubmit(g, cfg, n, tx, included, reported, block);
    case Journal(n, written) => PlacesJournal(g, n, written);
    case CommitIt(n) => PlacesCommit(g, n);
    case ListIt(n) => PlacesList(g, n);
    case StampIt(n, written, receiptKnown) => PlacesStamp(g, n, written, receiptKnown);
    case Deliver(n, delivered, refundTx, refund, written) =>
      PlacesDeliver(g, cfg, n, delivered, refundTx, refund, written);
    case Resume(p, middle) => PlacesResume(g, cfg, p, middle);
    case RevokeIt(_, _, _) =>
    case Outside(_) =>
    case Tick(_, _) =>
  }

  // ---- Whole runs ----

  lemma {:induction false} StartPlaced(token: Token.TokenState, head: nat, now: int)
    ensures Shape(Started(token, head, now)) && Places(Started(token, head, now))
  {}

  lemma {:induction false} RunPlaced(token: Token.TokenState, head: nat, now: int, cfg: Config, steps: seq<Step>)
    requires ValidRun(Started(token, head, now), cfg, steps)
    ensures var g := After(Started(token, head, now), cfg, steps); Shape(g) && Places(g)
  {
    hide Shape, Places, Next;
    if steps == [] {
      StartPlaced(token, head, now);
    } else {
      var g0 := Started(token, head, now);
      RunPlaced(token, head, now, cfg, Init(steps));
      ShapeKept(After(g0, cfg, Init(steps)), cfg, Last(steps));
      PlacesKept(After(g0, cfg, Init(steps)), cfg, Last(steps));
    }
  }

  /** In every reachable state the recorded settlements are the delivered, refunded and refund
      pending ones plus those deferred and those being delivered, each counted once. */
  lemma {:induction false} SettlementsConserved(token: Token.TokenState, head: nat, now: int, cfg: Config,
      steps: seq<Step>)
    requires ValidRun(Started(token, head, now), cfg, steps)
    ensures var g := After(Started(token, head, now), cfg, steps);
            && |g.settlements| == |g.fates| + |g.inflight| + |Delivery(g.active)|
            && (forall tx :: tx in Txs(g.settlements) <==>
                  || tx in g.fates
                  || (exists n :: InDelivery(g.active, n, tx))
                  || (exists n :: InDeferral(g.inflight, n, tx)))
            && (forall tx, n :: tx in g.fates ==> !InDelivery(g.active, n, tx) && !InDeferral(g.inflight, n, tx))
  {
    RunPlaced(token, head, now, cfg, steps);
    var g := After(Started(token, head, now), cfg, steps);
    PlacesPartition(g);
  }

  lemma {:induction false} PlacesPartition(g: State)
    requires Shape(g) && Places(g)
    ensures forall tx :: tx in Txs(g.settlements) <==>
              || tx in g.fates
              || (exists n :: InDelivery(g.active, n, tx))
              || (exists n :: InDeferral(g.inflight, n, tx))
    ensures forall tx, n :: tx in g.fates ==> !InDelivery(g.active, n, tx) && !InDeferral(g.inflight, n, tx)
  {
    hide Distinct, Txs, ServedOk, Delivery;
  }

  /** Each authorization settles at most once: two recorded settlements never spend the same one. */
  lemma {:induction false} SettledAtMostOnce(token: Token.TokenState, head: nat, now: int, cfg: Config,
      steps: seq<Step>, i: nat, j: nat)
    requires ValidRun(Started(token, head, now), cfg, steps)
    requires i < j < |After(Started(token, head, now), cfg, steps).settlements|
    ensures var g := After(Started(token, head, now), cfg, steps);
            && g.settlements[i].tx in g.landed && g.settlements[j].tx in g.landed
            && g.landed[g.settlements[i].tx] != g.landed[g.settlements[j].tx]
  {
    hide Next;
    RunPlaced(token, head, now, cfg, steps);
    var g := After(Started(token, head, now), cfg, steps);
    DistinctAt(g.settlements, i, j);
  }

  /** Each authorization is served at most once, and only after it settled. */
  lemma {:induction false} ServedAtMostOnce(token: Token.TokenState, head: nat, now: int, cfg: Config, steps: seq<Step>,
      i: nat, j: nat)
    requires ValidRun(Started(token, head, now), cfg, steps)
    requires i < j < |After(Started(token, head, now), cfg, steps).served|
    ensures var g := After(Started(token, head, now), cfg, steps);
            var x, y := g.served[i].record.tx, g.served[j].record.tx;
            && x in Txs(g.settlements) && y in Txs(g.settlements)
            && x in g.landed && y in g.landed && g.landed[x] != g.landed[y]
  {
    hide Next;
    RunPlaced(token, head, now, cfg, steps);
    var g := After(Started(token, head, now), cfg, steps);
    RecordsAt(g.served);
    DistinctAt(Records(g.served), i, j);
    ServedSettled(g, i);
    ServedSettled(g, j);
  }

  lemma {:induction false} ServedSettled(g: State, i: nat)
    requires Places(g) && i < |g.served|
    ensures var tx := g.served[i].record.tx; tx in Txs(g.settlements) && tx in g.landed
  {
    RecordsAt(g.served);
    TxsAt(Records(g.served), i);
  }

  lemma {:induction false} RecordsAt(served: seq<Served>)
    ensures |Records(served)| == |served|
    ensures forall i :: 0 <= i < |served| ==> Records(served)[i] == served[i].record
  {
    if served != [] {
      RecordsAt(Init(served));
      assert forall i :: 0 <= i < |Init(served)| ==> Init(served)[i] == served[i];
    }
  }

  lemma {:induction false} TxsAt(s: seq<Record>, i: nat)
    requires i < |s|
    ensures s[i].tx in Txs(s)
  {
    if i < |s| - 1 {
      TxsAt(Init(s), i);
    }
  }

  lemma {:induction false} DistinctAt(s: seq<Record>, i: nat, j: nat)
    requires Distinct(s) && i < j < |s|
    ensures s[i].tx != s[j].tx && s[i].tx in Txs(s) && s[j].tx in Txs(s)
  {
    TxsAt(s, i);
    TxsAt(s, j);
    if j < |s| - 1 {
      DistinctAt(Init(s), i, j);
    } else {
      TxsAt(Init(s), i);
    }
  }
}
