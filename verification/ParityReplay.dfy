/** A gateway's accepted payments, replayed on the contract. What the gateway reserves and later
    commits under a mandate, DelegatedSpend.pay accepts under the same terms, each payment at the
    time of its reservation: scope, fixed window, deposit and token transfer alike. */
module ParityReplay {
  import opened Common
  import opened MandateAccounts
  import opened MandateBounds
  import opened Parity
  import Policy
  import DelegatedSpend
  import SpendSafety
  import Stablecoin

  /** What happens to a mandate at the gateway: a payment is judged against the revocations known by
      then, a settlement succeeds, a settlement fails. */
  datatype Happening =
    | Judged(now: int, revoked: Policy.Revocations, r: Policy.Request)
    | Succeeded(now: int, nonce: Nonce)
    | Failed(now: int, nonce: Nonce)

  ghost function AccountsAfter(settings: Policy.Settings, m: Mandate, hs: seq<Happening>): Accounts {
    if hs == [] then map[]
    else
      var before := AccountsAfter(settings, m, Init(hs));
      match Last(hs)
      case Judged(now, revoked, r) => Policy.Decide(settings, revoked, before, r, now, Policy.PreSettlement).1
      case Succeeded(now, nonce) => Commit(before, m, nonce, now)
      case Failed(_, nonce) => Release(before, m, nonce)
  }

  /** A payment the policy held, when it was reserved, and whether it has been committed since. */
  datatype Held = Held(at: int, revoked: Policy.Revocations, r: Policy.Request, done: bool)

  /** All the payments held so far, oldest reservation first. A failure or a new reservation of the
      nonce drops one that is still pending. */
  ghost function HeldAfter(settings: Policy.Settings, m: Mandate, hs: seq<Happening>): seq<Held> {
    if hs == [] then []
    else
      var held := HeldAfter(settings, m, Init(hs));
      match Last(hs)
      case Judged(now, revoked, r) =>
        if Policy.Holds(settings, revoked, AccountsAfter(settings, m, Init(hs)), r, now)
        then Without(held, r.nonce) + [Held(now, revoked, r, false)] else held
      case Succeeded(_, nonce) => Marked(held, nonce)
      case Failed(_, nonce) => Without(held, nonce)
  }

  predicate PendingFor(x: Held, nonce: Nonce) { !x.done && x.r.nonce == nonce }

  function Without(held: seq<Held>, nonce: Nonce): seq<Held> {
    if held == [] then []
    else if PendingFor(Last(held), nonce) then Without(Init(held), nonce)
    else Without(Init(held), nonce) + [Last(held)]
  }

  function Marked(held: seq<Held>, nonce: Nonce): seq<Held> {
    if held == [] then []
    else Marked(Init(held), nonce) + [if PendingFor(Last(held), nonce) then Last(held).(done := true) else Last(held)]
  }

  /** The payments that were committed, in the order of their reservations. */
  function Paid(held: seq<Held>): seq<Held> {
    if held == [] then []
    else if Last(held).done then Paid(Init(held)) + [Last(held)]
    else Paid(Init(held))
  }

  /** The amount the gateway has committed under the mandate. */
  ghost function Spent(settings: Policy.Settings, m: Mandate, hs: seq<Happening>): nat {
    if hs == [] then 0
    else
      var reserved := AccountOf(AccountsAfter(settings, m, Init(hs)), m.id).reserved;
      Spent(settings, m, Init(hs)) +
      if Last(hs).Succeeded? && Last(hs).nonce in reserved then reserved[Last(hs).nonce].amount else 0
  }

  /** The agent pays them all from the deposit, each at the second of its reservation. */
  function PayAll(w: DelegatedSpend.World, self: Address, id: DelegatedSpend.MandateId,
      paid: seq<Held>): Option<DelegatedSpend.World> {
    if paid == [] then Some(w)
    else
      match PayAll(w, self, id, Init(paid))
      case None => None
      case Some(w') =>
        var x := Last(paid);
        if x.r.payer.None? || x.r.amount >= Stablecoin.WORD_SPACE then None
        else DelegatedSpend.Pay(w', self, x.r.payer.value, Seconds(x.at), id, x.r.payTo, x.r.amount)
  }

  // ---- Amounts ----

  function AmountSince(held: seq<Held>, k: int): nat {
    if held == [] then 0 else AmountSince(Init(held), k) + if Last(held).at >= k then Last(held).r.amount else 0
  }

  function DoneSince(held: seq<Held>, k: int): nat {
    if held == [] then 0
    else DoneSince(Init(held), k) + if Last(held).done && Last(held).at >= k then Last(held).r.amount else 0
  }

  function Pending(held: seq<Held>): nat {
    if held == [] then 0 else Pending(Init(held)) + if Last(held).done then 0 else Last(held).r.amount
  }

  function PendingOf(held: seq<Held>, nonce: Nonce): nat {
    if held == [] then 0
    else PendingOf(Init(held), nonce) + if PendingFor(Last(held), nonce) then Last(held).r.amount else 0
  }

  lemma {:induction false} Parts(held: seq<Held>, k: int)
    ensures AmountSince(held, k) <= DoneSince(held, k) + Pending(held)
  {
    if held != [] {
      Parts(Init(held), k);
    }
  }

  lemma {:induction false} WithoutAmounts(held: seq<Held>, nonce: Nonce, k: int, other: Nonce)
    ensures AmountSince(Without(held, nonce), k) <= AmountSince(held, k)
    ensures DoneSince(Without(held, nonce), k) == DoneSince(held, k)
    ensures Pending(Without(held, nonce)) == Pending(held) - PendingOf(held, nonce)
    ensures PendingOf(Without(held, nonce), other) == if other == nonce then 0 else PendingOf(held, other)
  {
    if held != [] {
      WithoutAmounts(Init(held), nonce, k, other);
      InitOfSnoc(Without(Init(held), nonce), Last(held));
    }
  }

  lemma {:induction false} MarkedAmounts(held: seq<Held>, nonce: Nonce, k: int, other: Nonce)
    ensures AmountSince(Marked(held, nonce), k) == AmountSince(held, k)
    ensures DoneSince(Marked(held, nonce), k) <= DoneSince(held, k) + PendingOf(held, nonce)
    ensures Pending(Marked(held, nonce)) == Pending(held) - PendingOf(held, nonce)
    ensures PendingOf(Marked(held, nonce), other) == if other == nonce then 0 else PendingOf(held, other)
  {
    if held != [] {
      MarkedAmounts(Init(held), nonce, k, other);
      InitOfSnoc(Marked(Init(held), nonce),
                 if PendingFor(Last(held), nonce) then Last(held).(done := true) else Last(held));
    }
  }

  /** Reservation times run forward, up to `to`. */
  ghost predicate Timed(held: seq<Held>, to: int) {
    held != [] ==> Timed(Init(held), Last(held).at) && 0 <= Last(held).at <= to
  }

  /** All amounts count from the beginning of time, and none from the future. */
  lemma {:induction false} MarkedEnds(held: seq<Held>, nonce: Nonce, to: int, k: int)
    requires Timed(held, to)
    ensures DoneSince(Marked(held, nonce), 0) == DoneSince(held, 0) + PendingOf(held, nonce)
    ensures k > to ==> DoneSince(Marked(held, nonce), k) == 0
  {
    if held != [] {
      MarkedEnds(Init(held), nonce, Last(held).at, k);
      InitOfSnoc(Marked(Init(held), nonce),
                 if PendingFor(Last(held), nonce) then Last(held).(done := true) else Last(held));
    }
  }

  // ---- What is kept of every payment held ----

  /** At each reservation, the payments reserved within the window before it fit the budget. */
  ghost predicate Windowed(held: seq<Held>, window: int, budget: int) {
    held != [] ==>
      && Windowed(Init(held), window, budget)
      && AmountSince(held, Last(held).at - window) <= budget
  }

  /** A mandate, its registration on chain, and the contract's account at the token. */
  datatype Setup = Setup(m: Mandate, o: DelegatedSpend.OnchainMandate, controls: Stablecoin.Controls, self: Address)

  /** The policy passed this payment. */
  predicate Sound(m: Mandate, x: Held) {
    && x.r.mandate == Some(m) && !x.r.confirmed
    && Policy.Entitlement(x.revoked, x.r, x.at).None?
    && !Policy.OverCap(m, x.r)
  }

  /** The moment lies after the registration and within the reach of a word, and the token lets the
      contract pay the recipient. */
  predicate Payable(s: Setup, at: int, to: Address) {
    && at >= 0
    && s.o.windowStart <= Seconds(at) <= Stablecoin.MAX_WORD - LONGEST_WINDOW_SECONDS
    && (s.o.terms.budgetWindowSeconds == 0 ==> at - s.o.windowStart * SECOND <= ALL_TIME)
    && Stablecoin.MayMove(s.controls, s.self, to)
  }

  ghost predicate AllFit(held: seq<Held>, s: Setup) {
    held != [] ==> AllFit(Init(held), s) && Sound(s.m, Last(held))
  }

  /** Each of these payments could be made on chain at its moment, as far as the token and the range of a
      word go, and none falls into the first second of validity. */
  ghost predicate Ready(paid: seq<Held>, s: Setup) {
    paid != [] ==>
      && Ready(Init(paid), s)
      && Payable(s, Last(paid).at, Last(paid).r.payTo) && Seconds(Last(paid).at) != s.m.validAfter
  }

  ghost predicate Kept(held: seq<Held>, to: int, s: Setup) {
    && Timed(held, to)
    && AllFit(held, s)
    && Windowed(held, WindowDur(s.m.budgetWindowSeconds), s.m.budgetAmount)
  }

  /** One more payment. */
  lemma {:induction false} KeptSnoc(held: seq<Held>, x: Held, to: int, s: Setup)
    requires Kept(held, x.at, s) && 0 <= x.at <= to && Sound(s.m, x)
    requires AmountSince(held, x.at - WindowDur(s.m.budgetWindowSeconds)) + x.r.amount <= s.m.budgetAmount
    requires WindowDur(s.m.budgetWindowSeconds) >= 0
    ensures Kept(held + [x], to, s)
  {
    hide Sound, Payable, WindowDur;
    InitOfSnoc(held, x);
  }

  lemma {:induction false} KeptInit(held: seq<Held>, to: int, s: Setup)
    requires Kept(held, to, s) && held != []
    ensures Kept(Init(held), Last(held).at, s) && 0 <= Last(held).at <= to
    ensures Sound(s.m, Last(held))
    ensures AmountSince(held, Last(held).at - WindowDur(s.m.budgetWindowSeconds)) <= s.m.budgetAmount
  {
    hide Sound, Payable, WindowDur, AmountSince;
  }

  lemma {:induction false} KeptLater(held: seq<Held>, to: int, later: int, s: Setup)
    requires Kept(held, to, s) && to <= later
    ensures Kept(held, later, s)
  {
    hide AllFit, Windowed;
  }

  lemma {:induction false} WithoutKeeps(held: seq<Held>, nonce: Nonce, to: int, s: Setup)
    requires Kept(held, to, s) && WindowDur(s.m.budgetWindowSeconds) >= 0
    ensures Kept(Without(held, nonce), to, s)
  {
    if held != [] {
      hide Sound, Payable, WindowDur, Kept;
      var x := Last(held);
      KeptInit(held, to, s);
      WithoutKeeps(Init(held), nonce, x.at, s);
      if PendingFor(x, nonce) {
        KeptLater(Without(Init(held), nonce), x.at, to, s);
      } else {
        WithoutAmounts(Init(held), nonce, x.at - WindowDur(s.m.budgetWindowSeconds), nonce);
        KeptSnoc(Without(Init(held), nonce), x, to, s);
      }
    }
  }

  lemma {:induction false} MarkedKeeps(held: seq<Held>, nonce: Nonce, to: int, s: Setup)
    requires Kept(held, to, s) && WindowDur(s.m.budgetWindowSeconds) >= 0
    ensures Kept(Marked(held, nonce), to, s)
  {
    if held != [] {
      hide Payable, WindowDur, Kept, Policy.Entitlement, Policy.OverCap;
      var x := Last(held);
      KeptInit(held, to, s);
      MarkedKeeps(Init(held), nonce, x.at, s);
      MarkedAmounts(Init(held), nonce, x.at - WindowDur(s.m.budgetWindowSeconds), nonce);
      KeptSnoc(Marked(Init(held), nonce), if PendingFor(x, nonce) then x.(done := true) else x, to, s);
    }
  }

  lemma {:induction false} PaidAmounts(held: seq<Held>, k: int)
    ensures AmountSince(Paid(held), k) == DoneSince(held, k) <= AmountSince(held, k)
  {
    if held != [] {
      PaidAmounts(Init(held), k);
      InitOfSnoc(Paid(Init(held)), Last(held));
    }
  }

  lemma {:induction false} PaidKeeps(held: seq<Held>, to: int, s: Setup)
    requires Kept(held, to, s) && WindowDur(s.m.budgetWindowSeconds) >= 0
    ensures Kept(Paid(held), to, s)
  {
    if held != [] {
      hide Sound, Payable, WindowDur, Kept;
      var x := Last(held);
      KeptInit(held, to, s);
      PaidKeeps(Init(held), x.at, s);
      if x.done {
        PaidAmounts(Init(held), x.at - WindowDur(s.m.budgetWindowSeconds));
        KeptSnoc(Paid(Init(held)), x, to, s);
      } else {
        KeptLater(Paid(Init(held)), x.at, to, s);
      }
    }
  }

  // ---- The gateway's accounting ----

  ghost predicate Orderly(hs: seq<Happening>) {
    && (forall i :: 0 <= i < |hs| ==> hs[i].now >= 0)
    && (forall i, j :: 0 <= i < j < |hs| ==> hs[i].now <= hs[j].now)
  }

  lemma {:induction false} OrderlyInit(hs: seq<Happening>)
    requires Orderly(hs) && hs != []
    ensures Orderly(Init(hs)) && Last(hs).now >= 0
    ensures Init(hs) != [] ==> Last(Init(hs)).now <= Last(hs).now
  {
    assert hs[|hs| - 1] == Last(hs);
    assert forall i :: 0 <= i < |Init(hs)| ==> Init(hs)[i] == hs[i];
    if |hs| > 1 {
      assert Last(Init(hs)) == hs[|hs| - 2];
    }
  }

  /** The accounting operations behind the happenings: only an entitled payment within the cap is
      put to the windows. */
  function OpsOf(m: Mandate, h: Happening): seq<Event> {
    match h
    case Judged(now, revoked, r) =>
      if Policy.Entitlement(revoked, r, now).None? && !Policy.OverCap(m, r)
      then [Event(now, Reserving(r.nonce, r.amount, r.confirmed))] else []
    case Succeeded(now, nonce) => [Event(now, Committing(nonce))]
    case Failed(now, nonce) => [Event(now, Releasing(nonce))]
  }

  ghost function TrackedAfter(m: Mandate, hs: seq<Happening>): Tracked {
    if hs == [] then Start
    else
      var ops := OpsOf(m, Last(hs));
      if ops == [] then TrackedAfter(m, Init(hs)) else Step(TrackedAfter(m, Init(hs)), m, ops[0])
  }

  ghost predicate UnderOne(m: Mandate, hs: seq<Happening>) {
    forall h :: h in hs && h.Judged? ==> h.r.mandate == Some(m) && !h.r.confirmed
  }

  lemma {:induction false} UnderOneInit(m: Mandate, hs: seq<Happening>)
    requires UnderOne(m, hs) && hs != []
    ensures UnderOne(m, Init(hs)) && (Last(hs).Judged? ==> Last(hs).r.mandate == Some(m) && !Last(hs).r.confirmed)
  {
    assert Last(hs) in hs && forall h :: h in Init(hs) ==> h in hs;
  }

  /** The policy's account of the mandate is the one the window bounds are proved of. */
  lemma {:induction false} AccountIsTracked(settings: Policy.Settings, m: Mandate, hs: seq<Happening>)
    requires UnderOne(m, hs)
    ensures AccountOf(AccountsAfter(settings, m, hs), m.id) == TrackedAfter(m, hs).acct
  {
    if hs != [] {
      hide VerdictOf, Policy.Entitlement, Policy.OverCap, Pruned, MaxWindow;
      UnderOneInit(m, hs);
      AccountIsTracked(settings, m, Init(hs));
      if Last(hs).Judged? {
        Policy.EntitledHasMandate(Last(hs).revoked, Last(hs).r, Last(hs).now);
      }
    }
  }

  lemma {:induction false} TrackedInv(m: Mandate, hs: seq<Happening>, now: int)
    requires Orderly(hs) && (hs != [] ==> Last(hs).now <= now)
    ensures Inv(TrackedAfter(m, hs), m, now)
  {
    hide Inv, Step;
    if hs == [] {
      StartInv(m, now);
    } else {
      OrderlyInit(hs);
      var last := Last(hs).now;
      TrackedInv(m, Init(hs), last);
      var ops := OpsOf(m, Last(hs));
      if ops != [] {
        StepKeeps(TrackedAfter(m, Init(hs)), m, last, ops[0]);
      }
      TimePasses(TrackedAfter(m, hs), m, last, now);
    }
  }

  /** The payments held are the account: what is pending is reserved, what is done was counted no
      earlier than it was reserved. */
  ghost predicate Matches(held: seq<Held>, t: Tracked, spent: nat) {
    && (forall k: int :: DoneSince(held, k) <= Since(t.history, k, true))
    && DoneSince(held, 0) == spent
    && Pending(held) == ReservedAmount(t.acct.reserved)
    && forall n: Nonce :: PendingOf(held, n) == Lookup(Amounts(t.acct.reserved), n)
  }

  lemma {:induction false} MatchReserve(held: seq<Held>, t: Tracked, spent: nat, m: Mandate, now: int,
      revoked: Policy.Revocations, r: Policy.Request)
    requires Matches(held, t, spent) && VerdictOf(t.acct, m, r.amount, now, r.confirmed) == Fits
    ensures Matches(Without(held, r.nonce) + [Held(now, revoked, r, false)],
                    Step(t, m, Event(now, Reserving(r.nonce, r.amount, r.confirmed))), spent)
  {
    var rest, x := Without(held, r.nonce), Held(now, revoked, r, false);
    var t' := Step(t, m, Event(now, Reserving(r.nonce, r.amount, r.confirmed)));
    assert t'.history == t.history && t'.acct.reserved == t.acct.reserved[r.nonce := Spend(now, r.amount)];
    hide Step, VerdictOf, Since, Without;
    InitOfSnoc(rest, x);
    WithoutAmounts(held, r.nonce, 0, r.nonce);
    ReservedAfterPut(t.acct.reserved, r.nonce, Spend(now, r.amount));
    forall k: int ensures DoneSince(rest + [x], k) <= Since(t.history, k, true) {
      WithoutAmounts(held, r.nonce, k, r.nonce);
    }
    forall n: Nonce ensures PendingOf(rest + [x], n) == Lookup(Amounts(t'.acct.reserved), n) {
      WithoutAmounts(held, r.nonce, 0, n);
      assert PendingOf(held, n) == Lookup(Amounts(t.acct.reserved), n);
    }
  }

  lemma {:induction false} MatchRelease(held: seq<Held>, t: Tracked, spent: nat, m: Mandate, now: int, nonce: Nonce)
    requires Matches(held, t, spent)
    ensures Matches(Without(held, nonce), Step(t, m, Event(now, Releasing(nonce))), spent)
  {
    hide Since, Without;
    ReservedAfterDrop(t.acct.reserved, nonce);
    WithoutAmounts(held, nonce, 0, nonce);
    forall k: int ensures DoneSince(Without(held, nonce), k) <= Since(t.history, k, true) {
      WithoutAmounts(held, nonce, k, nonce);
    }
    forall n: Nonce ensures PendingOf(Without(held, nonce), n) == Lookup(Amounts(t.acct.reserved - {nonce}), n) {
      WithoutAmounts(held, nonce, 0, n);
      assert PendingOf(held, n) == Lookup(Amounts(t.acct.reserved), n);
    }
  }

  lemma {:induction false} CommitEffect(t: Tracked, m: Mandate, now: int, nonce: Nonce)
    ensures var t' := Step(t, m, Event(now, Committing(nonce)));
            var amount := Lookup(Amounts(t.acct.reserved), nonce);
            && amount >= 0
            && t'.acct.reserved == t.acct.reserved - {nonce}
            && (nonce in t.acct.reserved ==>
                  t'.history == t.history + [Committed(now, amount, nonce in t.waived)]
                    && amount == t.acct.reserved[nonce].amount)
            && (nonce !in t.acct.reserved ==> t'.history == t.history && amount == 0)
  {
    hide Pruned, MaxWindow;
  }

  lemma {:induction false} MatchCommit(held: seq<Held>, t: Tracked, spent: nat, m: Mandate, now: int, nonce: Nonce)
    requires Matches(held, t, spent) && Timed(held, now)
    ensures Matches(Marked(held, nonce), Step(t, m, Event(now, Committing(nonce))), spent + PendingOf(held, nonce))
  {
    hide Step, Since, Marked, Amounts, Timed, DoneSince, Pending, PendingOf;
    var t' := Step(t, m, Event(now, Committing(nonce)));
    CommitEffect(t, m, now, nonce);
    var amount := Lookup(Amounts(t.acct.reserved), nonce);
    assert PendingOf(held, nonce) == amount;
    ReservedAfterDrop(t.acct.reserved, nonce);
    MarkedAmounts(held, nonce, 0, nonce);
    MarkedEnds(held, nonce, now, 0);
    forall k: int ensures DoneSince(Marked(held, nonce), k) <= Since(t'.history, k, true) {
      MarkedAmounts(held, nonce, k, nonce);
      MarkedEnds(held, nonce, now, k);
      SinceSnoc(t.history, Committed(now, amount, nonce in t.waived), k, k, true);
    }
    forall n: Nonce ensures PendingOf(Marked(held, nonce), n) == Lookup(Amounts(t'.acct.reserved), n) {
      MarkedAmounts(held, nonce, 0, n);
      AmountsDrop(t.acct.reserved, nonce, n);
      assert PendingOf(held, n) == Lookup(Amounts(t.acct.reserved), n);
    }
  }

  lemma {:induction false} AmountsDrop(reserved: map<Nonce, Spend>, nonce: Nonce, n: Nonce)
    ensures Lookup(Amounts(reserved - {nonce}), n) == if n == nonce then 0 else Lookup(Amounts(reserved), n)
  {}

  /** A reservation that fits the sliding window at its time. */
  lemma {:induction false} ReserveFits(held: seq<Held>, t: Tracked, spent: nat, m: Mandate, now: int, nonce: Nonce,
      amount: nat)
    requires Matches(held, t, spent) && Inv(t, m, now) && m.budgetAmount > 0
    requires VerdictOf(t.acct, m, amount, now, false) == Fits
    ensures AmountSince(Without(held, nonce), now - WindowDur(m.budgetWindowSeconds)) + amount <= m.budgetAmount
  {
    hide WindowDur, Without, AmountFrom, Since, DoneSince, Pending;
    var k := now - WindowDur(m.budgetWindowSeconds);
    assert AmountFrom(t.acct.spends, k) == Since(t.history, k, true);
    WithoutAmounts(held, nonce, k, nonce);
    Parts(held, k);
  }

  // ---- Everything the gateway holds is kept ----

  lemma {:induction false} HeldKept(settings: Policy.Settings, hs: seq<Happening>, s: Setup, now: int)
    requires Orderly(hs) && UnderOne(s.m, hs) && (hs != [] ==> Last(hs).now <= now)
    requires s.m.budgetAmount > 0 && WindowDur(s.m.budgetWindowSeconds) >= 0
    ensures var held := HeldAfter(settings, s.m, hs);
            Kept(held, now, s) && Matches(held, TrackedAfter(s.m, hs), Spent(settings, s.m, hs))
  {
    hide Kept, Matches, Payable, WindowDur, Policy.Decide, Policy.Holds, Policy.Entitlement, Policy.OverCap, Step,
         OpsOf;
    if hs == [] {
      NothingHeld(now, s);
    } else {
      OrderlyInit(hs);
      UnderOneInit(s.m, hs);
      HeldKept(settings, Init(hs), s, Last(hs).now);
      HeldStep(settings, hs, s);
      KeptLater(HeldAfter(settings, s.m, hs), Last(hs).now, now, s);
    }
  }

  lemma {:induction false} NothingHeld(now: int, s: Setup)
    ensures Kept([], now, s) && Matches([], Start, 0)
  {
    assert Amounts(Start.acct.reserved) == map[];
    SumEmpty();
  }

  lemma {:induction false} HeldStep(settings: Policy.Settings, hs: seq<Happening>, s: Setup)
    requires hs != [] && Orderly(hs) && UnderOne(s.m, hs)
    requires s.m.budgetAmount > 0 && WindowDur(s.m.budgetWindowSeconds) >= 0
    requires var held := HeldAfter(settings, s.m, Init(hs));
             Kept(held, Last(hs).now, s) && Matches(held, TrackedAfter(s.m, Init(hs)), Spent(settings, s.m, Init(hs)))
    ensures var held := HeldAfter(settings, s.m, hs);
            Kept(held, Last(hs).now, s) && Matches(held, TrackedAfter(s.m, hs), Spent(settings, s.m, hs))
  {
    hide Kept, Payable, WindowDur, Policy.Decide, Step, Without, Marked, Since, DoneSince, Pending, Amounts;
    var before, last := Init(hs), Last(hs);
    var held := HeldAfter(settings, s.m, before);
    var t := TrackedAfter(s.m, before);
    UnderOneInit(s.m, hs);
    AccountIsTracked(settings, s.m, before);
    match last
    case Judged(now, revoked, r) => JudgedStep(settings, hs, s);
    case Succeeded(now, nonce) =>
      assert Timed(held, now) by { KeptTimed(held, now, s); }
      MarkedKeeps(held, nonce, now, s);
      MatchCommit(held, t, Spent(settings, s.m, before), s.m, now, nonce);
      SpentNow(held, t, Spent(settings, s.m, before), nonce);
    case Failed(now, nonce) =>
      WithoutKeeps(held, nonce, now, s);
      MatchRelease(held, t, Spent(settings, s.m, before), s.m, now, nonce);
  }

  lemma {:induction false} KeptTimed(held: seq<Held>, to: int, s: Setup)
    requires Kept(held, to, s)
    ensures Timed(held, to)
  {}

  lemma {:induction false} SpentNow(held: seq<Held>, t: Tracked, spent: nat, nonce: Nonce)
    requires Matches(held, t, spent)
    ensures PendingOf(held, nonce) == if nonce in t.acct.reserved then t.acct.reserved[nonce].amount else 0
  {}

  lemma {:induction false} JudgedStep(settings: Policy.Settings, hs: seq<Happening>, s: Setup)
    requires hs != [] && Last(hs).Judged? && Orderly(hs) && UnderOne(s.m, hs)
    requires s.m.budgetAmount > 0 && WindowDur(s.m.budgetWindowSeconds) >= 0
    requires var held := HeldAfter(settings, s.m, Init(hs));
             Kept(held, Last(hs).now, s) && Matches(held, TrackedAfter(s.m, Init(hs)), Spent(settings, s.m, Init(hs)))
    ensures var held := HeldAfter(settings, s.m, hs);
            Kept(held, Last(hs).now, s) && Matches(held, TrackedAfter(s.m, hs), Spent(settings, s.m, hs))
  {
    hide Kept, Matches, Payable, WindowDur, Policy.Decide, Policy.Entitlement, Policy.OverCap, Step, Without, VerdictOf;
    var before, now, r := Init(hs), Last(hs).now, Last(hs).r;
    var held := HeldAfter(settings, s.m, before);
    var t := TrackedAfter(s.m, before);
    var spent := Spent(settings, s.m, before);
    var x := Held(now, Last(hs).revoked, r, false);
    UnderOneInit(s.m, hs);
    AccountIsTracked(settings, s.m, before);
    assert Last(hs) in hs;
    if Policy.Holds(settings, x.revoked, AccountsAfter(settings, s.m, before), r, now) {
      OrderlyInit(hs);
      TrackedInv(s.m, before, now);
      MatchReserve(held, t, spent, s.m, now, x.revoked, r);
      ReserveFits(held, t, spent, s.m, now, r.nonce, r.amount);
      WithoutKeeps(held, r.nonce, now, s);
      KeptSnoc(Without(held, r.nonce), x, now, s);
    } else if OpsOf(s.m, Last(hs)) != [] {
      RefusedChangesNothing(t, s.m, now, r);
    }
  }

  lemma {:induction false} RefusedChangesNothing(t: Tracked, m: Mandate, now: int, r: Policy.Request)
    requires VerdictOf(t.acct, m, r.amount, now, r.confirmed) != Fits
    ensures Step(t, m, Event(now, Reserving(r.nonce, r.amount, r.confirmed))) == t
  {
    hide VerdictOf;
  }

  // ---- On chain ----

  /** The payments as the window lemmas read them. */
  function AsHistory(paid: seq<Held>): seq<Committed> {
    if paid == [] then [] else AsHistory(Init(paid)) + [Committed(Last(paid).at, Last(paid).r.amount, false)]
  }

  lemma {:induction false} HistoryAmount(paid: seq<Held>, k: int)
    ensures Since(AsHistory(paid), k, true) == AmountSince(paid, k)
  {
    if paid != [] {
      HistoryAmount(Init(paid), k);
      InitOfSnoc(AsHistory(Init(paid)), Committed(Last(paid).at, Last(paid).r.amount, false));
    }
  }

  lemma {:induction false} HistoryChronological(paid: seq<Held>, to: int)
    requires Timed(paid, to)
    ensures Chronological(AsHistory(paid)) && TimesUpTo(AsHistory(paid), to)
  {
    if paid != [] {
      HistoryChronological(Init(paid), Last(paid).at);
    }
  }

  /** Fitting the window at each payment is fitting it everywhere. */
  lemma {:induction false} WindowedSlides(paid: seq<Held>, to: int, window: int, budget: int, lo: int, hi: int)
    requires Timed(paid, to) && Windowed(paid, window, budget) && hi - lo <= window && budget >= 0
    ensures Between(AsHistory(paid), lo, hi, true) <= budget
  {
    if paid != [] {
      var x := Last(paid);
      WindowedSlides(Init(paid), x.at, window, budget, lo, hi);
      var c := Committed(x.at, x.r.amount, false);
      SinceSnoc(AsHistory(Init(paid)), c, lo, hi, true);
      if lo <= x.at <= hi {
        hide Between, Since, Timed, Windowed;
        BetweenWithinSince(AsHistory(paid), lo, hi, true);
        SinceShrinks(AsHistory(paid), x.at - window, lo, true);
        HistoryAmount(paid, x.at - window);
      }
    }
  }

  lemma {:induction false} HistoryCovered(paid: seq<Held>, to: int, s: Setup)
    requires Kept(paid, to, s) && Ready(paid, s) && SameTerms(s.m, s.o)
    ensures Covered(s.o, AsHistory(paid)) && WordSized(AsHistory(paid))
  {
    hide WindowDur, Between, Windowed, AllFit, Seconds;
    HistoryChronological(paid, to);
    forall lo, hi | hi - lo <= WindowDur(s.o.terms.budgetWindowSeconds)
      ensures Between(AsHistory(paid), lo, hi, true) <= s.o.terms.budgetAmount
    {
      WindowedSlides(paid, to, WindowDur(s.m.budgetWindowSeconds), s.m.budgetAmount, lo, hi);
    }
    HistoryEach(paid, s);
  }

  lemma {:induction false} HistoryEach(paid: seq<Held>, s: Setup)
    requires AllFit(paid, s) && Ready(paid, s) && SameTerms(s.m, s.o)
    ensures WordSized(AsHistory(paid))
    ensures var h := AsHistory(paid); forall i :: 0 <= i < |h| ==>
              && s.o.windowStart <= Seconds(h[i].at) <= Stablecoin.MAX_WORD - LONGEST_WINDOW_SECONDS
              && (s.o.terms.budgetWindowSeconds == 0 ==> h[i].at - s.o.windowStart * SECOND <= ALL_TIME)
  {
    if paid != [] {
      HistoryEach(Init(paid), s);
      hide Seconds, Policy.Entitlement;
      assert Last(paid).r.amount < Stablecoin.WORD_SPACE;
    }
  }

  lemma {:induction false} ChargeKeepsTerms(o: DelegatedSpend.OnchainMandate, t: nat, amount: Stablecoin.Word)
    ensures var r := DelegatedSpend.Charge(o, t, amount);
            r.Some? ==> r.value == o.(windowStart := r.value.windowStart, windowSpent := r.value.windowSpent)
  {}

  lemma {:induction false} TransferGoesThrough(w: DelegatedSpend.World, s: Setup, to: Address, amount: Stablecoin.Word)
    requires SpendSafety.Covered(w, s.self) && Stablecoin.Solid(w.token)
    requires w.token.controls == s.controls && !s.controls.paused && Stablecoin.MayMove(s.controls, s.self, to)
    requires w.DepositOf(s.m.delegator) >= amount
    ensures var r := Stablecoin.Transfer(w.token, s.self, to, amount);
            r.Done? && Stablecoin.Solid(r.state) && r.state.controls == s.controls
  {
    hide Sum;
    SumBoundsOne(w.deposits, s.m.delegator);
    assert w.token.BalanceOf(s.self) >= amount;
    Stablecoin.DebitSum(w.token.balances, s.self, amount);
    var debited := Stablecoin.Debit(w.token.balances, s.self, amount);
    Stablecoin.CreditSum(debited, to, amount);
    SumBoundsOne(Stablecoin.Credit(debited, to, amount), to);
  }

  /** One payment: in scope, within the window, covered by the deposit, accepted by the token. */
  lemma {:induction false} PayOne(w: DelegatedSpend.World, s: Setup, id: DelegatedSpend.MandateId, x: Held)
    requires SameTerms(s.m, s.o) && !s.o.revoked && Sound(s.m, x) && Payable(s, x.at, x.r.payTo)
    requires Seconds(x.at) != s.m.validAfter
    requires var o := w.MandateOf(id);
             && o == s.o.(windowStart := o.windowStart, windowSpent := o.windowSpent)
             && x.r.amount < Stablecoin.WORD_SPACE
             && DelegatedSpend.Charge(o, Seconds(x.at), x.r.amount).Some?
    requires SpendSafety.Covered(w, s.self) && Stablecoin.Solid(w.token)
    requires w.token.controls == s.controls && !s.controls.paused
    requires w.DepositOf(s.m.delegator) >= x.r.amount
    ensures x.r.payer.Some?
    ensures var r := DelegatedSpend.Pay(w, s.self, x.r.payer.value, Seconds(x.at), id, x.r.payTo, x.r.amount);
            && r.Some?
            && SpendSafety.Covered(r.value, s.self) && Stablecoin.Solid(r.value.token)
            && r.value.token.controls == s.controls
            && Some(r.value.MandateOf(id)) == DelegatedSpend.Charge(w.MandateOf(id), Seconds(x.at), x.r.amount)
            && r.value.DepositOf(s.m.delegator) == w.DepositOf(s.m.delegator) - x.r.amount
  {
    var o := w.MandateOf(id);
    InScopeIff(s.m, o, x.revoked, x.r, x.at);
    TransferGoesThrough(w, s, x.r.payTo, x.r.amount);
    hide DelegatedSpend.Charge, DelegatedSpend.InScope, Stablecoin.Transfer, Stablecoin.Solid, SpendSafety.Covered,
         Sound, Payable, SameTerms, Seconds;
    var token := Stablecoin.Transfer(w.token, s.self, x.r.payTo, x.r.amount).state;
    var r := DelegatedSpend.Pay(w, s.self, x.r.payer.value, Seconds(x.at), id, x.r.payTo, x.r.amount);
    assert r.Some? && r.value.token == token;
    SpendSafety.OutflowKeepsCover(w, r.value, s.self, x.r.payTo, s.m.delegator, x.r.amount);
  }

  /** The contract and the token are ready: the mandate as registered, its deposit covering what is
      to be paid, and both in a state they can reach. */
  ghost predicate Registered(w: DelegatedSpend.World, s: Setup, id: DelegatedSpend.MandateId, amount: nat) {
    && w.MandateOf(id) == s.o && SameTerms(s.m, s.o) && !s.o.revoked && s.o.windowSpent == 0
    && s.o.windowStart <= Stablecoin.MAX_WORD - LONGEST_WINDOW_SECONDS
    && w.token.controls == s.controls && !s.controls.paused
    && SpendSafety.Covered(w, s.self) && Stablecoin.Solid(w.token)
    && w.DepositOf(s.m.delegator) >= amount
  }

  /** After paying, the mandate stands where the replay of the amounts leaves it. */
  ghost predicate PaidUp(w: DelegatedSpend.World, r: Option<DelegatedSpend.World>, s: Setup,
      id: DelegatedSpend.MandateId, h: seq<Committed>, amount: nat) {
    && r.Some?
    && SpendSafety.Covered(r.value, s.self) && Stablecoin.Solid(r.value.token) && r.value.token.controls == s.controls
    && WordSized(h) && Replay(s.o, h) == Some(r.value.MandateOf(id))
    && r.value.DepositOf(s.m.delegator) == w.DepositOf(s.m.delegator) - amount
  }

  lemma {:induction false} ReplayKeepsTerms(o: DelegatedSpend.OnchainMandate, h: seq<Committed>)
    requires WordSized(h) && Replay(o, h).Some?
    ensures var r := Replay(o, h).value; r == o.(windowStart := r.windowStart, windowSpent := r.windowSpent)
  {
    if h != [] {
      hide DelegatedSpend.Charge, Seconds;
      assert Last(h) in h && forall c :: c in Init(h) ==> c in h;
      ReplayKeepsTerms(o, Init(h));
      ChargeKeepsTerms(Replay(o, Init(h)).value, Seconds(Last(h).at), Last(h).amount);
    }
  }

  lemma {:induction false} PaysEach(w: DelegatedSpend.World, s: Setup, id: DelegatedSpend.MandateId, paid: seq<Held>,
      to: int)
    requires Kept(paid, to, s) && Ready(paid, s) && Registered(w, s, id, AmountSince(paid, 0))
    ensures PaidUp(w, PayAll(w, s.self, id, paid), s, id, AsHistory(paid), AmountSince(paid, 0))
  {
    hide Kept, Sound, Payable, SameTerms, SpendSafety.Covered, Stablecoin.Solid, Seconds, DelegatedSpend.Charge,
         DelegatedSpend.Pay;
    if paid != [] {
      var x := Last(paid);
      KeptInit(paid, to, s);
      PaysEach(w, s, id, Init(paid), x.at);
      var w' := PayAll(w, s.self, id, Init(paid)).value;
      var h, c := AsHistory(Init(paid)), Committed(x.at, x.r.amount, false);
      InitOfSnoc(h, c);
      ReplaysAll(w, s, id, paid, to);
      ReplayKeepsTerms(s.o, h);
      PayOne(w', s, id, x);
    }
  }

  lemma {:induction false} ReplaysAll(w: DelegatedSpend.World, s: Setup, id: DelegatedSpend.MandateId, paid: seq<Held>,
      to: int)
    requires Kept(paid, to, s) && Ready(paid, s) && Registered(w, s, id, AmountSince(paid, 0))
    ensures WordSized(AsHistory(paid)) && Replay(s.o, AsHistory(paid)).Some?
  {
    hide Kept, Covered, Replay, SpendSafety.Covered, Stablecoin.Solid;
    HistoryCovered(paid, to, s);
    ReplayAccepted(s.o, AsHistory(paid));
  }

  /** For every interleaving of judgements, settlements and failures the gateway goes through under a
      mandate, without confirmations: if none of the payments it commits was reserved in the first
      second of validity, the contract accepts them all, each at the time it was reserved, and the
      deposit falls by exactly what was committed. */
  lemma {:induction false} FixedWindowNeverStricter(settings: Policy.Settings, hs: seq<Happening>, s: Setup,
      w: DelegatedSpend.World, id: DelegatedSpend.MandateId)
    requires Orderly(hs) && UnderOne(s.m, hs) && Ready(Paid(HeldAfter(settings, s.m, hs)), s)
    requires Registered(w, s, id, Spent(settings, s.m, hs))
    ensures var r := PayAll(w, s.self, id, Paid(HeldAfter(settings, s.m, hs)));
            && r.Some?
            && r.value.DepositOf(s.m.delegator) == w.DepositOf(s.m.delegator) - Spent(settings, s.m, hs)
  {
    hide Kept, Ready, Orderly, UnderOne, PayAll, Registered, AmountSince, DoneSince, Paid;
    var held := HeldAfter(settings, s.m, hs);
    var now := if hs == [] then 0 else Last(hs).now;
    WindowIsPositive(w, s, id, Spent(settings, s.m, hs));
    HeldKept(settings, hs, s, now);
    PaidKeeps(held, now, s);
    PaidAmounts(held, 0);
    PaysEach(w, s, id, Paid(held), now);
  }

  lemma {:induction false} WindowIsPositive(w: DelegatedSpend.World, s: Setup, id: DelegatedSpend.MandateId,
      amount: nat)
    requires Registered(w, s, id, amount)
    ensures WindowDur(s.m.budgetWindowSeconds) >= 0 && s.m.budgetAmount > 0
  {
    hide SpendSafety.Covered, Stablecoin.Solid;
    if s.m.budgetWindowSeconds > 0 {
      WindowDurExactIff(s.m.budgetWindowSeconds);
    }
  }
}
