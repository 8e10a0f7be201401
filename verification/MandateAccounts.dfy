/** Sliding-window accounting of mandates (x402/policy_mandate.go): budgets, rate caps and the
    reservations of payments in flight. Times are nanoseconds. */
module MandateAccounts {
  import opened Common

  type MandateId = nat

  datatype Mandate = Mandate(
    id: MandateId,
    delegator: Address,
    agent: Address,
    maxAmountPerPayment: int,
    allowedPayees: seq<Address>,
    allowedResources: seq<string>,
    validAfter: int,
    validBefore: int,
    budgetAmount: int,
    budgetWindowSeconds: int,
    maxPaymentsPerWindow: int,
    rateWindowSeconds: int)

  const INT64_SPACE: nat := 0x1_00000000_00000000

  /** The low 64 bits of an integer, read as a signed number. */
  function Int64(x: int): int {
    var low := x % INT64_SPACE;
    if low < INT64_SPACE / 2 then low else low - INT64_SPACE
  }

  const SECOND: nat := 1_000_000_000

  /** Stands in for a missing window: about 146 years. */
  const ALL_TIME: nat := 0x40000000_00000000

  /** The longest window whose nanoseconds fit 64 bits. */
  const LONGEST_WINDOW_SECONDS: nat := 9223372036

  function WindowDur(seconds: int): int {
    if seconds <= 0 then ALL_TIME else Int64(Int64(seconds) * SECOND)
  }

  /** The wrap-around shows beyond about 292 years, and only there. */
  lemma {:induction false} WindowDurExactIff(seconds: int)
    requires 0 < seconds
    ensures WindowDur(seconds) == seconds * SECOND <==> seconds <= LONGEST_WINDOW_SECONDS
  {
    if seconds < INT64_SPACE / 2 {
      assert Int64(seconds) == seconds;
    }
  }

  function MaxWindow(m: Mandate): int {
    var b, r := WindowDur(m.budgetWindowSeconds), WindowDur(m.rateWindowSeconds);
    if b > r then b else r
  }

  datatype Spend = Spend(at: int, amount: nat)

  /** Committed payments, and the payments in flight by nonce. */
  datatype Account = Account(spends: seq<Spend>, reserved: map<Nonce, Spend>)

  type Accounts = map<MandateId, Account>

  const NewAccount: Account := Account([], map[])

  function AccountOf(accounts: Accounts, id: MandateId): Account {
    if id in accounts then accounts[id] else NewAccount
  }

  /** The amount committed at or after a cutoff. */
  function AmountFrom(spends: seq<Spend>, cutoff: int): nat {
    if spends == [] then 0
    else AmountFrom(Init(spends), cutoff) + if Last(spends).at >= cutoff then Last(spends).amount else 0
  }

  /** The number of payments committed at or after a cutoff. */
  function CountFrom(spends: seq<Spend>, cutoff: int): nat {
    if spends == [] then 0
    else CountFrom(Init(spends), cutoff) + if Last(spends).at >= cutoff then 1 else 0
  }

  function Pruned(spends: seq<Spend>, cutoff: int): seq<Spend> {
    if spends == [] then []
    else if Last(spends).at >= cutoff then Pruned(Init(spends), cutoff) + [Last(spends)]
    else Pruned(Init(spends), cutoff)
  }

  function Amounts(reserved: map<Nonce, Spend>): map<Nonce, int> {
    map n | n in reserved :: reserved[n].amount
  }

  ghost function ReservedAmount(reserved: map<Nonce, Spend>): int {
    Sum(Amounts(reserved))
  }

  datatype Verdict = Fits | OverBudget | OverRate

  ghost predicate BudgetAllows(acct: Account, m: Mandate, amount: nat, now: int) {
    m.budgetAmount > 0 ==>
      AmountFrom(acct.spends, now - WindowDur(m.budgetWindowSeconds)) + ReservedAmount(acct.reserved) + amount
        <= m.budgetAmount
  }

  predicate RateAllows(acct: Account, m: Mandate, now: int) {
    m.maxPaymentsPerWindow > 0 ==>
      CountFrom(acct.spends, now - WindowDur(m.rateWindowSeconds)) + |acct.reserved| + 1 <=
        Int64(m.maxPaymentsPerWindow)
  }

  ghost function VerdictOf(acct: Account, m: Mandate, amount: nat, now: int, skipBudget: bool): Verdict {
    if !skipBudget && !BudgetAllows(acct, m, amount, now) then OverBudget
    else if !RateAllows(acct, m, now) then OverRate
    else Fits
  }

  /** Count a payment against the windows, other reservations included, and hold it if it fits. */
  ghost function ReserveIn(acct: Account, m: Mandate, nonce: Nonce, amount: nat, now: int, skipBudget: bool): Account {
    if VerdictOf(acct, m, amount, now, skipBudget) == Fits
    then acct.(reserved := acct.reserved[nonce := Spend(now, amount)])
    else acct
  }

  function CommitIn(acct: Account, m: Mandate, nonce: Nonce, now: int): Account {
    if nonce !in acct.reserved then acct
    else
      var spends := acct.spends + [Spend(now, acct.reserved[nonce].amount)];
      Account(Pruned(spends, now - MaxWindow(m)), acct.reserved - {nonce})
  }

  function ReleaseIn(acct: Account, nonce: Nonce): Account {
    acct.(reserved := acct.reserved - {nonce})
  }

  function RestoreIn(acct: Account, at: int, amount: nat): Account {
    acct.(spends := acct.spends + [Spend(at, amount)])
  }

  ghost function Reserve(accounts: Accounts, m: Mandate, nonce: Nonce, amount: nat, now: int,
      skipBudget: bool): Accounts {
    accounts[m.id := ReserveIn(AccountOf(accounts, m.id), m, nonce, amount, now, skipBudget)]
  }

  function Commit(accounts: Accounts, m: Mandate, nonce: Nonce, now: int): Accounts {
    if m.id in accounts then accounts[m.id := CommitIn(accounts[m.id], m, nonce, now)] else accounts
  }

  function Release(accounts: Accounts, m: Mandate, nonce: Nonce): Accounts {
    if m.id in accounts then accounts[m.id := ReleaseIn(accounts[m.id], nonce)] else accounts
  }

  function Restore(accounts: Accounts, id: MandateId, at: int, amount: nat): Accounts {
    accounts[id := RestoreIn(AccountOf(accounts, id), at, amount)]
  }

  /** Only amounts in the map matter: adding, replacing or dropping one reservation. */
  lemma {:induction false} ReservedAfterPut(reserved: map<Nonce, Spend>, nonce: Nonce, s: Spend)
    ensures ReservedAmount(reserved[nonce := s])
         == ReservedAmount(reserved) - Lookup(Amounts(reserved), nonce) + s.amount
  {
    assert Amounts(reserved[nonce := s]) == Amounts(reserved)[nonce := s.amount];
    SumUpdate(Amounts(reserved), nonce, s.amount);
  }

  lemma {:induction false} ReservedAfterDrop(reserved: map<Nonce, Spend>, nonce: Nonce)
    ensures ReservedAmount(reserved - {nonce}) == ReservedAmount(reserved) - Lookup(Amounts(reserved), nonce)
  {
    assert Amounts(reserved - {nonce}) == Amounts(reserved) - {nonce};
    SumRemove(Amounts(reserved), nonce);
  }

  lemma {:induction false} UpdateTwice(accounts: Accounts, id: MandateId, a: Account, b: Account)
    ensures accounts[id := a][id := b] == accounts[id := b]
  {}

  class MandateAccount {
    var spends: seq<Spend>
    var reserved: map<Nonce, Spend>

    function View(): Account
      reads this
    {
      Account(spends, reserved)
    }

    constructor ()
      ensures View() == NewAccount
    {
      spends, reserved := [], map[];
    }

    method CommittedAmount(now: int, window: int) returns (sum: nat)
      ensures sum == AmountFrom(spends, now - window)
    {
      sum := 0;
      var i := 0;
      while i < |spends|
        invariant 0 <= i <= |spends|
        invariant sum == AmountFrom(spends[..i], now - window)
      {
        InitOfTake(spends, i + 1);
        if spends[i].at >= now - window {
          sum := sum + spends[i].amount;
        }
        i := i + 1;
      }
      assert spends[..i] == spends;
    }

    method CommittedCount(now: int, window: int) returns (n: nat)
      ensures n == CountFrom(spends, now - window)
    {
      n := 0;
      var i := 0;
      while i < |spends|
        invariant 0 <= i <= |spends|
        invariant n == CountFrom(spends[..i], now - window)
      {
        InitOfTake(spends, i + 1);
        if spends[i].at >= now - window {
          n := n + 1;
        }
        i := i + 1;
      }
      assert spends[..i] == spends;
    }

    method ReservedTotal() returns (sum: int)
      ensures sum == ReservedAmount(reserved)
    {
      sum := 0;
      var rest := reserved;
      while rest.Keys != {}
        invariant sum + ReservedAmount(rest) == ReservedAmount(reserved)
        decreases |rest.Keys|
      {
        var n :| n in rest.Keys;
        ReservedAfterDrop(rest, n);
        sum := sum + rest[n].amount;
        var smaller := rest - {n};
        assert smaller.Keys == rest.Keys - {n};
        rest := smaller;
      }
      assert Amounts(rest) == map[];
      SumEmpty();
    }

    /** Check a payment against both limits and hold it if it fits. */
    method Hold(m: Mandate, nonce: Nonce, amount: nat, now: int, skipBudget: bool) returns (verdict: Verdict)
      modifies this`reserved
      ensures verdict == VerdictOf(old(View()), m, amount, now, skipBudget)
      ensures View() == ReserveIn(old(View()), m, nonce, amount, now, skipBudget)
    {
      hide Int64, WindowDur, AmountFrom, CountFrom, ReservedAmount;
      if !skipBudget && m.budgetAmount > 0 {
        var committed := CommittedAmount(now, WindowDur(m.budgetWindowSeconds));
        var held := ReservedTotal();
        if committed + held + amount > m.budgetAmount {
          return OverBudget;
        }
      }
      if m.maxPaymentsPerWindow > 0 {
        var count := CommittedCount(now, WindowDur(m.rateWindowSeconds));
        if count + |reserved| + 1 > Int64(m.maxPaymentsPerWindow) {
          return OverRate;
        }
      }
      reserved := reserved[nonce := Spend(now, amount)];
      return Fits;
    }

    /** Filters in place, so memory stays bounded by the widest window. */
    method Prune(now: int, window: int)
      modifies this`spends
      ensures spends == Pruned(old(spends), now - window)
    {
      var kept: seq<Spend> := [];
      var i := 0;
      while i < |spends|
        invariant 0 <= i <= |spends|
        invariant spends == old(spends)
        invariant kept == Pruned(spends[..i], now - window)
      {
        InitOfTake(spends, i + 1);
        if spends[i].at >= now - window {
          kept := kept + [spends[i]];
        }
        i := i + 1;
      }
      assert spends[..i] == spends;
      spends := kept;
    }
  }

  class Registry {
    var accounts: map<MandateId, MandateAccount>

    /** No two mandates share an account object. */
    ghost predicate Valid()
      reads this
    {
      forall i, j :: i in accounts && j in accounts && i != j ==> accounts[i] != accounts[j]
    }

    ghost function View(): Accounts
      reads this, accounts.Values
    {
      map id | id in accounts :: accounts[id].View()
    }

    constructor ()
      ensures Valid() && accounts == map[] && View() == map[]
    {
      accounts := map[];
    }

    /** Changing one account object changes the view at its mandate only. */
    twostate lemma OneChanged(id: MandateId)
      requires old(Valid()) && old(accounts) == accounts && id in accounts
      requires forall i :: i in accounts && i != id ==> accounts[i].View() == old(accounts[i].View())
      ensures View() == old(View())[id := accounts[id].View()]
    {}

    /** The account of a mandate, opened on first use. */
    method Open(id: MandateId) returns (acct: MandateAccount)
      requires Valid()
      modifies this
      ensures Valid() && id in accounts && accounts[id] == acct
      ensures accounts.Values <= old(accounts.Values) + {acct}
      ensures acct in old(accounts.Values) || fresh(acct)
      ensures View() == old(View())[id := AccountOf(old(View()), id)]
      ensures acct.View() == AccountOf(old(View()), id)
    {
      if id in accounts {
        acct := accounts[id];
      } else {
        acct := new MandateAccount();
        accounts := accounts[id := acct];
      }
    }

    method RestoreSpend(id: MandateId, at: int, amount: nat)
      requires Valid()
      modifies this, accounts.Values
      ensures Valid() && fresh(accounts.Values - old(accounts.Values))
      ensures View() == Restore(old(View()), id, at, amount)
    {
      var acct := Open(id);
      label ready:
      acct.spends := acct.spends + [Spend(at, amount)];
      OneChanged@ready(id);
      UpdateTwice(old(View()), id, AccountOf(old(View()), id), acct.View());
    }

    method TryReserve(m: Mandate, nonce: Nonce, amount: nat, now: int, skipBudget: bool) returns (verdict: Verdict)
      requires Valid()
      modifies this, accounts.Values
      ensures Valid() && fresh(accounts.Values - old(accounts.Values))
      ensures verdict == VerdictOf(AccountOf(old(View()), m.id), m, amount, now, skipBudget)
      ensures View() == Reserve(old(View()), m, nonce, amount, now, skipBudget)
    {
      var acct := Open(m.id);
      label ready:
      hide VerdictOf, ReserveIn;
      verdict := acct.Hold(m, nonce, amount, now, skipBudget);
      OneChanged@ready(m.id);
      UpdateTwice(old(View()), m.id, AccountOf(old(View()), m.id), acct.View());
    }

    method CommitSpend(m: Mandate, nonce: Nonce, now: int)
      requires Valid()
      modifies accounts.Values
      ensures Valid()
      ensures View() == Commit(old(View()), m, nonce, now)
    {
      if m.id !in accounts {
        return;
      }
      var acct := accounts[m.id];
      if nonce !in acct.reserved {
        return;
      }
      var r := acct.reserved[nonce];
      acct.reserved := acct.reserved - {nonce};
      acct.spends := acct.spends + [Spend(now, r.amount)];
      acct.Prune(now, MaxWindow(m));
    }

    method ReleaseSpend(m: Mandate, nonce: Nonce)
      requires Valid()
      modifies accounts.Values
      ensures Valid()
      ensures View() == Release(old(View()), m, nonce)
    {
      if m.id in accounts {
        accounts[m.id].reserved := accounts[m.id].reserved - {nonce};
      }
    }
  }
}
