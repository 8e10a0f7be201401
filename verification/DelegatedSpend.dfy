/** On-chain enforcement of a mandate (contracts/DelegatedSpend.sol), together with the token it
    holds deposits in. A reverted call leaves the world as it was. */
module DelegatedSpend {
  import opened Common
  import opened Stablecoin

  type MandateId = nat

  /** The terms a delegator registers. */
  datatype Terms = Terms(
    agent: Address,
    maxAmountPerPayment: Word,
    validAfter: Word,
    validBefore: Word,
    budgetAmount: Word,
    budgetWindowSeconds: Word,
    payees: seq<Address>)

  datatype OnchainMandate = OnchainMandate(
    delegator: Address,
    terms: Terms,
    revoked: bool,
    windowStart: nat,
    windowSpent: nat)

  /** What an id that was never registered reads as. */
  const Unset: OnchainMandate := OnchainMandate(ZERO_ADDRESS, Terms(ZERO_ADDRESS, 0, 0, 0, 0, 0, []), false, 0, 0)

  datatype World = World(token: TokenState, deposits: map<Address, nat>, mandates: map<MandateId, OnchainMandate>) {
    function DepositOf(a: Address): nat { if a in deposits then deposits[a] else 0 }

    function MandateOf(id: MandateId): OnchainMandate { if id in mandates then mandates[id] else Unset }
  }

  function Deposit(w: World, self: Address, sender: Address, amount: Word): Option<World> {
    match TransferFrom(w.token, self, sender, self, amount)
    case Reverted => None
    case Done(token, _) =>
      if w.DepositOf(sender) + amount > MAX_WORD then None
      else Some(w.(token := token, deposits := Credit(w.deposits, sender, amount)))
  }

  function Withdraw(w: World, self: Address, sender: Address, amount: Word): Option<World> {
    if w.DepositOf(sender) < amount then None
    else
      match Transfer(w.token, self, sender, amount)
      case Reverted => None
      case Done(token, _) => Some(w.(token := token, deposits := Debit(w.deposits, sender, amount)))
  }

  /** Updating a mandate resets its budget window; only its own delegator may. */
  function SetMandate(w: World, sender: Address, now: nat, id: MandateId, terms: Terms): Option<World> {
    var m := w.MandateOf(id);
    if m.delegator != ZERO_ADDRESS && m.delegator != sender then None
    else Some(w.(mandates := w.mandates[id := OnchainMandate(sender, terms, false, now, 0)]))
  }

  function Revoke(w: World, sender: Address, id: MandateId): Option<World> {
    var m := w.MandateOf(id);
    if m.delegator != sender then None
    else Some(w.(mandates := w.mandates[id := m.(revoked := true)]))
  }

  predicate AllowedPayee(payees: seq<Address>, to: Address) {
    payees == [] || to in payees
  }

  /** A fixed window: once it has elapsed it resets whole. */
  function Rolled(m: OnchainMandate, now: nat): OnchainMandate {
    if m.terms.budgetWindowSeconds > 0 && now >= m.windowStart + m.terms.budgetWindowSeconds
    then m.(windowStart := now, windowSpent := 0)
    else m
  }

  /** The budget check: the mandate charged with amount, or None when it does not fit. */
  function Charge(m: OnchainMandate, now: nat, amount: Word): Option<OnchainMandate> {
    if m.terms.budgetWindowSeconds > 0 && m.windowStart + m.terms.budgetWindowSeconds > MAX_WORD then None
    else
      var r := Rolled(m, now);
      if r.windowSpent + amount > m.terms.budgetAmount then None
      else Some(r.(windowSpent := r.windowSpent + amount))
  }

  /** The checks of pay that come before the budget, cheapest first. */
  predicate InScope(m: OnchainMandate, sender: Address, now: nat, to: Address, amount: Word) {
    && m.terms.agent == sender
    && !m.revoked
    && now > m.terms.validAfter
    && now < m.terms.validBefore
    && AllowedPayee(m.terms.payees, to)
    && amount <= m.terms.maxAmountPerPayment
  }

  function Pay(w: World, self: Address, sender: Address, now: nat, id: MandateId, to: Address,
      amount: Word): Option<World> {
    var m := w.MandateOf(id);
    if !InScope(m, sender, now, to, amount) then None
    else
      match Charge(m, now, amount)
      case None => None
      case Some(charged) =>
        if w.DepositOf(m.delegator) < amount then None
        else
          match Transfer(w.token, self, to, amount)
          case Reverted => None
          case Done(token, _) =>
            Some(World(token, Debit(w.deposits, m.delegator, amount), w.mandates[id := charged]))
  }

  // ---- The contract ----

  class DelegatedSpendContract {
    const address: Address
    const paymentToken: KRWTestStablecoin
    var deposits: map<Address, nat>
    var mandates: map<MandateId, OnchainMandate>

    function View(): World
      reads this, paymentToken
    {
      World(paymentToken.View(), deposits, mandates)
    }

    constructor (address: Address, paymentToken: KRWTestStablecoin)
      ensures this.address == address && this.paymentToken == paymentToken
      ensures deposits == map[] && mandates == map[]
    {
      this.address, this.paymentToken := address, paymentToken;
      deposits, mandates := map[], map[];
    }

    /** A call returns whether it took effect, and leaves the world alone when it reverts. */
    twostate predicate Follows(r: Option<World>, ok: bool)
      reads this, paymentToken
    {
      ok == r.Some? && View() == if r.Some? then r.value else old(View())
    }

    method MakeDeposit(sender: Address, amount: Word) returns (ok: bool)
      modifies this`deposits, paymentToken
      ensures Follows(Deposit(old(View()), address, sender, amount), ok)
    {
      var held := if sender in deposits then deposits[sender] else 0;
      if held + amount > MAX_WORD {
        return false;
      }
      ok := paymentToken.TransferOnBehalf(address, sender, address, amount);
      if ok {
        deposits := deposits[sender := held + amount];
      }
    }

    method MakeWithdrawal(sender: Address, amount: Word) returns (ok: bool)
      modifies this`deposits, paymentToken
      ensures Follows(Withdraw(old(View()), address, sender, amount), ok)
    {
      var held := if sender in deposits then deposits[sender] else 0;
      if held < amount {
        return false;
      }
      var before := deposits;
      deposits := deposits[sender := held - amount];
      ok := paymentToken.TransferTo(address, sender, amount);
      if !ok {
        deposits := before;
      }
    }

    method RegisterMandate(sender: Address, now: nat, id: MandateId, terms: Terms) returns (ok: bool)
      modifies this`mandates
      ensures Follows(SetMandate(old(View()), sender, now, id, terms), ok)
    {
      var m := if id in mandates then mandates[id] else Unset;
      if m.delegator != ZERO_ADDRESS {
        if m.delegator != sender {
          return false;
        }
      }
      mandates := mandates[id := OnchainMandate(sender, terms, false, now, 0)];
      return true;
    }

    method RevokeMandate(sender: Address, id: MandateId) returns (ok: bool)
      modifies this`mandates
      ensures Follows(Revoke(old(View()), sender, id), ok)
    {
      var m := if id in mandates then mandates[id] else Unset;
      if m.delegator != sender {
        return false;
      }
      mandates := mandates[id := m.(revoked := true)];
      return true;
    }

    method IsAllowedPayee(payees: seq<Address>, to: Address) returns (allowed: bool)
      ensures allowed == AllowedPayee(payees, to)
    {
      if |payees| == 0 {
        return true;
      }
      var i := 0;
      while i < |payees|
        invariant 0 <= i <= |payees|
        invariant to !in payees[..i]
      {
        if payees[i] == to {
          return true;
        }
        i := i + 1;
      }
      return false;
    }

    method PayOut(sender: Address, now: nat, id: MandateId, to: Address, amount: Word) returns (ok: bool)
      modifies this, paymentToken
      ensures Follows(Pay(old(View()), address, sender, now, id, to, amount), ok)
    {
      hide Transfer;
      var m := if id in mandates then mandates[id] else Unset;
      var allowed := IsAllowedPayee(m.terms.payees, to);
      if m.terms.agent != sender || m.revoked || now <= m.terms.validAfter || now >= m.terms.validBefore
         || !allowed || amount > m.terms.maxAmountPerPayment
      {
        return false;
      }
      var charged := m;
      if m.terms.budgetWindowSeconds > 0 {
        if m.windowStart + m.terms.budgetWindowSeconds > MAX_WORD {
          return false;
        }
        if now >= m.windowStart + m.terms.budgetWindowSeconds {
          charged := charged.(windowStart := now, windowSpent := 0);
        }
      }
      if charged.windowSpent + amount > m.terms.budgetAmount {
        return false;
      }
      var held := if m.delegator in deposits then deposits[m.delegator] else 0;
      if held < amount {
        return false;
      }
      ok := paymentToken.TransferTo(address, to, amount);
      if ok {
        mandates := mandates[id := charged.(windowSpent := charged.windowSpent + amount)];
        deposits := deposits[m.delegator := held - amount];
      }
    }
  }
}
