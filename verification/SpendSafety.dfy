/** What DelegatedSpend guarantees over every run of calls by anyone: the deposits are always
    covered, every delegator's deposit is accounted for, and the fixed window bounds spending. */
module SpendSafety {
  import opened Common
  import opened Stablecoin
  import opened DelegatedSpend

  datatype Call =
    | OnToken(op: Operation)
    | Depositing(amount: Word)
    | Withdrawing(amount: Word)
    | Setting(id: MandateId, terms: Terms)
    | Revoking(id: MandateId)
    | Paying(id: MandateId, to: Address, amount: Word)

  datatype WorldTx = WorldTx(sender: Address, now: nat, call: Call)

  function Try(w: World, self: Address, tx: WorldTx): Option<World> {
    match tx.call
    case OnToken(op) => Some(w.(token := StateAfter(w.token, Transaction(tx.sender, tx.now, op))))
    case Depositing(amount) => Deposit(w, self, tx.sender, amount)
    case Withdrawing(amount) => Withdraw(w, self, tx.sender, amount)
    case Setting(id, terms) => SetMandate(w, tx.sender, tx.now, id, terms)
    case Revoking(id) => Revoke(w, tx.sender, id)
    case Paying(id, to, amount) => Pay(w, self, tx.sender, tx.now, id, to, amount)
  }

  function WorldAfter(w: World, self: Address, tx: WorldTx): World {
    match Try(w, self, tx) case None => w case Some(w') => w'
  }

  function RunWorld(w: World, self: Address, txs: seq<WorldTx>): World {
    if txs == [] then w else WorldAfter(RunWorld(w, self, Init(txs)), self, Last(txs))
  }

  /** The contract acts only through its own functions: it sends no transaction, holds no key, and
      the issuer does not burn its balance. */
  predicate Outside(self: Address, tx: WorldTx) {
    && tx.sender != self
    && tx.sender != ZERO_ADDRESS
    && (tx.call.OnToken? ==>
          && !(tx.call.op.DoBurn? && tx.call.op.from == self)
          && !(tx.call.op.DoSettle? && tx.call.op.recovered == self))
  }

  ghost predicate AllOutside(self: Address, txs: seq<WorldTx>) {
    forall tx :: tx in txs ==> Outside(self, tx)
  }

  // ---- Solvency ----

  ghost predicate GrantsNothing(allowances: map<(Address, Address), nat>, self: Address) {
    forall k :: k in allowances && k.0 == self ==> allowances[k] == 0
  }

  /** The contract's own tokens cover all deposits, and nobody else may move them. */
  ghost predicate Covered(w: World, self: Address) {
    && Sum(w.deposits) <= w.token.BalanceOf(self)
    && GrantsNothing(w.token.allowances, self)
  }

  lemma {:induction false} MoveBalance(st: TokenState, from: Address, to: Address, value: Word, a: Address)
    requires Move(st, from, to, value).Done?
    ensures Move(st, from, to, value).state.BalanceOf(a) ==
              st.BalanceOf(a) + (if a == to then value else 0) - (if a == from then value else 0)
    ensures Move(st, from, to, value).state == st.(balances := Move(st, from, to, value).state.balances)
  {}

  /** Neither the contract's allowances nor its balance are touched. */
  ghost predicate Untouched(st: TokenState, st': TokenState, self: Address) {
    && GrantsNothing(st'.allowances, self)
    && st'.BalanceOf(self) >= st.BalanceOf(self)
  }

  lemma {:induction false} TokenCallCannotTake(st: TokenState, self: Address, tx: Transaction)
    requires GrantsNothing(st.allowances, self)
    requires Outside(self, WorldTx(tx.sender, tx.now, OnToken(tx.op)))
    ensures Untouched(st, StateAfter(st, tx), self)
  {
    hide Move;
    match tx.op
    case DoTransfer(to, value) =>
      if Move(st, tx.sender, to, value).Done? {
        MoveBalance(st, tx.sender, to, value, self);
      }
    case DoTransferFrom(from, to, value) =>
      var allowance := st.Allowance(from, tx.sender);
      var drawn := if allowance == MAX_WORD || allowance < value then st
                   else st.(allowances := st.allowances[(from, tx.sender) := allowance - value]);
      if Move(drawn, from, to, value).Done? {
        MoveBalance(drawn, from, to, value, self);
      }
    case DoSettle(a, _, _) =>
      var spent := st.(used := st.used + {(a.from, a.nonce)});
      if Move(spent, a.from, a.to, a.value).Done? {
        MoveBalance(spent, a.from, a.to, a.value, self);
      }
    case DoApprove(_, _) =>
    case DoMint(_, _) =>
    case DoBurn(_, _) =>
    case DoAdminister(_) =>
  }

  lemma {:induction false} DepositKeepsCover(w: World, self: Address, sender: Address, amount: Word)
    requires Covered(w, self) && sender != self && Deposit(w, self, sender, amount).Some?
    ensures Covered(Deposit(w, self, sender, amount).value, self)
  {
    hide Sum, Move;
    var allowance := w.token.Allowance(sender, self);
    var drawn := if allowance == MAX_WORD then w.token
                 else w.token.(allowances := w.token.allowances[(sender, self) := allowance - amount]);
    MoveBalance(drawn, sender, self, amount, self);
    CreditSum(w.deposits, sender, amount);
    var w' := Deposit(w, self, sender, amount).value;
    assert w'.token.allowances == drawn.allowances;
    assert w'.token.BalanceOf(self) == w.token.BalanceOf(self) + amount;
    assert w'.deposits == Credit(w.deposits, sender, amount);
  }

  /** Money leaves the contract only together with an equal part of someone's deposit. */
  lemma {:induction false} OutflowKeepsCover(w: World, w': World, self: Address, to: Address, owner: Address,
      amount: Word)
    requires Covered(w, self) && amount <= w.DepositOf(owner)
    requires Transfer(w.token, self, to, amount).Done? && w'.token == Transfer(w.token, self, to, amount).state
    requires w'.deposits == Debit(w.deposits, owner, amount)
    ensures Covered(w', self)
  {
    hide Sum, Move;
    MoveBalance(w.token, self, to, amount, self);
    DebitSum(w.deposits, owner, amount);
    assert w'.token.allowances == w.token.allowances;
  }

  lemma {:induction false} CallKeepsCover(w: World, self: Address, tx: WorldTx)
    requires Covered(w, self) && Outside(self, tx)
    ensures Covered(WorldAfter(w, self, tx), self)
  {
    hide Sum, Charge, Move, Debit, Credit, StateAfter, Transfer, TransferFrom;
    var w' := WorldAfter(w, self, tx);
    if Try(w, self, tx).Some? {
      match tx.call
      case OnToken(op) =>
        TokenCallCannotTake(w.token, self, Transaction(tx.sender, tx.now, op));
        assert w'.deposits == w.deposits;
      case Depositing(amount) => DepositKeepsCover(w, self, tx.sender, amount);
      case Withdrawing(amount) => OutflowKeepsCover(w, w', self, tx.sender, tx.sender, amount);
      case Paying(id, to, amount) => OutflowKeepsCover(w, w', self, to, w.MandateOf(id).delegator, amount);
      case Setting(_, _) => assert w'.deposits == w.deposits && w'.token == w.token;
      case Revoking(_) => assert w'.deposits == w.deposits && w'.token == w.token;
    }
  }

  /** Over any run the contract can pay out every deposit it owes. */
  lemma {:induction false} AlwaysCovered(w: World, self: Address, txs: seq<WorldTx>)
    requires Covered(w, self) && AllOutside(self, txs)
    ensures Covered(RunWorld(w, self, txs), self)
  {
    if txs != [] {
      assert Last(txs) in txs && AllOutside(self, Init(txs));
      AlwaysCovered(w, self, Init(txs));
      CallKeepsCover(RunWorld(w, self, Init(txs)), self, Last(txs));
    }
  }

  // ---- Each delegator's deposit ----

  /** What a call moved into or out of one delegator's deposit. */
  datatype Flow = Flow(deposited: nat, withdrawn: nat, paid: nat)

  function FlowOf(w: World, self: Address, tx: WorldTx, d: Address): Flow {
    if Try(w, self, tx).None? then Flow(0, 0, 0)
    else match tx.call
      case Depositing(amount) => Flow(if tx.sender == d then amount else 0, 0, 0)
      case Withdrawing(amount) => Flow(0, if tx.sender == d then amount else 0, 0)
      case Paying(id, _, amount) => Flow(0, 0, if w.MandateOf(id).delegator == d then amount else 0)
      case _ => Flow(0, 0, 0)
  }

  function TotalFlow(w: World, self: Address, txs: seq<WorldTx>, d: Address): Flow {
    if txs == [] then Flow(0, 0, 0)
    else
      var f, g := TotalFlow(w, self, Init(txs), d), FlowOf(RunWorld(w, self, Init(txs)), self, Last(txs), d);
      Flow(f.deposited + g.deposited, f.withdrawn + g.withdrawn, f.paid + g.paid)
  }

  lemma {:induction false} DepositFollowsFlow(w: World, self: Address, tx: WorldTx, d: Address)
    ensures var f := FlowOf(w, self, tx, d);
            WorldAfter(w, self, tx).DepositOf(d) == w.DepositOf(d) + f.deposited - f.withdrawn - f.paid
  {
    hide Charge, Move;
  }

  /** A delegator's deposit is what they deposited, less what they withdrew and what was paid under
      their mandates. */
  lemma {:induction false} DepositIsAccountedFor(w: World, self: Address, txs: seq<WorldTx>, d: Address)
    requires w.DepositOf(d) == 0
    ensures var f := TotalFlow(w, self, txs, d);
            RunWorld(w, self, txs).DepositOf(d) == f.deposited - f.withdrawn - f.paid
  {
    if txs != [] {
      DepositIsAccountedFor(w, self, Init(txs), d);
      DepositFollowsFlow(RunWorld(w, self, Init(txs)), self, Last(txs), d);
    }
  }

  /** A registered mandate never changes hands, so "their mandates" means the same at all times. */
  lemma {:induction false} DelegatorIsPermanent(w: World, self: Address, txs: seq<WorldTx>, id: MandateId)
    requires w.MandateOf(id).delegator != ZERO_ADDRESS
    ensures RunWorld(w, self, txs).MandateOf(id).delegator == w.MandateOf(id).delegator
  {
    if txs != [] {
      hide Move;
      DelegatorIsPermanent(w, self, Init(txs), id);
    }
  }

  /** After its revocation nothing is paid under a mandate until its delegator sets it again. */
  lemma {:induction false} RevokedPaysNothing(w: World, self: Address, txs: seq<WorldTx>, id: MandateId)
    requires w.MandateOf(id).revoked && NotReset(id, txs)
    ensures RunWorld(w, self, txs).MandateOf(id).revoked && PaidUnder(w, self, txs, id) == []
  {
    if txs != [] {
      assert NotReset(id, Init(txs)) && Last(txs) in txs;
      RevokedPaysNothing(w, self, Init(txs), id);
      RevokedStays(RunWorld(w, self, Init(txs)), self, Last(txs), id);
    }
  }

  lemma {:induction false} RevokedStays(w: World, self: Address, tx: WorldTx, id: MandateId)
    requires w.MandateOf(id).revoked && !(tx.call.Setting? && tx.call.id == id)
    ensures WorldAfter(w, self, tx).MandateOf(id).revoked
    ensures tx.call.Paying? && tx.call.id == id ==> Try(w, self, tx).None?
  {
    hide Move, Charge, AllowedPayee, StateAfter;
  }

  // ---- The fixed window ----

  /** A payment under the mandate in question. */
  datatype Paid = Paid(at: nat, amount: nat)

  function PaidBetween(log: seq<Paid>, lo: int, hi: int): nat {
    if log == [] then 0
    else PaidBetween(Init(log), lo, hi) + if lo <= Last(log).at <= hi then Last(log).amount else 0
  }

  /** The payments under a mandate over a run, oldest first. */
  function PaidUnder(w: World, self: Address, txs: seq<WorldTx>, id: MandateId): seq<Paid> {
    if txs == [] then []
    else
      var tx := Last(txs);
      var before := PaidUnder(w, self, Init(txs), id);
      if tx.call.Paying? && tx.call.id == id && Try(RunWorld(w, self, Init(txs)), self, tx).Some?
      then before + [Paid(tx.now, tx.call.amount)] else before
  }

  /** The current window holds exactly windowSpent; the stretch of one window length before it
      holds at most one budget; and no closed interval of that length ever held more than two. */
  ghost predicate WindowInv(m: OnchainMandate, log: seq<Paid>, now: nat) {
    var s: int, w: int, b: int := m.windowStart, m.terms.budgetWindowSeconds, m.terms.budgetAmount;
    && w > 0
    && s <= now
    && (forall i :: 0 <= i < |log| ==> log[i].at <= now && log[i].at < s + w)
    && PaidBetween(log, s, now) == m.windowSpent <= b
    && PaidBetween(log, s - w, s - 1) <= b
    && (forall lo, hi :: hi - lo <= w ==> PaidBetween(log, lo, hi) <= 2 * b)
  }

  lemma {:induction false} PaidSnoc(log: seq<Paid>, p: Paid, lo: int, hi: int)
    ensures PaidBetween(log + [p], lo, hi) == PaidBetween(log, lo, hi) + if lo <= p.at <= hi then p.amount else 0
  {
    InitOfSnoc(log, p);
  }

  lemma {:induction false} PaidSplit(log: seq<Paid>, lo: int, mid: int, hi: int)
    requires lo <= mid <= hi + 1
    ensures PaidBetween(log, lo, hi) == PaidBetween(log, lo, mid - 1) + PaidBetween(log, mid, hi)
  {
    if log != [] {
      PaidSplit(Init(log), lo, mid, hi);
    }
  }

  lemma {:induction false} PaidGrows(log: seq<Paid>, lo: int, hi: int, lo': int, hi': int)
    requires lo' <= lo && hi <= hi'
    ensures PaidBetween(log, lo, hi) <= PaidBetween(log, lo', hi')
  {
    if log != [] {
      PaidGrows(Init(log), lo, hi, lo', hi');
    }
  }

  /** The interval beyond the last payment is empty. */
  lemma {:induction false} PaidUpTo(log: seq<Paid>, lo: int, hi: int, hi': int)
    requires hi <= hi' && forall i :: 0 <= i < |log| ==> log[i].at <= hi
    ensures PaidBetween(log, lo, hi) == PaidBetween(log, lo, hi')
  {
    if log != [] {
      assert forall i :: 0 <= i < |Init(log)| ==> Init(log)[i] == log[i];
      PaidUpTo(Init(log), lo, hi, hi');
    }
  }

  lemma {:induction false} NothingPaidFrom(log: seq<Paid>, lo: int, hi: int)
    requires forall i :: 0 <= i < |log| ==> log[i].at < lo
    ensures PaidBetween(log, lo, hi) == 0
  {
    if log != [] {
      assert forall i :: 0 <= i < |Init(log)| ==> Init(log)[i] == log[i];
      NothingPaidFrom(Init(log), lo, hi);
    }
  }

  /** Rolling into a new window: what was current becomes the stretch before it. */
  lemma {:induction false} RollKeeps(m: OnchainMandate, log: seq<Paid>, now: nat, later: nat)
    requires WindowInv(m, log, now) && now <= later
    ensures var r := Rolled(m, later);
            && (forall i :: 0 <= i < |log| ==>
                log[i].at <= later && log[i].at < r.windowStart + r.terms.budgetWindowSeconds)
            && r.windowStart <= later < r.windowStart + r.terms.budgetWindowSeconds
            && PaidBetween(log, r.windowStart, later) == r.windowSpent <= r.terms.budgetAmount
            && PaidBetween(log, r.windowStart - r.terms.budgetWindowSeconds, r.windowStart - 1) <= r.terms.budgetAmount
  {
    var s, w := m.windowStart, m.terms.budgetWindowSeconds;
    if later >= s + w {
      NothingPaidFrom(log, later, later);
      PaidGrows(log, later - w, later - 1, s, later - 1);
      if now <= later - 1 {
        PaidUpTo(log, s, now, later - 1);
      } else {
        PaidGrows(log, s, later - 1, s, now);
      }
    } else {
      PaidUpTo(log, s, now, later);
    }
  }

  /** One accepted payment keeps the window invariant. */
  lemma {:induction false} ChargeKeeps(m: OnchainMandate, log: seq<Paid>, now: nat, later: nat, amount: Word)
    requires WindowInv(m, log, now) && now <= later && Charge(m, later, amount).Some?
    ensures WindowInv(Charge(m, later, amount).value, log + [Paid(later, amount)], later)
  {
    hide PaidBetween;
    RollKeeps(m, log, now, later);
    var r := Rolled(m, later);
    var s: int, w: int, b: int := r.windowStart, r.terms.budgetWindowSeconds, r.terms.budgetAmount;
    var p := Paid(later, amount);
    PaidSnoc(log, p, s, later);
    PaidSnoc(log, p, s - w, s - 1);
    forall lo, hi | hi - lo <= w
      ensures PaidBetween(log + [p], lo, hi) <= 2 * b
    {
      PaidSnoc(log, p, lo, hi);
      if lo <= later <= hi {
        PaidUpTo(log, lo, later, hi);
        PaidGrows(log, lo, later, s - w, later);
        PaidSplit(log, s - w, s, later);
      } else {
        assert PaidBetween(log, lo, hi) <= 2 * b;
      }
    }
    assert forall i :: 0 <= i < |log + [p]| ==> (log + [p])[i] == if i < |log| then log[i] else p;
  }

  predicate ClockedFrom(now: nat, txs: seq<WorldTx>) {
    && (forall i :: 0 <= i < |txs| ==> now <= txs[i].now)
    && (forall i, j :: 0 <= i < j < |txs| ==> txs[i].now <= txs[j].now)
  }

  function EndOf(now: nat, txs: seq<WorldTx>): nat {
    if txs == [] then now else Last(txs).now
  }

  ghost predicate NotReset(id: MandateId, txs: seq<WorldTx>) {
    forall tx :: tx in txs && tx.call.Setting? ==> tx.call.id != id
  }

  /** One call, whoever makes it and whatever it is, keeps the window invariant of a mandate it
      does not set. */
  lemma {:induction false} CallKeepsWindow(w: World, self: Address, tx: WorldTx, id: MandateId, log: seq<Paid>,
      now: nat)
    requires id in w.mandates && WindowInv(w.mandates[id], log, now) && now <= tx.now
    requires tx.call.Setting? ==> tx.call.id != id
    ensures var w' := WorldAfter(w, self, tx);
            var paid := tx.call.Paying? && tx.call.id == id && Try(w, self, tx).Some?;
            && id in w'.mandates && w'.mandates[id].terms == w.mandates[id].terms
            && WindowInv(w'.mandates[id], if paid then log + [Paid(tx.now, tx.call.amount)] else log, tx.now)
  {
    if tx.call.Paying? && tx.call.id == id && Try(w, self, tx).Some? {
      hide Move, Transfer, WindowInv;
      ChargeKeeps(w.mandates[id], log, now, tx.now, tx.call.amount);
      ChargeKeepsTerms(w.mandates[id], tx.now, tx.call.amount);
    } else {
      hide Try;
      WindowWaits(w.mandates[id], log, now, tx.now);
      OtherCallsKeepWindow(w, self, tx, id);
    }
  }

  /** From the call that sets a mandate until it is set again: at any moment the window holds at
      most the budget, and any closed interval of the window's length at most twice the budget. */
  lemma {:induction false} WindowHolds(w: World, self: Address, txs: seq<WorldTx>, id: MandateId, now: nat)
    requires id in w.mandates && w.mandates[id].windowStart == now && w.mandates[id].windowSpent == 0
    requires w.mandates[id].terms.budgetWindowSeconds > 0
    requires ClockedFrom(now, txs) && NotReset(id, txs)
    ensures var w' := RunWorld(w, self, txs);
            && id in w'.mandates && w'.mandates[id].terms == w.mandates[id].terms
            && WindowInv(w'.mandates[id], PaidUnder(w, self, txs, id), EndOf(now, txs))
  {
    if txs != [] {
      hide Try, WindowInv;
      ClockedInit(now, txs);
      assert NotReset(id, Init(txs)) && Last(txs) in txs;
      WindowHolds(w, self, Init(txs), id, now);
      CallKeepsWindow(RunWorld(w, self, Init(txs)), self, Last(txs), id, PaidUnder(w, self, Init(txs), id),
                      EndOf(now, Init(txs)));
    }
  }

  lemma {:induction false} ClockedInit(now: nat, txs: seq<WorldTx>)
    requires ClockedFrom(now, txs) && txs != []
    ensures ClockedFrom(now, Init(txs)) && EndOf(now, Init(txs)) <= Last(txs).now
  {
    assert forall i :: 0 <= i < |Init(txs)| ==> Init(txs)[i] == txs[i];
  }

  lemma {:induction false} ChargeKeepsTerms(m: OnchainMandate, now: nat, amount: Word)
    requires Charge(m, now, amount).Some?
    ensures Charge(m, now, amount).value.terms == m.terms
  {}

  lemma {:induction false} WindowWaits(m: OnchainMandate, log: seq<Paid>, now: nat, later: nat)
    requires WindowInv(m, log, now) && now <= later
    ensures WindowInv(m, log, later)
  {
    PaidUpTo(log, m.windowStart, now, later);
  }

  lemma {:induction false} OtherCallsKeepWindow(w: World, self: Address, tx: WorldTx, id: MandateId)
    requires id in w.mandates
    requires !(tx.call.Setting? && tx.call.id == id)
    requires !(tx.call.Paying? && tx.call.id == id && Try(w, self, tx).Some?)
    ensures var w' := WorldAfter(w, self, tx);
            id in w'.mandates && w'.mandates[id] == w.mandates[id].(revoked := w'.mandates[id].revoked)
  {
    hide Move, Charge;
  }
}
