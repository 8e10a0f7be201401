/** Who may do what with the deposits: over every run of calls by anyone, exactly when a call to the
    contract takes effect, and what it then does to every deposit, mandate and token balance. */
module SpendLaws {
  import opened Common
  import opened Stablecoin
  import opened DelegatedSpend
  import opened SpendSafety
  import TokenLaws

  /** The agent of a live mandate pays a listed payee in time, within the cap, the budget and the
      deposit. A window whose end no word can hold blocks the mandate. */
  predicate MayPay(w: World, sender: Address, now: nat, id: MandateId, to: Address, amount: Word) {
    var m, t := w.MandateOf(id), w.MandateOf(id).terms;
    && sender == t.agent
    && !m.revoked
    && t.validAfter < now < t.validBefore
    && (t.payees == [] || to in t.payees)
    && amount <= t.maxAmountPerPayment
    && (t.budgetWindowSeconds == 0 || m.windowStart + t.budgetWindowSeconds < WORD_SPACE)
    && SpentBefore(m, now) + amount <= t.budgetAmount
    && amount <= w.DepositOf(m.delegator)
  }

  /** Whether a mandate with a window is past the end of it. */
  predicate WindowOver(m: OnchainMandate, now: nat) {
    0 < m.terms.budgetWindowSeconds <= now - m.windowStart
  }

  function SpentBefore(m: OnchainMandate, now: nat): nat { if WindowOver(m, now) then 0 else m.windowSpent }

  /** The token call that a call to the contract makes, if any. */
  function TokenCall(self: Address, tx: WorldTx): Option<Transaction> {
    match tx.call
    case OnToken(op) => Some(Transaction(tx.sender, tx.now, op))
    case Depositing(amount) => Some(Transaction(self, tx.now, DoTransferFrom(tx.sender, self, amount)))
    case Withdrawing(amount) => Some(Transaction(self, tx.now, DoTransfer(tx.sender, amount)))
    case Paying(_, to, amount) => Some(Transaction(self, tx.now, DoTransfer(to, amount)))
    case _ => None
  }

  /** Whether a call takes effect. Of the token it asks only that nothing stops the transfer and, for a
      deposit, that the depositor has and allows it: what the contract owes, it has. */
  predicate Allowed(w: World, self: Address, tx: WorldTx) {
    var c := w.token.controls;
    match tx.call
    case OnToken(op) => TokenLaws.Allowed(w.token, Transaction(tx.sender, tx.now, op))
    case Depositing(amount) =>
      && TokenLaws.Free(c, tx.sender, self)
      && amount <= w.token.BalanceOf(tx.sender) && amount <= w.token.Allowance(tx.sender, self)
    case Withdrawing(amount) => TokenLaws.Free(c, self, tx.sender) && amount <= w.DepositOf(tx.sender)
    case Setting(id, _) => w.MandateOf(id).delegator == ZERO_ADDRESS || w.MandateOf(id).delegator == tx.sender
    case Revoking(id) => w.MandateOf(id).delegator == tx.sender
    case Paying(id, to, amount) => TokenLaws.Free(c, self, to) && MayPay(w, tx.sender, tx.now, id, to, amount)
  }

  function DepositAfter(w: World, tx: WorldTx, d: Address): int {
    var before: int := w.DepositOf(d);
    match tx.call
    case Depositing(amount) => if tx.sender == d then before + amount else before
    case Withdrawing(amount) => if tx.sender == d then before - amount else before
    case Paying(id, _, amount) => if w.MandateOf(id).delegator == d then before - amount else before
    case _ => before
  }

  function MandateAfter(w: World, tx: WorldTx, i: MandateId): OnchainMandate {
    var m := w.MandateOf(i);
    match tx.call
    case Setting(id, terms) => if id == i then OnchainMandate(tx.sender, terms, false, tx.now, 0) else m
    case Revoking(id) => if id == i then OnchainMandate(m.delegator, m.terms, true, m.windowStart, m.windowSpent) else m
    case Paying(id, _, amount) =>
      if id == i then
        OnchainMandate(
          m.delegator, m.terms, m.revoked, if WindowOver(m, tx.now) then tx.now else m.windowStart,
          SpentBefore(m, tx.now) + amount)
      else m
    case _ => m
  }

  ghost predicate Changes(w: World, self: Address, tx: WorldTx, w': World) {
    && (forall d: Address :: w'.DepositOf(d) == DepositAfter(w, tx, d))
    && (forall i: MandateId :: w'.MandateOf(i) == MandateAfter(w, tx, i))
    && match TokenCall(self, tx)
       case Some(call) => TokenLaws.Changes(w.token, call, w'.token)
       case None => w'.token == w.token
  }

  // ---- One call ----

  /** The token's books balance, and the contract can pay what it owes. */
  ghost predicate Sound(w: World, self: Address) { Solid(w.token) && Covered(w, self) }

  /** The token moves by the one call the contract makes, if at all. */
  lemma {:induction false} TokenMovesBy(w: World, self: Address, tx: WorldTx)
    requires Try(w, self, tx).Some?
    ensures match TokenCall(self, tx)
            case Some(call) => WorldAfter(w, self, tx).token == StateAfter(w.token, call)
            case None => WorldAfter(w, self, tx).token == w.token
  {
    hide Move, Charge;
  }

  lemma {:induction false} SoundStays(w: World, self: Address, tx: WorldTx)
    requires Sound(w, self) && Outside(self, tx)
    ensures Sound(WorldAfter(w, self, tx), self)
  {
    CallKeepsCover(w, self, tx);
    if Try(w, self, tx).Some? {
      TokenMovesBy(w, self, tx);
      hide Solid, Covered, Try, StateAfter;
      if TokenCall(self, tx).Some? {
        SolidStays(w.token, TokenCall(self, tx).value);
      }
    }
  }

  lemma {:induction false} OwedIsThere(w: World, self: Address, d: Address)
    requires Covered(w, self)
    ensures w.DepositOf(d) <= w.token.BalanceOf(self)
  {
    forall k: nat
      ensures Lookup(w.deposits, k) >= 0
    {}
    SumBoundsOne(w.deposits, d);
  }

  lemma {:induction false} DepositLaw(w: World, self: Address, tx: WorldTx)
    requires Sound(w, self) && Outside(self, tx) && tx.call.Depositing?
    ensures Try(w, self, tx).Some? <==> Allowed(w, self, tx)
    ensures Try(w, self, tx).Some? ==> Changes(w, self, tx, Try(w, self, tx).value)
  {
    hide Sum, TransferFrom;
    var call := TokenCall(self, tx).value;
    TokenLaws.CallLaw(w.token, call);
    assert Execute(w.token, call) == TransferFrom(w.token, self, tx.sender, self, tx.call.amount);
    OwedIsThere(w, self, tx.sender);
    if Execute(w.token, call).Done? {
      SolidStays(w.token, call);
      TokenLaws.HeldWithinSupply(StateAfter(w.token, call), self);
    }
  }

  lemma {:induction false} WithdrawLaw(w: World, self: Address, tx: WorldTx)
    requires Sound(w, self) && Outside(self, tx) && tx.call.Withdrawing?
    ensures Try(w, self, tx).Some? <==> Allowed(w, self, tx)
    ensures Try(w, self, tx).Some? ==> Changes(w, self, tx, Try(w, self, tx).value)
  {
    hide Sum, Transfer, Solid;
    var call := TokenCall(self, tx).value;
    TokenLaws.CallLaw(w.token, call);
    assert Execute(w.token, call) == Transfer(w.token, self, tx.sender, tx.call.amount);
    OwedIsThere(w, self, tx.sender);
  }

  lemma {:induction false} PayLaw(w: World, self: Address, tx: WorldTx)
    requires Sound(w, self) && Outside(self, tx) && tx.call.Paying?
    ensures Try(w, self, tx).Some? <==> Allowed(w, self, tx)
    ensures Try(w, self, tx).Some? ==> Changes(w, self, tx, Try(w, self, tx).value)
  {
    hide Sum, Transfer, Solid;
    var call := TokenCall(self, tx).value;
    TokenLaws.CallLaw(w.token, call);
    assert Execute(w.token, call) == Transfer(w.token, self, tx.call.to, tx.call.amount);
    OwedIsThere(w, self, w.MandateOf(tx.call.id).delegator);
  }

  lemma {:induction false} CallLaw(w: World, self: Address, tx: WorldTx)
    requires Sound(w, self) && Outside(self, tx)
    ensures if Allowed(w, self, tx) then Changes(w, self, tx, WorldAfter(w, self, tx))
            else WorldAfter(w, self, tx) == w
  {
    hide Sum, Solid, Covered, TokenLaws.Changes;
    match tx.call
    case OnToken(op) =>
      TokenLaws.CallLaw(w.token, Transaction(tx.sender, tx.now, op));
      assert w.(token := w.token) == w;
    case Depositing(_) => DepositLaw(w, self, tx);
    case Withdrawing(_) => WithdrawLaw(w, self, tx);
    case Paying(_, _, _) => PayLaw(w, self, tx);
    case _ =>
  }

  // ---- Whole runs ----

  lemma {:induction false} SoundRun(w0: World, self: Address, txs: seq<WorldTx>)
    requires Sound(w0, self) && AllOutside(self, txs)
    ensures Sound(RunWorld(w0, self, txs), self)
  {
    if txs != [] {
      hide Sound, WorldAfter, Outside;
      assert Last(txs) in txs && AllOutside(self, Init(txs));
      SoundRun(w0, self, Init(txs));
      SoundStays(RunWorld(w0, self, Init(txs)), self, Last(txs));
    }
  }

  /** Over any run each call takes effect exactly when it is allowed, and otherwise leaves the whole world
      as it was. */
  lemma {:induction false} RunLaw(w0: World, self: Address, txs: seq<WorldTx>, i: nat)
    requires Sound(w0, self) && AllOutside(self, txs) && i < |txs|
    ensures var w, w' := RunWorld(w0, self, txs[..i]), RunWorld(w0, self, txs[..i + 1]);
            if Allowed(w, self, txs[i]) then Changes(w, self, txs[i], w') else w' == w
  {
    hide Sound, Allowed, Changes, WorldAfter, Outside;
    assert AllOutside(self, txs[..i]) && txs[i] in txs;
    SoundRun(w0, self, txs[..i]);
    InitOfTake(txs, i + 1);
    CallLaw(RunWorld(w0, self, txs[..i]), self, txs[i]);
  }

  /** Over any run a deposit falls exactly when its owner withdraws, or when the agent registered under
      an unrevoked mandate of the owner pays, strictly between the mandate's two times, a listed payee
      within the cap and the budget; nothing else lowers it. What leaves the deposit by a payment
      arrives at the payee. */
  lemma {:induction false} DepositFallsExactlyWhen(w0: World, self: Address, txs: seq<WorldTx>, i: nat, d: Address)
    requires Sound(w0, self) && AllOutside(self, txs) && i < |txs|
    ensures var w, w' := RunWorld(w0, self, txs[..i]), RunWorld(w0, self, txs[..i + 1]);
            var tx, c := txs[i], w.token.controls;
            w'.DepositOf(d) < w.DepositOf(d) <==>
              match tx.call
              case Withdrawing(amount) =>
                && tx.sender == d && 0 < amount <= w.DepositOf(d)
                && TokenLaws.Free(c, self, d)
              case Paying(id, to, amount) =>
                var m := w.MandateOf(id);
                && m.delegator == d && 0 < amount <= w.DepositOf(d)
                && tx.sender == m.terms.agent && !m.revoked
                && m.terms.validAfter < tx.now < m.terms.validBefore
                && (m.terms.payees == [] || to in m.terms.payees)
                && amount <= m.terms.maxAmountPerPayment
                && (m.terms.budgetWindowSeconds == 0 || m.windowStart + m.terms.budgetWindowSeconds < WORD_SPACE)
                && SpentBefore(m, tx.now) + amount <= m.terms.budgetAmount
                && TokenLaws.Free(c, self, to)
              case _ => false
    ensures var w, w' := RunWorld(w0, self, txs[..i]), RunWorld(w0, self, txs[..i + 1]);
            var tx := txs[i];
            w'.DepositOf(d) < w.DepositOf(d) && tx.call.Paying? ==>
              && w'.DepositOf(d) == w.DepositOf(d) - tx.call.amount
              && (tx.call.to != self ==>
                    && w'.token.BalanceOf(tx.call.to) == w.token.BalanceOf(tx.call.to) + tx.call.amount
                    && w'.token.BalanceOf(self) == w.token.BalanceOf(self) - tx.call.amount)
  {
    RunLaw(w0, self, txs, i);
    hide Sound, RunWorld, AllOutside;
  }

  /** Over any run a mandate is revoked only by its delegator, and its delegator, terms and revocation are
      otherwise changed only by setting it, which only its delegator may once it has one. */
  lemma {:induction false} MandateChangesOnlyBy(w0: World, self: Address, txs: seq<WorldTx>, i: nat, id: MandateId)
    requires Sound(w0, self) && AllOutside(self, txs) && i < |txs|
    ensures var m, m' := RunWorld(w0, self, txs[..i]).MandateOf(id), RunWorld(w0, self, txs[..i + 1]).MandateOf(id);
            var tx := txs[i];
            && (!m.revoked && m'.revoked <==> !m.revoked && tx.call == Revoking(id) && tx.sender == m.delegator)
            && ((m'.delegator, m'.terms) != (m.delegator, m.terms) || (m.revoked && !m'.revoked) ==>
                  && tx.call.Setting? && tx.call.id == id
                  && (m.delegator == ZERO_ADDRESS || m.delegator == tx.sender)
                  && m' == OnchainMandate(tx.sender, tx.call.terms, false, tx.now, 0))
  {
    RunLaw(w0, self, txs, i);
    hide Sound, RunWorld, AllOutside, MayPay;
  }
}
