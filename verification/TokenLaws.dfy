/** Who may do what with the token: over every run of calls from deployment, exactly when a call takes
    effect, and what it then does to every account, allowance and authorization. */
module TokenLaws {
  import opened Common
  import opened Stablecoin

  /** Nothing stops value on its way from one account to the other. */
  predicate Free(c: Controls, from: Address, to: Address) {
    && !c.paused
    && to != ZERO_ADDRESS
    && from !in c.frozen
    && to !in c.frozen
    && (!c.allowlistEnabled || {from, to} <= c.allowed)
  }

  /** The authorization is fresh, in time, and signed by the account it draws on; in the receive form
      its recipient submits it. */
  predicate Honourable(st: TokenState, sender: Address, now: nat, a: Authorization, recovered: Address,
      receiveOnly: bool)
  {
    && a.validAfter < now < a.validBefore
    && (a.from, a.nonce) !in st.used
    && recovered == a.from != ZERO_ADDRESS
    && (receiveOnly ==> sender == a.to)
  }

  /** Who may make a call, and when. Overflow is no part of it: the supply is bounded. */
  predicate Allowed(st: TokenState, tx: Transaction) {
    var c := st.controls;
    match tx.op
    case DoMint(to, value) =>
      && tx.sender == c.issuer && !c.paused && to != ZERO_ADDRESS
      && (!c.allowlistEnabled || to in c.allowed)
      && st.totalSupply + value < WORD_SPACE
    case DoBurn(from, value) => tx.sender == c.issuer && !c.paused && value <= st.BalanceOf(from)
    case DoTransfer(to, value) => Free(c, tx.sender, to) && value <= st.BalanceOf(tx.sender)
    case DoApprove(_, _) => !c.paused
    case DoTransferFrom(from, to, value) =>
      Free(c, from, to) && value <= st.BalanceOf(from) && value <= st.Allowance(from, tx.sender)
    case DoSettle(a, recovered, receiveOnly) =>
      && Free(c, a.from, a.to) && a.value <= st.BalanceOf(a.from)
      && Honourable(st, tx.sender, tx.now, a, recovered, receiveOnly)
    case DoAdminister(_) => true
  }

  /** Where value leaves and arrives; minting has no payer and burning no payee. */
  datatype Flow = Flow(from: Option<Address>, to: Option<Address>, value: nat)

  function FlowOf(tx: Transaction): Flow {
    match tx.op
    case DoMint(to, value) => Flow(None, Some(to), value)
    case DoBurn(from, value) => Flow(Some(from), None, value)
    case DoTransfer(to, value) => Flow(Some(tx.sender), Some(to), value)
    case DoTransferFrom(from, to, value) => Flow(Some(from), Some(to), value)
    case DoSettle(a, _, _) => Flow(Some(a.from), Some(a.to), a.value)
    case _ => Flow(None, None, 0)
  }

  function AllowanceAfter(st: TokenState, tx: Transaction, owner: Address, spender: Address): nat {
    var before := st.Allowance(owner, spender);
    match tx.op
    case DoApprove(s, value) => if (tx.sender, s) == (owner, spender) then value else before
    case DoTransferFrom(from, _, value) =>
      if (from, tx.sender) == (owner, spender) && before != MAX_WORD && value <= before then before - value else before
    case _ => before
  }

  function KeysSpent(tx: Transaction): set<(Address, Nonce)> {
    match tx.op case DoSettle(a, _, _) => {(a.from, a.nonce)} case _ => {}
  }

  /** What a call changes, one account, one allowance at a time. */
  ghost predicate Changes(st: TokenState, tx: Transaction, st': TokenState) {
    var f := FlowOf(tx);
    && (forall x: Address ::
          st'.BalanceOf(x) ==
            st.BalanceOf(x) + (if f.to == Some(x) then f.value else 0) - (if f.from == Some(x) then f.value else 0))
    && st'.totalSupply ==
         st.totalSupply + (if f.from.None? then f.value else 0) - (if f.to.None? then f.value else 0)
    && (forall o: Address, s: Address :: st'.Allowance(o, s) == AllowanceAfter(st, tx, o, s))
    && st'.used == st.used + KeysSpent(tx)
    && st'.controls == (if tx.op.DoAdminister? then tx.op.controls else st.controls)
  }

  // ---- One call ----

  lemma {:induction false} HeldWithinSupply(st: TokenState, x: Address)
    requires Solid(st)
    ensures st.BalanceOf(x) <= st.totalSupply < WORD_SPACE
  {
    forall k: nat
      ensures Lookup(st.balances, k) >= 0
    {}
    SumBoundsOne(st.balances, x);
  }

  /** A move succeeds exactly when it is free and covered. */
  lemma {:induction false} MoveLaw(st: TokenState, from: Address, to: Address, value: Word)
    requires Sum(st.balances) <= MAX_WORD
    ensures st.controls.paused ||
            (Move(st, from, to, value).Done? <==> Free(st.controls, from, to) && value <= st.BalanceOf(from))
    ensures Move(st, from, to, value).Done? ==>
              var st' := Move(st, from, to, value).state;
              && (forall x: Address ::
                    st'.BalanceOf(x) ==
                      st.BalanceOf(x) + (if x == to then value else 0) - (if x == from then value else 0))
              && st' == st.(balances := st'.balances)
  {
    if value <= st.BalanceOf(from) {
      var debited := Debit(st.balances, from, value);
      DebitSum(st.balances, from, value);
      forall k: nat
        ensures Lookup(debited, k) >= 0
      {}
      SumBoundsOne(debited, to);
    }
  }

  lemma {:induction false} MintLaw(st: TokenState, tx: Transaction)
    requires Solid(st) && tx.op.DoMint?
    ensures Execute(st, tx).Done? <==> Allowed(st, tx)
    ensures Execute(st, tx).Done? ==> Changes(st, tx, Execute(st, tx).state)
  {
    HeldWithinSupply(st, tx.op.to);
  }

  lemma {:induction false} BurnLaw(st: TokenState, tx: Transaction)
    requires Solid(st) && tx.op.DoBurn?
    ensures Execute(st, tx).Done? <==> Allowed(st, tx)
    ensures Execute(st, tx).Done? ==> Changes(st, tx, Execute(st, tx).state)
  {
    HeldWithinSupply(st, tx.op.from);
  }

  lemma {:induction false} TransferFromLaw(st: TokenState, tx: Transaction)
    requires Solid(st) && tx.op.DoTransferFrom?
    ensures Execute(st, tx).Done? <==> Allowed(st, tx)
    ensures Execute(st, tx).Done? ==> Changes(st, tx, Execute(st, tx).state)
  {
    hide Move;
    var from, value := tx.op.from, tx.op.value;
    var allowance := st.Allowance(from, tx.sender);
    var drawn := if allowance == MAX_WORD || allowance < value then st
                 else st.(allowances := st.allowances[(from, tx.sender) := allowance - value]);
    MoveLaw(drawn, from, tx.op.to, value);
  }

  lemma {:induction false} SettleLaw(st: TokenState, tx: Transaction)
    requires Solid(st) && tx.op.DoSettle?
    ensures Execute(st, tx).Done? <==> Allowed(st, tx)
    ensures Execute(st, tx).Done? ==> Changes(st, tx, Execute(st, tx).state)
  {
    hide Move;
    var a := tx.op.authorization;
    MoveLaw(st.(used := st.used + {(a.from, a.nonce)}), a.from, a.to, a.value);
  }

  /** One call on a solid token: it takes effect exactly when it is allowed. */
  lemma {:induction false} CallLaw(st: TokenState, tx: Transaction)
    requires Solid(st)
    ensures Execute(st, tx).Done? <==> Allowed(st, tx)
    ensures Execute(st, tx).Done? ==> Changes(st, tx, Execute(st, tx).state)
  {
    match tx.op
    case DoMint(_, _) => MintLaw(st, tx);
    case DoBurn(_, _) => BurnLaw(st, tx);
    case DoTransferFrom(_, _, _) => TransferFromLaw(st, tx);
    case DoSettle(_, _, _) => SettleLaw(st, tx);
    case DoTransfer(to, value) =>
      hide Move;
      MoveLaw(st, tx.sender, to, value);
    case _ =>
  }

  // ---- Whole runs ----

  lemma {:induction false} RunOneMore(st: TokenState, txs: seq<Transaction>, i: nat)
    requires i < |txs|
    ensures Run(st, txs[..i + 1]) == StateAfter(Run(st, txs[..i]), txs[i])
  {
    hide StateAfter;
    InitOfTake(txs, i + 1);
  }

  /** Over any run from deployment each call takes effect exactly when it is allowed, and otherwise leaves
      everything as it was. */
  lemma {:induction false} RunLaw(issuer: Address, txs: seq<Transaction>, i: nat)
    requires i < |txs|
    ensures var st, st' := Run(Deployed(issuer), txs[..i]), Run(Deployed(issuer), txs[..i + 1]);
            if Allowed(st, txs[i]) then Changes(st, txs[i], st') else st' == st
  {
    hide Run, Execute, Solid, Changes, Allowed;
    RunKeeps(issuer, txs[..i]);
    RunOneMore(Deployed(issuer), txs, i);
    CallLaw(Run(Deployed(issuer), txs[..i]), txs[i]);
  }

  /** Over any run an authorization is spent by exactly the calls that carry it fresh, strictly between
      its two times, signed by its payer, submitted by its recipient in the receive form, with the
      token running, nobody in the way and the balance there; and such a call moves exactly the value. */
  lemma {:induction false} SpentExactlyWhen(issuer: Address, txs: seq<Transaction>, i: nat)
    requires i < |txs|
    ensures var st, st' := Run(Deployed(issuer), txs[..i]), Run(Deployed(issuer), txs[..i + 1]);
            var tx, c := txs[i], st.controls;
            && (st'.used != st.used <==>
                  && tx.op.DoSettle?
                  && var a := tx.op.authorization;
                  && a.validAfter < tx.now < a.validBefore
                  && (a.from, a.nonce) !in st.used
                  && tx.op.recovered == a.from != ZERO_ADDRESS
                  && (tx.op.receiveOnly ==> tx.sender == a.to)
                  && !c.paused && a.to != ZERO_ADDRESS && a.from !in c.frozen && a.to !in c.frozen
                  && (c.allowlistEnabled ==> a.from in c.allowed && a.to in c.allowed)
                  && a.value <= st.BalanceOf(a.from))
            && (st'.used != st.used ==>
                  var a := tx.op.authorization;
                  && st'.used == st.used + {(a.from, a.nonce)}
                  && (a.from != a.to ==>
                        && st'.BalanceOf(a.from) == st.BalanceOf(a.from) - a.value
                        && st'.BalanceOf(a.to) == st.BalanceOf(a.to) + a.value)
                  && forall x: Address :: a.from == a.to || x !in {a.from, a.to} ==>
                       st'.BalanceOf(x) == st.BalanceOf(x))
  {
    hide Run;
    RunLaw(issuer, txs, i);
  }

  /** Over any run an account loses value only to its holder's call, a spender within the allowance,
      an authorization that recovers to it, or the issuer; and never more than that call names. */
  lemma {:induction false} LossNeedsConsent(issuer: Address, txs: seq<Transaction>, i: nat, x: Address)
    requires i < |txs|
    ensures var st, st' := Run(Deployed(issuer), txs[..i]), Run(Deployed(issuer), txs[..i + 1]);
            var tx, c := txs[i], st.controls;
            st'.BalanceOf(x) < st.BalanceOf(x) ==>
              && !c.paused
              && match tx.op
                 case DoTransfer(to, value) =>
                   tx.sender == x != to && st'.BalanceOf(x) == st.BalanceOf(x) - value && x !in c.frozen
                 case DoTransferFrom(from, to, value) =>
                   && from == x != to && st'.BalanceOf(x) == st.BalanceOf(x) - value && x !in c.frozen
                   && value <= st.Allowance(x, tx.sender)
                 case DoSettle(a, recovered, _) =>
                   && recovered == a.from == x != a.to && st'.BalanceOf(x) == st.BalanceOf(x) - a.value
                   && x !in c.frozen
                   && a.validAfter < tx.now < a.validBefore
                 case DoBurn(from, value) =>
                   from == x && tx.sender == c.issuer && st'.BalanceOf(x) == st.BalanceOf(x) - value
                 case _ => false
  {
    hide Run;
    RunLaw(issuer, txs, i);
  }
}
