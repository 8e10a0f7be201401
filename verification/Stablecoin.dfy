/** The tKRW token (contracts/KRWTestStablecoin.sol): each call as a function from state to state
    that either reverts or yields the new state and its Transfer logs, and the contract itself. */
module Stablecoin {
  import opened Common
  import opened Transfers

  const WORD_SPACE: nat := ADDRESS_SPACE * 0x1_00000000_00000000_00000000

  /** A uint256. Checked arithmetic reverts instead of leaving this range. */
  type Word = w: nat | w < WORD_SPACE

  const MAX_WORD: Word := WORD_SPACE - 1

  datatype Controls = Controls(
    issuer: Address,
    paused: bool,
    frozen: set<Address>,
    allowlistEnabled: bool,
    allowed: set<Address>,
    pendingIssuer: Address)

  datatype TokenState = TokenState(
    controls: Controls,
    totalSupply: nat,
    balances: map<Address, nat>,
    allowances: map<(Address, Address), nat>,
    used: set<(Address, Nonce)>)
  {
    function BalanceOf(a: Address): nat { if a in balances then balances[a] else 0 }

    function Allowance(owner: Address, spender: Address): nat {
      if (owner, spender) in allowances then allowances[(owner, spender)] else 0
    }
  }

  function Deployed(issuer: Address): TokenState {
    TokenState(Controls(issuer, false, {}, false, {}, ZERO_ADDRESS), 0, map[], map[], {})
  }

  /** An EIP-3009 authorization. */
  datatype Authorization = Authorization(
    from: Address, to: Address, value: Word, validAfter: nat, validBefore: nat, nonce: Nonce)

  /** A transaction either reverts as a whole or takes effect and emits its Transfer logs. */
  datatype Outcome = Reverted | Done(state: TokenState, events: seq<TransferEvent>)

  predicate MayMove(c: Controls, from: Address, to: Address) {
    && to != ZERO_ADDRESS
    && from !in c.frozen
    && to !in c.frozen
    && (c.allowlistEnabled ==> from in c.allowed && to in c.allowed)
  }

  function Mint(st: TokenState, sender: Address, to: Address, value: Word): Outcome {
    if sender != st.controls.issuer || st.controls.paused || to == ZERO_ADDRESS then Reverted
    else if st.controls.allowlistEnabled && to !in st.controls.allowed then Reverted
    else if st.totalSupply + value > MAX_WORD || st.BalanceOf(to) + value > MAX_WORD then Reverted
    else Done(
      st.(totalSupply := st.totalSupply + value, balances := st.balances[to := st.BalanceOf(to) + value]),
      [TransferEvent(ZERO_ADDRESS, to, value)])
  }

  function Burn(st: TokenState, sender: Address, from: Address, value: Word): Outcome {
    if sender != st.controls.issuer || st.controls.paused then Reverted
    else if st.BalanceOf(from) < value || st.totalSupply < value then Reverted
    else Done(
      st.(totalSupply := st.totalSupply - value, balances := st.balances[from := st.BalanceOf(from) - value]),
      [TransferEvent(from, ZERO_ADDRESS, value)])
  }

  function Debit(balances: map<Address, nat>, a: Address, value: nat): map<Address, nat>
    requires value <= if a in balances then balances[a] else 0
  {
    balances[a := (if a in balances then balances[a] else 0) - value]
  }

  function Credit(balances: map<Address, nat>, a: Address, value: nat): map<Address, nat> {
    balances[a := (if a in balances then balances[a] else 0) + value]
  }

  function Move(st: TokenState, from: Address, to: Address, value: Word): Outcome {
    if !MayMove(st.controls, from, to) || st.BalanceOf(from) < value then Reverted
    else
      var debited := Debit(st.balances, from, value);
      if (if to in debited then debited[to] else 0) + value > MAX_WORD then Reverted
      else Done(st.(balances := Credit(debited, to, value)), [TransferEvent(from, to, value)])
  }

  function Transfer(st: TokenState, sender: Address, to: Address, value: Word): Outcome {
    if st.controls.paused then Reverted else Move(st, sender, to, value)
  }

  function Approve(st: TokenState, sender: Address, spender: Address, value: Word): Outcome {
    if st.controls.paused then Reverted
    else Done(st.(allowances := st.allowances[(sender, spender) := value]), [])
  }

  /** An allowance of the largest word is unlimited and is not drawn down. */
  function TransferFrom(st: TokenState, sender: Address, from: Address, to: Address, value: Word): Outcome {
    var allowance := st.Allowance(from, sender);
    if st.controls.paused || allowance < value then Reverted
    else if allowance == MAX_WORD then Move(st, from, to, value)
    else Move(st.(allowances := st.allowances[(from, sender) := allowance - value]), from, to, value)
  }

  /** `recovered` is the address the signature recovers to, zero when it recovers to none.
      A receive authorization may only be submitted by its recipient. */
  function SettleAuthorization(st: TokenState, sender: Address, now: nat, a: Authorization, recovered: Address,
      receiveOnly: bool): Outcome
  {
    if st.controls.paused || (receiveOnly && a.to != sender) then Reverted
    else if now <= a.validAfter || now >= a.validBefore || (a.from, a.nonce) in st.used then Reverted
    else if recovered == ZERO_ADDRESS || recovered != a.from then Reverted
    else Move(st.(used := st.used + {(a.from, a.nonce)}), a.from, a.to, a.value)
  }

  datatype Operation =
    | DoMint(to: Address, value: Word)
    | DoBurn(from: Address, value: Word)
    | DoTransfer(to: Address, value: Word)
    | DoApprove(spender: Address, value: Word)
    | DoTransferFrom(from: Address, to: Address, value: Word)
    | DoSettle(authorization: Authorization, recovered: Address, receiveOnly: bool)
      /** Pause, freeze, allowlist and issuer handover: any new controls at all. */
    | DoAdminister(controls: Controls)

  /** A transaction. Nobody holds the key of the zero address, so it is never a sender. */
  datatype Transaction = Transaction(sender: Address, now: nat, op: Operation)

  function Execute(st: TokenState, tx: Transaction): Outcome {
    match tx.op
    case DoMint(to, value) => Mint(st, tx.sender, to, value)
    case DoBurn(from, value) => Burn(st, tx.sender, from, value)
    case DoTransfer(to, value) => Transfer(st, tx.sender, to, value)
    case DoApprove(spender, value) => Approve(st, tx.sender, spender, value)
    case DoTransferFrom(from, to, value) => TransferFrom(st, tx.sender, from, to, value)
    case DoSettle(a, recovered, receiveOnly) => SettleAuthorization(st, tx.sender, tx.now, a, recovered, receiveOnly)
    case DoAdminister(controls) => Done(st.(controls := controls), [])
  }

  function StateAfter(st: TokenState, tx: Transaction): TokenState {
    match Execute(st, tx) case Reverted => st case Done(st', _) => st'
  }

  function LogsOf(st: TokenState, tx: Transaction): seq<TransferEvent> {
    match Execute(st, tx) case Reverted => [] case Done(_, events) => events
  }

  /** The state after a list of transactions, oldest first. */
  function Run(st: TokenState, txs: seq<Transaction>): TokenState {
    if txs == [] then st else StateAfter(Run(st, Init(txs)), Last(txs))
  }

  /** The Transfer logs a list of transactions emits. */
  function RunLogs(st: TokenState, txs: seq<Transaction>): seq<TransferEvent> {
    if txs == [] then [] else RunLogs(st, Init(txs)) + LogsOf(Run(st, Init(txs)), Last(txs))
  }

  /** The books balance, and the zero address owns nothing. */
  ghost predicate Solid(st: TokenState) {
    && Sum(st.balances) == st.totalSupply <= MAX_WORD
    && st.BalanceOf(ZERO_ADDRESS) == 0
  }

  /** The aggregates of an off-chain ledger match the contract's state. */
  ghost predicate Tracks(t: Totals, st: TokenState) {
    && (forall a: Address :: a != ZERO_ADDRESS ==> t.BalanceOf(a) == st.BalanceOf(a))
    && t.Supply() == st.totalSupply
  }

  lemma {:induction false} DebitSum(balances: map<Address, nat>, a: Address, value: nat)
    requires value <= if a in balances then balances[a] else 0
    ensures Sum(Debit(balances, a, value)) == Sum(balances) - value
  {
    SumUpdate(balances, a, Lookup(balances, a) - value);
  }

  lemma {:induction false} CreditSum(balances: map<Address, nat>, a: Address, value: nat)
    ensures Sum(Credit(balances, a, value)) == Sum(balances) + value
  {
    SumUpdate(balances, a, Lookup(balances, a) + value);
  }

  lemma {:induction false} FoldOne(t: Totals, ev: TransferEvent)
    ensures Fold(t, [ev]) == Step(t, ev)
  {
    assert Init([ev]) == [];
  }

  lemma {:induction false} MintKeeps(st: TokenState, sender: Address, to: Address, value: Word, t: Totals)
    requires Solid(st) && Tracks(t, st) && Mint(st, sender, to, value).Done?
    ensures var r := Mint(st, sender, to, value); Solid(r.state) && Tracks(Fold(t, r.events), r.state)
  {
    hide Fold, Sum;
    var ev := TransferEvent(ZERO_ADDRESS, to, value);
    CreditSum(st.balances, to, value);
    FoldOne(t, ev);
    var st' := Mint(st, sender, to, value).state;
    forall a: Address | a != ZERO_ADDRESS
      ensures Step(t, ev).BalanceOf(a) == st'.BalanceOf(a)
    {
      assert t.BalanceOf(a) == st.BalanceOf(a);
    }
  }

  lemma {:induction false} BurnKeeps(st: TokenState, sender: Address, from: Address, value: Word, t: Totals)
    requires Solid(st) && Tracks(t, st) && Burn(st, sender, from, value).Done?
    ensures var r := Burn(st, sender, from, value); Solid(r.state) && Tracks(Fold(t, r.events), r.state)
  {
    hide Fold, Sum;
    var ev := TransferEvent(from, ZERO_ADDRESS, value);
    DebitSum(st.balances, from, value);
    FoldOne(t, ev);
    var st' := Burn(st, sender, from, value).state;
    forall a: Address | a != ZERO_ADDRESS
      ensures Step(t, ev).BalanceOf(a) == st'.BalanceOf(a)
    {
      assert t.BalanceOf(a) == st.BalanceOf(a);
    }
  }

  lemma {:induction false} MoveKeeps(st: TokenState, from: Address, to: Address, value: Word, t: Totals)
    requires Solid(st) && Tracks(t, st) && Move(st, from, to, value).Done?
    ensures var r := Move(st, from, to, value); Solid(r.state) && Tracks(Fold(t, r.events), r.state)
  {
    hide Fold, Sum;
    var ev := TransferEvent(from, to, value);
    DebitSum(st.balances, from, value);
    CreditSum(Debit(st.balances, from, value), to, value);
    FoldOne(t, ev);
    var st' := Move(st, from, to, value).state;
    forall a: Address | a != ZERO_ADDRESS
      ensures Step(t, ev).BalanceOf(a) == st'.BalanceOf(a)
    {
      assert t.BalanceOf(a) == st.BalanceOf(a);
    }
  }

  /** One transaction keeps the books balanced, and folding its logs keeps a ledger in step. */
  lemma {:induction false} TransactionKeeps(st: TokenState, tx: Transaction, t: Totals)
    requires Solid(st) && Tracks(t, st)
    ensures Solid(StateAfter(st, tx))
    ensures Tracks(Fold(t, LogsOf(st, tx)), StateAfter(st, tx))
  {
    hide Mint, Burn, Move, Fold, Sum;
    FoldNone(t);
    match tx.op
    case DoMint(to, value) =>
      if Mint(st, tx.sender, to, value).Done? {
        MintKeeps(st, tx.sender, to, value, t);
      }
    case DoBurn(from, value) =>
      if Burn(st, tx.sender, from, value).Done? {
        BurnKeeps(st, tx.sender, from, value, t);
      }
    case DoTransfer(to, value) =>
      if Move(st, tx.sender, to, value).Done? {
        MoveKeeps(st, tx.sender, to, value, t);
      }
    case DoTransferFrom(from, to, value) =>
      var allowance := st.Allowance(from, tx.sender);
      var drawn := if allowance == MAX_WORD || allowance < value then st
                   else st.(allowances := st.allowances[(from, tx.sender) := allowance - value]);
      if Move(drawn, from, to, value).Done? {
        MoveKeeps(drawn, from, to, value, t);
      }
    case DoSettle(a, _, _) =>
      var spent := st.(used := st.used + {(a.from, a.nonce)});
      if Move(spent, a.from, a.to, a.value).Done? {
        MoveKeeps(spent, a.from, a.to, a.value, t);
      }
    case DoApprove(_, _) =>
    case DoAdminister(_) =>
  }

  /** In particular one transaction keeps the books balanced. */
  lemma {:induction false} SolidStays(st: TokenState, tx: Transaction)
    requires Solid(st)
    ensures Solid(StateAfter(st, tx))
  {
    hide Solid, StateAfter;
    TransactionKeeps(st, tx, Totals(st.totalSupply, 0, st.balances, 0));
  }

  /** For every run of token calls from deployment: the balances add up to the total supply, and
      a fold over the emitted logs reproduces every balance and the supply. */
  lemma {:induction false} RunKeeps(issuer: Address, txs: seq<Transaction>)
    ensures Solid(Run(Deployed(issuer), txs))
    ensures Tracks(Fold(EmptyTotals, RunLogs(Deployed(issuer), txs)), Run(Deployed(issuer), txs))
  {
    var st0 := Deployed(issuer);
    if txs == [] {
      SumEmpty();
    } else {
      RunKeeps(issuer, Init(txs));
      var logs := RunLogs(st0, Init(txs));
      TransactionKeeps(Run(st0, Init(txs)), Last(txs), Fold(EmptyTotals, logs));
      FoldConcat(EmptyTotals, logs, LogsOf(Run(st0, Init(txs)), Last(txs)));
    }
  }

  /** A spent authorization stays spent, whatever happens next. */
  lemma {:induction false} UsedForever(st: TokenState, txs: seq<Transaction>)
    ensures st.used <= Run(st, txs).used
  {
    if txs != [] {
      UsedForever(st, Init(txs));
      OneTransactionUsed(Run(st, Init(txs)), Last(txs));
    }
  }

  lemma {:induction false} OneTransactionUsed(st: TokenState, tx: Transaction)
    ensures st.used <= StateAfter(st, tx).used
  {
    match tx.op
    case DoTransferFrom(from, to, value) =>
    case _ =>
  }

  /** How often a run executes the authorization (from, nonce). */
  ghost function TimesSettled(st: TokenState, txs: seq<Transaction>, from: Address, nonce: Nonce): nat {
    if txs == [] then 0
    else
      var before := Run(st, Init(txs));
      var op := Last(txs).op;
      TimesSettled(st, Init(txs), from, nonce)
        + if op.DoSettle? && op.authorization.from == from && op.authorization.nonce == nonce
          && Execute(before, Last(txs)).Done?
          then 1 else 0
  }

  /** Each authorization moves money at most once, and exactly when the contract marks it used. */
  lemma {:induction false} AuthorizationSettlesOnce(st: TokenState, txs: seq<Transaction>, from: Address, nonce: Nonce)
    requires (from, nonce) !in st.used
    ensures TimesSettled(st, txs, from, nonce) == if (from, nonce) in Run(st, txs).used then 1 else 0
  {
    if txs != [] {
      AuthorizationSettlesOnce(st, Init(txs), from, nonce);
      match Last(txs).op
      case DoTransferFrom(_, _, _) =>
      case DoSettle(_, _, _) =>
      case _ =>
    }
  }

  /** What a spender moved out of an owner's account through the allowance. */
  function MovedBy(st: TokenState, txs: seq<Transaction>, owner: Address, spender: Address): nat {
    if txs == [] then 0
    else
      var rest := MovedBy(st, Init(txs), owner, spender);
      var tx := Last(txs);
      if tx.sender == spender && tx.op.DoTransferFrom? && tx.op.from == owner && Execute(Run(st, Init(txs)), tx).Done?
      then rest + tx.op.value else rest
  }

  predicate NoApproval(txs: seq<Transaction>, owner: Address, spender: Address) {
    forall i :: 0 <= i < |txs| ==> !(txs[i].sender == owner && txs[i].op.DoApprove? && txs[i].op.spender == spender)
  }

  /** Between approvals a finite allowance pays for everything moved through it, and nothing else
      touches it; an unlimited one stays unlimited. */
  lemma {:induction false} AllowanceIsSpent(st: TokenState, txs: seq<Transaction>, owner: Address, spender: Address)
    requires NoApproval(txs, owner, spender) && st.Allowance(owner, spender) <= MAX_WORD
    ensures var before, now := st.Allowance(owner, spender), Run(st, txs).Allowance(owner, spender);
            if before == MAX_WORD then now == MAX_WORD else now + MovedBy(st, txs, owner, spender) == before
  {
    if txs != [] {
      hide Move, Execute, StateAfter;
      assert NoApproval(Init(txs), owner, spender) by {
        assert forall i :: 0 <= i < |Init(txs)| ==> Init(txs)[i] == txs[i];
      }
      assert Last(txs) == txs[|txs| - 1];
      AllowanceIsSpent(st, Init(txs), owner, spender);
      AllowanceStep(Run(st, Init(txs)), Last(txs), owner, spender);
    }
  }

  lemma {:induction false} AllowanceStep(st: TokenState, tx: Transaction, owner: Address, spender: Address)
    requires !(tx.sender == owner && tx.op.DoApprove? && tx.op.spender == spender)
    ensures var before, now := st.Allowance(owner, spender), StateAfter(st, tx).Allowance(owner, spender);
            var moves := tx.sender == spender && tx.op.DoTransferFrom? && tx.op.from == owner && Execute(st, tx).Done?;
            now == (if moves && before != MAX_WORD then before - tx.op.value else before)
            && (moves ==> tx.op.value <= before)
  {
    match tx.op
    case DoTransferFrom(from, to, value) =>
    case _ =>
  }

  // ---- The contract ----

  class KRWTestStablecoin {
    var controls: Controls
    var totalSupply: nat
    var balances: map<Address, nat>
    var allowances: map<(Address, Address), nat>
    var used: set<(Address, Nonce)>

    /** The Transfer logs emitted so far. The contract cannot read them. */
    ghost var emitted: seq<TransferEvent>

    function View(): TokenState
      reads this
    {
      TokenState(controls, totalSupply, balances, allowances, used)
    }

    constructor (sender: Address)
      ensures View() == Deployed(sender) && emitted == []
    {
      controls := Controls(sender, false, {}, false, {}, ZERO_ADDRESS);
      totalSupply, balances, allowances, used := 0, map[], map[], {};
      emitted := [];
    }

    /** Every method returns whether it took effect; when it reverts it leaves the state alone and
        emits nothing. */
    twostate predicate Follows(r: Outcome, ok: bool)
      reads this
    {
      && ok == r.Done?
      && View() == (if r.Done? then r.state else old(View()))
      && emitted == old(emitted) + if r.Done? then r.events else []
    }

    method MintTo(sender: Address, to: Address, value: Word) returns (ok: bool)
      modifies this
      ensures Follows(Mint(old(View()), sender, to, value), ok)
    {
      if sender != controls.issuer || controls.paused || to == ZERO_ADDRESS {
        return false;
      }
      if controls.allowlistEnabled {
        if to !in controls.allowed {
          return false;
        }
      }
      var balance := if to in balances then balances[to] else 0;
      if totalSupply + value > MAX_WORD || balance + value > MAX_WORD {
        return false;
      }
      totalSupply := totalSupply + value;
      balances := balances[to := balance + value];
      emitted := emitted + [TransferEvent(ZERO_ADDRESS, to, value)];
      return true;
    }

    method BurnFrom(sender: Address, from: Address, value: Word) returns (ok: bool)
      modifies this
      ensures Follows(Burn(old(View()), sender, from, value), ok)
    {
      if sender != controls.issuer || controls.paused {
        return false;
      }
      var balance := if from in balances then balances[from] else 0;
      if balance < value || totalSupply < value {
        return false;
      }
      balances := balances[from := balance - value];
      totalSupply := totalSupply - value;
      emitted := emitted + [TransferEvent(from, ZERO_ADDRESS, value)];
      return true;
    }

    method MoveFunds(from: Address, to: Address, value: Word) returns (ok: bool)
      modifies this`balances, this`emitted
      ensures Follows(Move(old(View()), from, to, value), ok)
    {
      if to == ZERO_ADDRESS || from in controls.frozen || to in controls.frozen {
        return false;
      }
      if controls.allowlistEnabled {
        if from !in controls.allowed || to !in controls.allowed {
          return false;
        }
      }
      var balance := if from in balances then balances[from] else 0;
      if balance < value {
        return false;
      }
      var debited := balances[from := balance - value];
      var target := if to in debited then debited[to] else 0;
      if target + value > MAX_WORD {
        return false;
      }
      balances := debited[to := target + value];
      emitted := emitted + [TransferEvent(from, to, value)];
      return true;
    }

    method TransferTo(sender: Address, to: Address, value: Word) returns (ok: bool)
      modifies this
      ensures Follows(Transfer(old(View()), sender, to, value), ok)
    {
      if controls.paused {
        return false;
      }
      ok := MoveFunds(sender, to, value);
    }

    method ApproveSpender(sender: Address, spender: Address, value: Word) returns (ok: bool)
      modifies this
      ensures Follows(Approve(old(View()), sender, spender, value), ok)
    {
      if controls.paused {
        return false;
      }
      allowances := allowances[(sender, spender) := value];
      return true;
    }

    method TransferOnBehalf(sender: Address, from: Address, to: Address, value: Word) returns (ok: bool)
      modifies this
      ensures Follows(TransferFrom(old(View()), sender, from, to, value), ok)
    {
      if controls.paused {
        return false;
      }
      var before := allowances;
      var allowance := if (from, sender) in allowances then allowances[(from, sender)] else 0;
      if allowance < value {
        return false;
      }
      if allowance != MAX_WORD {
        allowances := allowances[(from, sender) := allowance - value];
      }
      ok := MoveFunds(from, to, value);
      if !ok {
        allowances := before;
      }
    }

    method Settle(sender: Address, now: nat, a: Authorization, recovered: Address, receiveOnly: bool) returns (ok: bool)
      modifies this
      ensures Follows(SettleAuthorization(old(View()), sender, now, a, recovered, receiveOnly), ok)
    {
      if controls.paused {
        return false;
      }
      if receiveOnly && a.to != sender {
        return false;
      }
      if now <= a.validAfter || now >= a.validBefore || (a.from, a.nonce) in used {
        return false;
      }
      if recovered == ZERO_ADDRESS || recovered != a.from {
        return false;
      }
      var before := used;
      used := used + {(a.from, a.nonce)};
      ok := MoveFunds(a.from, a.to, a.value);
      if !ok {
        used := before;
      }
    }
  }
}
