/** The full rescan and the three-way reconciliation (ledger/ledger.go), and what a clean report
    proves about the token contract. */
module Reconciliation {
  import opened Common
  import opened Transfers
  import opened Chain
  import opened Stablecoin

  datatype Mismatch = SupplyMismatch | SumMismatch | AccountMismatch(account: Address)

  datatype Report = Report(
    onChainSupply: int,
    ledgerSupply: int,
    sumBalances: int,
    minted: int,
    burned: int,
    accounts: nat,
    events: nat,
    mismatches: seq<Mismatch>)

  datatype Result = Failed | Checked(report: Report)

  /** Which of the node's answers arrive. */
  datatype Answers = Answers(logs: bool, supply: bool, balances: set<Address>)

  /** An account whose indexed balance is not the on-chain one. */
  predicate Differs(t: Totals, st: TokenState, a: Address) {
    a in t.balances && t.balances[a] != st.BalanceOf(a)
  }

  /** What the report must list: the two totals first, then the accounts in ascending order. */
  ghost predicate Lists(mismatches: seq<Mismatch>, t: Totals, st: TokenState) {
    && (SupplyMismatch in mismatches <==> t.Supply() != st.totalSupply)
    && (SumMismatch in mismatches <==> Sum(t.balances) != st.totalSupply)
    && (forall a: Address :: AccountMismatch(a) in mismatches <==> Differs(t, st, a))
    && (forall i, j :: 0 <= i < j < |mismatches| ==> Before(mismatches[i], mismatches[j]))
  }

  predicate Before(x: Mismatch, y: Mismatch) {
    match (x, y)
    case (SupplyMismatch, SupplyMismatch) => false
    case (SupplyMismatch, _) => true
    case (SumMismatch, AccountMismatch(_)) => true
    case (AccountMismatch(a), AccountMismatch(b)) => a < b
    case _ => false
  }

  /** The three checks all pass. */
  ghost predicate Clean(t: Totals, st: TokenState) {
    && t.Supply() == st.totalSupply
    && Sum(t.balances) == st.totalSupply
    && forall a: Address :: !Differs(t, st, a)
  }

  lemma {:induction false} NothingListedIffClean(mismatches: seq<Mismatch>, t: Totals, st: TokenState)
    requires Lists(mismatches, t, st)
    ensures mismatches == [] <==> Clean(t, st)
  {
    if mismatches != [] {
      var first := mismatches[0];
      assert first in mismatches;
      match first
      case SupplyMismatch =>
      case SumMismatch =>
      case AccountMismatch(a) => assert Differs(t, st, a);
    }
  }

  lemma {:induction false} ListsAll(totals: seq<Mismatch>, accounts: seq<Mismatch>, t: Totals, st: TokenState)
    requires totals == (if t.Supply() != st.totalSupply then [SupplyMismatch] else [])
                     + (if Sum(t.balances) != st.totalSupply then [SumMismatch] else [])
    requires forall a: Address :: AccountMismatch(a) in accounts <==> Differs(t, st, a)
    requires forall i :: 0 <= i < |accounts| ==> accounts[i].AccountMismatch?
    requires forall i, j :: 0 <= i < j < |accounts| ==> Before(accounts[i], accounts[j])
    ensures Lists(totals + accounts, t, st)
  {
    var all := totals + accounts;
    assert forall m :: m in all <==> m in totals || m in accounts;
    forall i, j | 0 <= i < j < |all|
      ensures Before(all[i], all[j])
    {
      if |totals| <= i {
        assert all[i] == accounts[i - |totals|] && all[j] == accounts[j - |totals|];
      } else if |totals| <= j {
        assert all[i] == totals[i] && all[j] == accounts[j - |totals|];
      }
    }
  }

  method Least(s: set<Address>) returns (m: Address)
    requires s != {}
    ensures m in s && forall a :: a in s ==> m <= a
  {
    m :| m in s;
    var rest := s - {m};
    while rest != {}
      invariant rest <= s && m in s
      invariant forall a :: a in s ==> a in rest || m <= a
      decreases |rest|
    {
      var a :| a in rest;
      if a < m {
        m := a;
      }
      rest := rest - {a};
    }
  }

  method SortedAddresses(keys: set<Address>) returns (sorted: seq<Address>)
    ensures forall a: Address :: a in sorted <==> a in keys
    ensures forall i, j :: 0 <= i < j < |sorted| ==> sorted[i] < sorted[j]
  {
    sorted := [];
    var rest := keys;
    while rest != {}
      invariant rest <= keys
      invariant forall a: Address :: a in sorted <==> a in keys - rest
      invariant forall i, j :: 0 <= i < j < |sorted| ==> sorted[i] < sorted[j]
      invariant forall i, a :: 0 <= i < |sorted| && a in rest ==> sorted[i] < a
      decreases |rest|
    {
      var m := Least(rest);
      sorted := sorted + [m];
      rest := rest - {m};
    }
  }

  method SumOf(balances: map<Address, int>) returns (sum: int)
    ensures sum == Sum(balances)
  {
    sum := 0;
    var rest := balances;
    while rest.Keys != {}
      invariant rest.Keys <= balances.Keys
      invariant forall a :: a in rest ==> rest[a] == balances[a]
      invariant sum + Sum(rest) == Sum(balances)
      decreases |rest.Keys|
    {
      var a :| a in rest.Keys;
      SumRemove(rest, a);
      sum := sum + rest[a];
      var smaller := rest - {a};
      assert smaller.Keys == rest.Keys - {a};
      rest := smaller;
    }
    assert rest == map[];
    SumEmpty();
  }

  class RescanLedger {
    const aggregates: Aggregates

    constructor ()
      ensures fresh(aggregates) && aggregates.View() == EmptyTotals
    {
      var a := new Aggregates();
      aggregates := a;
    }

    /** Re-read every log from genesis. A failed read leaves the previous aggregates in place. */
    method Sync(c: Blocks, logsArrive: bool) returns (ok: bool)
      modifies aggregates
      ensures ok == logsArrive
      ensures aggregates.View() == if ok then Rescan(c) else old(aggregates.View())
    {
      if !logsArrive {
        return false;
      }
      var logs := FilterLogs(c, 0, |c|);
      aggregates.Reset();
      var i := 0;
      while i < |logs|
        invariant 0 <= i <= |logs|
        invariant aggregates.View() == Fold(EmptyTotals, EntryEvents(logs[..i]))
      {
        var parsed := ParseTransferLog(logs[i].log);
        assert Init(logs[..i + 1]) == logs[..i];
        if parsed.Some? {
          assert Init(EntryEvents(logs[..i]) + [parsed.value]) == EntryEvents(logs[..i]);
          aggregates.Apply(parsed.value);
        }
        i := i + 1;
      }
      assert logs[..i] == logs;
      EntriesAreEvents(c, 0, |c|);
      return true;
    }

    /** Rescan, then compare with the contract's totalSupply and balanceOf. */
    method Reconcile(c: Blocks, token: TokenState, answers: Answers) returns (result: Result)
      modifies aggregates
      ensures !answers.logs ==> result == Failed && aggregates.View() == old(aggregates.View())
      ensures answers.logs ==> aggregates.View() == Rescan(c) && Reports(result, aggregates.View(), token, answers)
    {
      var ok := Sync(c, answers.logs);
      if !ok {
        return Failed;
      }
      result := Compare(aggregates.View(), token, answers);
    }
  }

  /** What a reconciliation of the aggregates t with the contract returns. */
  ghost predicate Reports(result: Result, t: Totals, token: TokenState, answers: Answers) {
    && (result.Checked? <==> answers.supply && t.balances.Keys <= answers.balances)
    && (result.Checked? ==>
          var r := result.report;
          && Lists(r.mismatches, t, token)
          && r.onChainSupply == token.totalSupply && r.ledgerSupply == t.Supply()
          && r.sumBalances == Sum(t.balances) && r.minted == t.minted && r.burned == t.burned
          && r.accounts == |t.balances| && r.events == t.events)
  }

  method Compare(t: Totals, token: TokenState, answers: Answers) returns (result: Result)
    ensures Reports(result, t, token, answers)
  {
    if !answers.supply {
      return Failed;
    }
    var sum := SumOf(t.balances);
    var totals: seq<Mismatch> := [];
    if t.minted - t.burned != token.totalSupply {
      totals := totals + [SupplyMismatch];
    }
    if sum != token.totalSupply {
      totals := totals + [SumMismatch];
    }
    var read, accounts := CompareAccounts(t, token, answers.balances);
    if !read {
      return Failed;
    }
    ListsAll(totals, accounts, t, token);
    return Checked(Report(
      token.totalSupply, t.minted - t.burned, sum, t.minted, t.burned, |t.balances|, t.events, totals + accounts));
  }

  /** The per-account check, in ascending address order; it stops when a balance cannot be read. */
  method CompareAccounts(t: Totals, token: TokenState, readable: set<Address>) returns (ok: bool, found: seq<Mismatch>)
    ensures ok <==> forall a :: a in t.balances ==> a in readable
    ensures ok ==> forall a: Address :: AccountMismatch(a) in found <==> Differs(t, token, a)
    ensures ok ==> forall i :: 0 <= i < |found| ==> found[i].AccountMismatch?
    ensures ok ==> forall i, j :: 0 <= i < j < |found| ==> Before(found[i], found[j])
  {
    var addrs := SortedAddresses(t.balances.Keys);
    found := [];
    var i := 0;
    while i < |addrs|
      invariant 0 <= i <= |addrs|
      invariant forall j :: 0 <= j < i ==> addrs[j] in readable
      invariant forall a: Address :: AccountMismatch(a) in found <==> a in addrs[..i] && Differs(t, token, a)
      invariant forall k :: 0 <= k < |found| ==> found[k].AccountMismatch? && found[k].account in addrs[..i]
      invariant forall k, l :: 0 <= k < l < |found| ==> Before(found[k], found[l])
    {
      var a := addrs[i];
      if a !in readable {
        assert a in addrs;
        return false, [];
      }
      if token.BalanceOf(a) != t.balances[a] {
        found := found + [AccountMismatch(a)];
      }
      i := i + 1;
    }
    assert addrs[..i] == addrs;
    return true, found;
  }

  function EntryEvents(logs: seq<LogEntry>): seq<TransferEvent> {
    if logs == [] then []
    else match ParseTransferLog(Last(logs).log)
      case Some(ev) => EntryEvents(Init(logs)) + [ev]
      case None => EntryEvents(Init(logs))
  }

  lemma {:induction false} EntryConcat(a: seq<LogEntry>, b: seq<LogEntry>)
    ensures EntryEvents(a + b) == EntryEvents(a) + EntryEvents(b)
  {
    if b == [] {
      ConcatEmpty(a);
    } else {
      InitOfConcat(a, b);
      EntryConcat(a, Init(b));
    }
  }

  lemma {:induction false} BlockEntries(c: Blocks, n: nat, k: nat)
    requires n < |c| && k <= |c[n].logs|
    ensures EntryEvents(BlockLogs(c, n)[..k]) == LogEvents(c[n].logs[..k])
  {
    if k > 0 {
      BlockEntries(c, n, k - 1);
      assert Init(BlockLogs(c, n)[..k]) == BlockLogs(c, n)[..k - 1];
      assert Init(c[n].logs[..k]) == c[n].logs[..k - 1];
    }
  }

  lemma {:induction false} EntriesAreEvents(c: Blocks, from: nat, to: nat)
    requires to <= |c|
    ensures EntryEvents(FilterLogs(c, from, to)) == EventsIn(c, from, to)
  {
    if from < to {
      EntriesAreEvents(c, from, to - 1);
      EntryConcat(FilterLogs(c, from, to - 1), BlockLogs(c, to - 1));
      var n := |c[to - 1].logs|;
      BlockEntries(c, to - 1, n);
      assert BlockLogs(c, to - 1)[..n] == BlockLogs(c, to - 1);
      assert c[to - 1].logs[..n] == c[to - 1].logs;
    }
  }

  // ---- What a clean report proves ----

  /** The checks only look at indexed accounts, yet a clean report settles every account: the
      sums leave nothing for an account the ledger has never seen. */
  lemma {:induction false} CleanMeansEqual(t: Totals, st: TokenState, a: Address)
    requires Clean(t, st) && Solid(st)
    ensures t.BalanceOf(a) == st.BalanceOf(a)
  {
    assert !Differs(t, st, a);
    if a !in t.balances {
      var filled := t.balances[a := st.BalanceOf(a)];
      forall b: nat
        ensures Lookup(filled, b) <= Lookup(st.balances, b)
      {
        if b in t.balances {
          assert !Differs(t, st, b);
        }
      }
      SumMonotone(filled, st.balances);
      SumUpdate(t.balances, a, st.BalanceOf(a));
    }
  }

  /** The log list with one log missing. */
  function Without(evs: seq<TransferEvent>, i: nat): seq<TransferEvent>
    requires i < |evs|
  {
    evs[..i] + evs[i + 1..]
  }

  lemma {:induction false} FlowOfOne(ev: TransferEvent, a: Address)
    ensures Received([ev], a) == if ev.to == a then ev.value else 0
    ensures Sent([ev], a) == if ev.from == a then ev.value else 0
  {
    assert Init([ev]) == [];
  }

  /** What the missing log takes away from each account. */
  lemma {:induction false} WithoutFlow(evs: seq<TransferEvent>, i: nat, a: Address)
    requires i < |evs|
    ensures Received(evs, a) == Received(Without(evs, i), a) + if evs[i].to == a then evs[i].value else 0
    ensures Sent(evs, a) == Sent(Without(evs, i), a) + if evs[i].from == a then evs[i].value else 0
  {
    assert evs == evs[..i] + ([evs[i]] + evs[i + 1..]);
    ReceivedConcat(evs[..i], [evs[i]] + evs[i + 1..], a);
    ReceivedConcat([evs[i]], evs[i + 1..], a);
    ReceivedConcat(evs[..i], evs[i + 1..], a);
    FlowOfOne(evs[i], a);
  }

  /** A ledger that misses one log of the token's history is reported exactly when that log moved
      value between two different endpoints. */
  lemma {:induction false} DroppedLogReportedIff(evs: seq<TransferEvent>, st: TokenState, i: nat)
    requires i < |evs| && Solid(st) && Tracks(Fold(EmptyTotals, evs), st)
    ensures !Clean(Fold(EmptyTotals, Without(evs, i)), st) <==> evs[i].value > 0 && evs[i].from != evs[i].to
  {
    var ev := evs[i];
    var t := Fold(EmptyTotals, evs);
    var t' := Fold(EmptyTotals, Without(evs, i));
    FoldIsNetFlow(evs);
    FoldIsNetFlow(Without(evs, i));
    if ev.value > 0 && ev.from != ev.to {
      var a := if ev.to != ZERO_ADDRESS then ev.to else ev.from;
      WithoutFlow(evs, i, a);
      assert t.BalanceOf(a) == st.BalanceOf(a);
      assert t'.BalanceOf(a) != t.BalanceOf(a);
      if Clean(t', st) {
        CleanMeansEqual(t', st, a);
        assert false;
      }
    } else {
      WithoutFlow(evs, i, ZERO_ADDRESS);
      FoldConserves(Without(evs, i));
      forall a: Address
        ensures !Differs(t', st, a)
      {
        WithoutFlow(evs, i, a);
        assert a != ZERO_ADDRESS ==> t.BalanceOf(a) == st.BalanceOf(a);
      }
    }
  }
}
