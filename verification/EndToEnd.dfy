/** Contract, chain and ledger together: blocks of token transactions produce the logs that the
    ledger folds. */
module EndToEnd {
  import opened Common
  import opened Transfers
  import opened Chain
  import opened Stablecoin
  import IncrementalLedger
  import LedgerAgreement
  import Reconciliation

  /** The transactions of one block. */
  datatype TxBlock = TxBlock(tag: nat, txs: seq<Transaction>)

  const TRANSFER_TOPIC: nat := 0xddf252ad

  /** The log the contract emits for a transfer. */
  function LogOf(ev: TransferEvent): Log {
    Log([TRANSFER_TOPIC, ev.from, ev.to], ev.value)
  }

  function Emit(evs: seq<TransferEvent>): seq<Log> {
    if evs == [] then [] else Emit(Init(evs)) + [LogOf(Last(evs))]
  }

  function AllTxs(history: seq<TxBlock>): seq<Transaction> {
    if history == [] then [] else AllTxs(Init(history)) + Last(history).txs
  }

  /** The contract's state at the head. */
  function TokenAt(issuer: Address, history: seq<TxBlock>): TokenState {
    Run(Deployed(issuer), AllTxs(history))
  }

  /** The chain these transactions leave behind. */
  function ChainOf(issuer: Address, history: seq<TxBlock>): Blocks {
    if history == [] then []
    else
      var before := Init(history);
      ChainOf(issuer, before)
        + [Block(Last(history).tag, Emit(RunLogs(TokenAt(issuer, before), Last(history).txs)))]
  }

  lemma {:induction false} EmitParses(evs: seq<TransferEvent>)
    ensures LogEvents(Emit(evs)) == evs
  {
    if evs != [] {
      EmitParses(Init(evs));
      var logs := Emit(evs);
      assert Init(logs) == Emit(Init(evs)) && Last(logs) == LogOf(Last(evs));
      assert ParseTransferLog(LogOf(Last(evs))) == Some(Last(evs));
      assert Init(evs) + [Last(evs)] == evs;
    }
  }

  lemma {:induction false} RunConcat(st: TokenState, a: seq<Transaction>, b: seq<Transaction>)
    ensures Run(st, a + b) == Run(Run(st, a), b)
  {
    if b == [] {
      ConcatEmpty(a);
    } else {
      InitOfConcat(a, b);
      RunConcat(st, a, Init(b));
    }
  }

  lemma {:induction false} LogsConcat(st: TokenState, a: seq<Transaction>, b: seq<Transaction>)
    ensures RunLogs(st, a + b) == RunLogs(st, a) + RunLogs(Run(st, a), b)
  {
    hide LogsOf, StateAfter;
    if b == [] {
      ConcatEmpty(a);
    } else {
      InitOfConcat(a, b);
      LogsConcat(st, a, Init(b));
      RunConcat(st, a, Init(b));
      var x, y := RunLogs(st, a), RunLogs(Run(st, a), Init(b));
      var z := LogsOf(Run(Run(st, a), Init(b)), Last(b));
      assert RunLogs(st, a + b) == (x + y) + z;
      assert RunLogs(Run(st, a), b) == y + z;
    }
  }

  /** The events on the chain are the logs of the contract's whole history. */
  lemma {:induction false} ChainCarriesLogs(issuer: Address, history: seq<TxBlock>)
    ensures |ChainOf(issuer, history)| == |history|
    ensures Events(ChainOf(issuer, history)) == RunLogs(Deployed(issuer), AllTxs(history))
  {
    if history != [] {
      var before := Init(history);
      ChainCarriesLogs(issuer, before);
      var c, c' := ChainOf(issuer, before), ChainOf(issuer, history);
      EventsPrefix(c, c', 0, |c|);
      EmitParses(RunLogs(TokenAt(issuer, before), Last(history).txs));
      LogsConcat(Deployed(issuer), AllTxs(before), Last(history).txs);
    }
  }

  lemma {:induction false} RescanTracksToken(issuer: Address, history: seq<TxBlock>)
    ensures Solid(TokenAt(issuer, history))
    ensures Tracks(Rescan(ChainOf(issuer, history)), TokenAt(issuer, history))
  {
    ChainCarriesLogs(issuer, history);
    RunKeeps(issuer, AllTxs(history));
  }

  /** After any run of syncs, against any chains, that found its headers and skipped nothing: a further sync
      that succeeds and skips nothing shows, for every account, the balance the contract holds at the
      head, and the contract's supply. */
  lemma {:induction false} SnapshotIsOnChainState(depth: nat, calls: seq<LedgerAgreement.Call>, issuer: Address,
      history: seq<TxBlock>, answers: IncrementalLedger.Answers)
    requires LedgerAgreement.Steady(calls) && LedgerAgreement.NeverSkips(depth, calls) && history != []
    requires answers.header
    requires var s := LedgerAgreement.After(IncrementalLedger.Initial, depth, calls);
             && IncrementalLedger.Sync(s, ChainOf(issuer, history), depth, answers).1 == IncrementalLedger.Synced
             && LedgerAgreement.Skipped(s, ChainOf(issuer, history)) == []
    ensures var s := LedgerAgreement.After(IncrementalLedger.Initial, depth, calls);
            var synced := IncrementalLedger.Sync(s, ChainOf(issuer, history), depth, answers).0;
            var view := IncrementalLedger.SnapshotOf(synced);
            && (forall a: Address :: a != ZERO_ADDRESS ==> view.BalanceOf(a) == TokenAt(issuer, history).BalanceOf(a))
            && view.Supply() == TokenAt(issuer, history).totalSupply == Sum(TokenAt(issuer, history).balances)
  {
    hide LedgerAgreement.Inv, IncrementalLedger.Sync, LedgerAgreement.Skipped;
    LedgerAgreement.RunKeepsInv(depth, calls);
    SyncShowsOnChainState(LedgerAgreement.After(IncrementalLedger.Initial, depth, calls), issuer, history, depth,
                          answers);
  }

  lemma {:induction false} SyncShowsOnChainState(s: IncrementalLedger.State, issuer: Address, history: seq<TxBlock>,
      depth: nat, answers: IncrementalLedger.Answers)
    requires LedgerAgreement.Inv(s) && history != [] && answers.header
    requires IncrementalLedger.Sync(s, ChainOf(issuer, history), depth, answers).1 == IncrementalLedger.Synced
    requires LedgerAgreement.Skipped(s, ChainOf(issuer, history)) == []
    ensures var synced := IncrementalLedger.Sync(s, ChainOf(issuer, history), depth, answers).0;
            var view := IncrementalLedger.SnapshotOf(synced);
            && (forall a: Address :: a != ZERO_ADDRESS ==> view.BalanceOf(a) == TokenAt(issuer, history).BalanceOf(a))
            && view.Supply() == TokenAt(issuer, history).totalSupply == Sum(TokenAt(issuer, history).balances)
  {
    LedgerAgreement.SyncAgreesIff(s, ChainOf(issuer, history), depth, answers);
    RescanTracksToken(issuer, history);
  }

  /** Reconciling an honest rescan finds nothing; reconciling one that misses a log finds it
      exactly when the log moved value between different endpoints. */
  lemma {:induction false} ReconciliationCatchesGaps(issuer: Address, history: seq<TxBlock>, i: nat)
    requires i < |Events(ChainOf(issuer, history))|
    ensures Reconciliation.Clean(Rescan(ChainOf(issuer, history)), TokenAt(issuer, history))
    ensures var evs := Events(ChainOf(issuer, history));
            !Reconciliation.Clean(Fold(EmptyTotals, Reconciliation.Without(evs, i)), TokenAt(issuer, history))
            <==> evs[i].value > 0 && evs[i].from != evs[i].to
  {
    var evs := Events(ChainOf(issuer, history));
    var st := TokenAt(issuer, history);
    RescanTracksToken(issuer, history);
    Reconciliation.DroppedLogReportedIff(evs, st, i);
    FoldConserves(evs);
    FoldIsNetFlow(evs);
    forall a: Address
      ensures !Reconciliation.Differs(Rescan(ChainOf(issuer, history)), st, a)
    {
      assert a != ZERO_ADDRESS ==> Fold(EmptyTotals, evs).BalanceOf(a) == st.BalanceOf(a);
    }
  }
}
