/** The mint, burn and transfer rules of the off-chain ledger (ledger/ledger.go). */
module Transfers {
  import opened Common

  /** A decoded Transfer log: a mint (from zero), a burn (to zero) or a move between accounts. */
  datatype TransferEvent = TransferEvent(from: Address, to: Address, value: nat)

  /** The aggregates a ledger keeps. An account without a key has balance zero. */
  datatype Totals = Totals(minted: int, burned: int, balances: map<Address, int>, events: nat) {
    function Supply(): int { minted - burned }

    function BalanceOf(a: Address): int { Lookup(balances, a) }
  }

  const EmptyTotals: Totals := Totals(0, 0, map[], 0)

  function AddBalance(balances: map<Address, int>, a: Address, delta: int): map<Address, int> {
    balances[a := Lookup(balances, a) + delta]
  }

  /** What one event does to the aggregates, without the event counter. */
  function ApplyTransfer(t: Totals, ev: TransferEvent): Totals {
    var t1 := if ev.from == ZERO_ADDRESS then t.(minted := t.minted + ev.value)
              else t.(balances := AddBalance(t.balances, ev.from, 0 - ev.value));
    if ev.to == ZERO_ADDRESS then t1.(burned := t1.burned + ev.value)
    else t1.(balances := AddBalance(t1.balances, ev.to, ev.value))
  }

  function Step(t: Totals, ev: TransferEvent): Totals {
    ApplyTransfer(t, ev).(events := t.events + 1)
  }

  /** The meaning of a list of events: apply them oldest first. */
  function Fold(t: Totals, evs: seq<TransferEvent>): Totals {
    if evs == [] then t else Step(Fold(t, Init(evs)), Last(evs))
  }

  lemma {:induction false} FoldNone(t: Totals)
    ensures Fold(t, []) == t
  {}

  lemma {:induction false} FoldConcat(t: Totals, a: seq<TransferEvent>, b: seq<TransferEvent>)
    ensures Fold(t, a + b) == Fold(Fold(t, a), b)
  {
    if b == [] {
      ConcatEmpty(a);
    } else {
      InitOfConcat(a, b);
      FoldConcat(t, a, Init(b));
    }
  }

  lemma {:induction false} FoldCounts(t: Totals, evs: seq<TransferEvent>)
    ensures Fold(t, evs).events == t.events + |evs|
  {
    if evs != [] {
      FoldCounts(t, Init(evs));
    }
  }

  /** Independent reading of a list of events: what came in at an address. */
  function Received(evs: seq<TransferEvent>, a: Address): nat {
    if evs == [] then 0
    else Received(Init(evs), a) + if Last(evs).to == a then Last(evs).value else 0
  }

  /** Independent reading of a list of events: what went out of an address. */
  function Sent(evs: seq<TransferEvent>, a: Address): nat {
    if evs == [] then 0
    else Sent(Init(evs), a) + if Last(evs).from == a then Last(evs).value else 0
  }

  lemma {:induction false} ReceivedConcat(x: seq<TransferEvent>, y: seq<TransferEvent>, a: Address)
    ensures Received(x + y, a) == Received(x, a) + Received(y, a)
    ensures Sent(x + y, a) == Sent(x, a) + Sent(y, a)
  {
    if y == [] {
      ConcatEmpty(x);
    } else {
      InitOfConcat(x, y);
      ReceivedConcat(x, Init(y), a);
    }
  }

  lemma {:induction false} StepAdds(t: Totals, ev: TransferEvent, a: Address)
    ensures var t' := Step(t, ev);
            && t'.minted == t.minted + (if ev.from == ZERO_ADDRESS then ev.value else 0)
            && t'.burned == t.burned + (if ev.to == ZERO_ADDRESS then ev.value else 0)
            && t'.events == t.events + 1
            && t'.BalanceOf(a) == t.BalanceOf(a)
                 + (if a == ev.to && a != ZERO_ADDRESS then ev.value else 0)
                 - (if a == ev.from && a != ZERO_ADDRESS then ev.value else 0)
  {}

  /** The fold is additive: what it adds does not depend on where it starts. */
  lemma {:induction false} FoldIsAdditive(t: Totals, u: Totals, evs: seq<TransferEvent>, a: Address)
    ensures var t', u' := Fold(t, evs), Fold(u, evs);
            && t'.BalanceOf(a) - u'.BalanceOf(a) == t.BalanceOf(a) - u.BalanceOf(a)
            && t'.minted - u'.minted == t.minted - u.minted
            && t'.burned - u'.burned == t.burned - u.burned
            && t'.events - u'.events == t.events - u.events
  {
    hide Step, Totals.BalanceOf;
    if evs != [] {
      FoldIsAdditive(t, u, Init(evs), a);
      StepAdds(Fold(t, Init(evs)), Last(evs), a);
      StepAdds(Fold(u, Init(evs)), Last(evs), a);
    }
  }

  /** The fold is the net flow of every account; the zero address mints and burns and never
      holds a balance. */
  lemma {:induction false} FoldIsNetFlow(evs: seq<TransferEvent>)
    ensures var t := Fold(EmptyTotals, evs);
            && t.minted == Sent(evs, ZERO_ADDRESS)
            && t.burned == Received(evs, ZERO_ADDRESS)
            && t.events == |evs|
            && ZERO_ADDRESS !in t.balances
            && (forall a: Address :: a != ZERO_ADDRESS ==> t.BalanceOf(a) == Received(evs, a) - Sent(evs, a))
            && (forall a: Address :: a in t.balances <==>
                a != ZERO_ADDRESS && exists i :: 0 <= i < |evs| && (evs[i].from == a || evs[i].to == a))
  {
    if evs != [] {
      FoldIsNetFlow(Init(evs));
      var t, t' := Fold(EmptyTotals, Init(evs)), Fold(EmptyTotals, evs);
      var ev := Last(evs);
      forall a: Address
        ensures a in t'.balances <==>
                a != ZERO_ADDRESS && exists i :: 0 <= i < |evs| && (evs[i].from == a || evs[i].to == a)
      {
        assert a in t'.balances <==> a in t.balances || (a != ZERO_ADDRESS && (a == ev.from || a == ev.to));
        if i :| 0 <= i < |Init(evs)| && (Init(evs)[i].from == a || Init(evs)[i].to == a) {
          assert evs[i] == Init(evs)[i];
        }
        if i :| 0 <= i < |evs| && (evs[i].from == a || evs[i].to == a) {
          if i < |evs| - 1 {
            assert Init(evs)[i] == evs[i];
          }
        }
        assert evs[|evs| - 1] == ev;
      }
    }
  }

  lemma {:induction false} AddBalanceSum(balances: map<Address, int>, a: Address, delta: int)
    ensures Sum(AddBalance(balances, a, delta)) == Sum(balances) + delta
  {
    SumUpdate(balances, a, Lookup(balances, a) + delta);
  }

  lemma {:induction false} StepConserves(t: Totals, ev: TransferEvent)
    ensures Sum(Step(t, ev).balances) - Step(t, ev).Supply() == Sum(t.balances) - t.Supply()
  {
    var b := if ev.from == ZERO_ADDRESS then t.balances else AddBalance(t.balances, ev.from, 0 - ev.value);
    AddBalanceSum(t.balances, ev.from, 0 - ev.value);
    AddBalanceSum(b, ev.to, ev.value);
  }

  /** Value is neither created nor lost: the balances always add up to minted minus burned. */
  lemma {:induction false} FoldConserves(evs: seq<TransferEvent>)
    ensures Sum(Fold(EmptyTotals, evs).balances) == Fold(EmptyTotals, evs).Supply()
  {
    if evs == [] {
      SumEmpty();
    } else {
      FoldConserves(Init(evs));
      StepConserves(Fold(EmptyTotals, Init(evs)), Last(evs));
    }
  }

  /** The aggregates as the ledger holds them: numbers and a map that are updated in place. */
  class Aggregates {
    var minted: int
    var burned: int
    var balances: map<Address, int>
    var events: nat

    function View(): Totals
      reads this
    {
      Totals(minted, burned, balances, events)
    }

    constructor ()
      ensures View() == EmptyTotals
    {
      minted, burned, balances, events := 0, 0, map[], 0;
    }

    constructor Copy(source: Aggregates)
      ensures View() == source.View()
    {
      minted, burned := source.minted, source.burned;
      balances, events := source.balances, source.events;
    }

    method AddTo(a: Address, delta: int)
      modifies this`balances
      ensures balances == AddBalance(old(balances), a, delta)
    {
      if a !in balances {
        balances := balances[a := 0];
      }
      balances := balances[a := balances[a] + delta];
    }

    method Apply(ev: TransferEvent)
      modifies this
      ensures View() == Step(old(View()), ev)
    {
      if ev.from == ZERO_ADDRESS {
        minted := minted + ev.value;
      } else {
        AddTo(ev.from, 0 - ev.value);
      }
      if ev.to == ZERO_ADDRESS {
        burned := burned + ev.value;
      } else {
        AddTo(ev.to, ev.value);
      }
      events := events + 1;
    }

    method ApplyAll(evs: seq<TransferEvent>)
      modifies this
      ensures View() == Fold(old(View()), evs)
    {
      var i := 0;
      while i < |evs|
        invariant 0 <= i <= |evs|
        invariant View() == Fold(old(View()), evs[..i])
      {
        Apply(evs[i]);
        assert Init(evs[..i + 1]) == evs[..i];
        i := i + 1;
      }
      assert evs[..i] == evs;
    }

    method Reset()
      modifies this
      ensures View() == EmptyTotals
    {
      minted, burned, balances, events := 0, 0, map[], 0;
    }
  }
}
