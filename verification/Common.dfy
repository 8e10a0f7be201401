/** Types and sums shared by the other modules. */
module Common {

  datatype Option<+T> = None | Some(value: T)

  const ADDRESS_SPACE: nat := 0x1_00000000_00000000_00000000_00000000_00000000

  /** A 20-byte account address, read as a number. Zero stands for "no account". */
  type Address = a: nat | a < ADDRESS_SPACE

  const ZERO_ADDRESS: Address := 0

  /** A 32-byte value used once: the identifier of an EIP-3009 authorization. */
  type Nonce = nat

  /** A transaction hash. */
  type TxHash = nat

  function Last<T>(s: seq<T>): (r: T)
    requires s != []
  {
    s[|s| - 1]
  }

  function Init<T>(s: seq<T>): (r: seq<T>)
    requires s != []
  {
    s[..|s| - 1]
  }

  lemma {:induction false} InitOfConcat<T>(a: seq<T>, b: seq<T>)
    requires b != []
    ensures a + b != [] && Init(a + b) == a + Init(b) && Last(a + b) == Last(b)
  {}

  lemma {:induction false} ConcatEmpty<T>(a: seq<T>)
    ensures a + [] == a && [] + a == a
  {}

  lemma {:induction false} ConcatAssoc<T>(a: seq<T>, b: seq<T>, c: seq<T>)
    ensures a + b + c == a + (b + c)
  {}

  lemma {:induction false} InitOfSnoc<T>(a: seq<T>, x: T)
    ensures a + [x] != [] && Init(a + [x]) == a && Last(a + [x]) == x
  {}

  lemma {:induction false} InitOfTake<T>(a: seq<T>, n: nat)
    requires 0 < n <= |a|
    ensures a[..n] != [] && Init(a[..n]) == a[..n - 1] && Last(a[..n]) == a[n - 1]
  {}

  function Lookup(m: map<nat, int>, k: nat): int {
    if k in m then m[k] else 0
  }

  /** The sum of the values whose keys are below n. */
  ghost function SumBelow(m: map<nat, int>, n: nat): int {
    if n == 0 then 0 else SumBelow(m, n - 1) + Lookup(m, n - 1)
  }

  ghost predicate KeysBelow(m: map<nat, int>, n: nat) {
    forall k :: k in m ==> k < n
  }

  lemma {:induction false} BoundExists(s: set<nat>) returns (n: nat)
    ensures forall k :: k in s ==> k < n
  {
    n := 0;
    if s != {} {
      var x :| x in s;
      var m := BoundExists(s - {x});
      n := if x < m then m else x + 1;
      assert forall k :: k in s ==> k == x || k in s - {x};
    }
  }

  /** The sum of all the values of a map. */
  ghost function Sum(m: map<nat, int>): int {
    SumBelow(m, Bound(m))
  }

  ghost function Bound(m: map<nat, int>): (n: nat)
    ensures KeysBelow(m, n)
  {
    assert exists n: nat :: KeysBelow(m, n) by {
      var n := BoundExists(m.Keys);
      assert KeysBelow(m, n);
    }
    var n: nat :| KeysBelow(m, n);
    n
  }

  lemma {:induction false} SumBelowExtend(m: map<nat, int>, lo: nat, hi: nat)
    requires KeysBelow(m, lo) && lo <= hi
    ensures SumBelow(m, lo) == SumBelow(m, hi)
  {
    if lo < hi {
      SumBelowExtend(m, lo, hi - 1);
    }
  }

  /** Any bound on the keys gives the same sum. */
  lemma {:induction false} SumAt(m: map<nat, int>, n: nat)
    requires KeysBelow(m, n)
    ensures Sum(m) == SumBelow(m, n)
  {
    if n <= Bound(m) {
      SumBelowExtend(m, n, Bound(m));
    } else {
      SumBelowExtend(m, Bound(m), n);
    }
  }

  lemma {:induction false} SumBelowPointwise(m: map<nat, int>, m': map<nat, int>, n: nat)
    requires forall k: nat :: Lookup(m, k) <= Lookup(m', k)
    ensures SumBelow(m, n) <= SumBelow(m', n)
  {
    if n > 0 {
      SumBelowPointwise(m, m', n - 1);
    }
  }

  lemma {:induction false} SumMonotone(m: map<nat, int>, m': map<nat, int>)
    requires forall k: nat :: Lookup(m, k) <= Lookup(m', k)
    ensures Sum(m) <= Sum(m')
  {
    var n := Bound(m) + Bound(m');
    SumAt(m, n);
    SumAt(m', n);
    SumBelowPointwise(m, m', n);
  }

  /** Keys with value zero do not matter. */
  lemma {:induction false} SumSameLookups(m: map<nat, int>, m': map<nat, int>)
    requires forall k: nat :: Lookup(m, k) == Lookup(m', k)
    ensures Sum(m) == Sum(m')
  {
    SumMonotone(m, m');
    SumMonotone(m', m);
  }

  lemma {:induction false} SumBelowUpdate(m: map<nat, int>, k: nat, v: int, n: nat)
    ensures SumBelow(m[k := v], n) == SumBelow(m, n) + if k < n then v - Lookup(m, k) else 0
  {
    if n > 0 {
      SumBelowUpdate(m, k, v, n - 1);
    }
  }

  /** Writing one key moves the sum by the difference between the new and the old value. */
  lemma {:induction false} SumUpdate(m: map<nat, int>, k: nat, v: int)
    ensures Sum(m[k := v]) == Sum(m) - Lookup(m, k) + v
  {
    var n := Bound(m) + k + 1;
    SumAt(m, n);
    SumAt(m[k := v], n);
    SumBelowUpdate(m, k, v, n);
  }

  lemma {:induction false} SumRemove(m: map<nat, int>, k: nat)
    ensures Sum(m - {k}) == Sum(m) - Lookup(m, k)
  {
    SumUpdate(m, k, 0);
    SumSameLookups(m[k := 0], m - {k});
  }

  /** When every value is non-negative, so is the sum, and no value exceeds it. */
  lemma {:induction false} SumBoundsOne(m: map<nat, int>, k: nat)
    requires forall j: nat :: Lookup(m, j) >= 0
    ensures 0 <= Lookup(m, k) <= Sum(m)
  {
    SumEmpty();
    SumRemove(m, k);
    forall j: nat
      ensures Lookup(map[], j) <= Lookup(m - {k}, j)
    {
      assert Lookup(m, j) >= 0;
    }
    SumMonotone(map[], m - {k});
  }

  lemma {:induction false} SumEmpty()
    ensures Sum(map[]) == 0
  {
    SumAt(map[], 0);
  }
}
