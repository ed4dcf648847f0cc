// Shared vocabulary: optional values, 64-bit integers and sums over finite maps.

module Common {

  datatype Option<+T> = None | Some(value: T) {
    function GetOr(default: T): T {
      match this
      case Some(v) => v
      case None => default
    }
  }

  function Lookup<K, V>(m: map<K, V>, k: K): Option<V> {
    if k in m then Some(m[k]) else None
  }
}

module Integers {

  const MAX_I64: int := 0x7FFF_FFFF_FFFF_FFFF
  type I64 = x: int | -0x8000_0000_0000_0000 <= x <= 0x7FFF_FFFF_FFFF_FFFF

  /** 64-bit two's complement, the result of Rust i64 arithmetic without overflow checks. */
  function Wrap64(x: int): I64 {
    (x + 0x8000_0000_0000_0000) % 0x1_0000_0000_0000_0000 - 0x8000_0000_0000_0000
  }
}

module Sums {

  ghost function Pick(m: map<nat, int>): (k: nat)
    requires m != map[]
    ensures k in m
  {
    var k :| k in m;
    k
  }

  /** The sum of all values of a finite map. */
  ghost function Sum(m: map<nat, int>): int
    decreases |m|
  {
    if m == map[] then 0 else m[Pick(m)] + Sum(m - {Pick(m)})
  }

  lemma {:induction false} SumRemove(m: map<nat, int>, k: nat)
    requires k in m
    ensures Sum(m) == m[k] + Sum(m - {k})
    decreases |m|
  {
    var j := Pick(m);
    if j != k {
      SumRemove(m - {j}, k);
      SumRemove(m - {k}, j);
      assert (m - {j}) - {k} == (m - {k}) - {j};
    }
  }

  lemma SumUpdate(m: map<nat, int>, k: nat, v: int)
    ensures Sum(m[k := v]) == Sum(m) - (if k in m then m[k] else 0) + v
  {
    SumRemove(m[k := v], k);
    assert m[k := v] - {k} == m - {k};
    if k in m {
      SumRemove(m, k);
    } else {
      assert m - {k} == m;
    }
  }

  lemma {:induction false} SumNonNegative(m: map<nat, int>)
    requires forall k :: k in m ==> 0 <= m[k]
    ensures 0 <= Sum(m)
    decreases |m|
  {
    if m != map[] {
      SumNonNegative(m - {Pick(m)});
    }
  }

  /** Non-negative entries are bounded by the sum, and so are any two of them together. */
  lemma SumBounds(m: map<nat, int>, i: nat, j: nat)
    requires forall k :: k in m ==> 0 <= m[k]
    requires i in m && j in m && i != j
    ensures m[i] + m[j] <= Sum(m)
  {
    SumRemove(m, i);
    SumRemove(m - {i}, j);
    SumNonNegative(m - {i} - {j});
  }

  lemma SumBound(m: map<nat, int>, i: nat)
    requires forall k :: k in m ==> 0 <= m[k]
    requires i in m
    ensures m[i] <= Sum(m)
  {
    SumRemove(m, i);
    SumNonNegative(m - {i});
  }
}
