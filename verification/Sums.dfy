/** Sums of finite maps of amounts, where an absent key counts as zero. */
module Sums {

  function Get<K(==)>(m: map<K, real>, k: K): real {
    if k in m then m[k] else 0.0
  }

  ghost function Sum<K>(m: map<K, real>): real
    decreases |m|
  {
    if m == map[] then 0.0
    else
      var k :| k in m;
      m[k] + Sum(m - {k})
  }

  lemma {:induction false} SumRemove<K>(m: map<K, real>, k: K)
    requires k in m
    ensures Sum(m) == m[k] + Sum(m - {k})
    decreases |m|
  {
    var c :| c in m && Sum(m) == m[c] + Sum(m - {c});
    if c != k {
      SumRemove(m - {c}, k);
      SumRemove(m - {k}, c);
      assert m - {c} - {k} == m - {k} - {c};
    }
  }

  lemma SumUpdate<K>(m: map<K, real>, k: K, v: real)
    ensures Sum(m[k := v]) == Sum(m) - Get(m, k) + v
  {
    SumRemove(m[k := v], k);
    assert m[k := v] - {k} == m - {k};
    if k in m {
      SumRemove(m, k);
    } else {
      assert m - {k} == m;
    }
  }

  /** Sums are additive: adding two maps pointwise adds their sums. */
  lemma SumPlus<K(!new)>(a: map<K, real>, b: map<K, real>, c: map<K, real>)
    requires forall k :: Get(c, k) == Get(a, k) + Get(b, k)
    ensures Sum(c) == Sum(a) + Sum(b)
  {
    SumPlusOver(a.Keys + b.Keys + c.Keys, a, b, c);
  }

  lemma {:induction false} SumPlusOver<K>(keys: set<K>, a: map<K, real>, b: map<K, real>, c: map<K, real>)
    requires a.Keys <= keys && b.Keys <= keys && c.Keys <= keys
    requires forall k :: k in keys ==> Get(c, k) == Get(a, k) + Get(b, k)
    ensures Sum(c) == Sum(a) + Sum(b)
    decreases keys
  {
    if keys == {} {
      assert a == map[] && b == map[] && c == map[];
    } else {
      var k :| k in keys;
      SumPlusOver(keys - {k}, a - {k}, b - {k}, c - {k});
      SumOut(a, k);
      SumOut(b, k);
      SumOut(c, k);
    }
  }

  lemma SumOut<K>(m: map<K, real>, k: K)
    ensures Sum(m) == Get(m, k) + Sum(m - {k})
  {
    if k in m {
      SumRemove(m, k);
    } else {
      assert m - {k} == m;
    }
  }

  /** The sum only depends on the amounts, not on which zero entries are present. */
  lemma SumSame<K(!new)>(a: map<K, real>, b: map<K, real>)
    requires forall k :: Get(a, k) == Get(b, k)
    ensures Sum(a) == Sum(b)
  {
    SumPlus(a, map[], b);
  }

  /** A sum of non-negative amounts is non-negative, and zero only if every amount is. */
  lemma {:induction false} SumNonNegative<K(!new)>(m: map<K, real>)
    requires forall k :: k in m ==> m[k] >= 0.0
    ensures Sum(m) >= 0.0
    ensures Sum(m) == 0.0 <==> forall k :: k in m ==> m[k] == 0.0
    decreases |m|
  {
    if m != map[] {
      var k :| k in m && Sum(m) == m[k] + Sum(m - {k});
      SumNonNegative(m - {k});
      assert forall j :: j in m ==> j == k || j in m - {k};
    }
  }
}
