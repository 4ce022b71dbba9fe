/** Sums over finite maps. The totals of the accounting laws are sums over the entries on disk and over the
    records of all calls made so far. */
module Sums {

  ghost function Sum<K, T>(m: map<K, T>, f: T -> int): int
  {
    if m == map[] then 0
    else
      var k :| k in m;
      f(m[k]) + Sum(m - {k}, f)
  }

  /** The order in which elements are added does not matter. */
  lemma {:induction false} SumTake<K, T>(m: map<K, T>, f: T -> int, k: K)
    requires k in m
    ensures Sum(m, f) == f(m[k]) + Sum(m - {k}, f)
    decreases |m|
  {
    var j :| j in m && Sum(m, f) == f(m[j]) + Sum(m - {j}, f);
    if j != k {
      assert |m - {j}| < |m| && |m - {k}| < |m| by {
        assert (m - {j}).Keys == m.Keys - {j} && (m - {k}).Keys == m.Keys - {k};
      }
      SumTake(m - {j}, f, k);
      SumTake(m - {k}, f, j);
      assert m - {j} - {k} == m - {k} - {j};
    }
  }

  /** What storing one value does to a sum. */
  lemma SumUpdate<K, T>(m: map<K, T>, f: T -> int, k: K, v: T)
    ensures Sum(m[k := v], f) == Sum(m, f) + f(v) - (if k in m then f(m[k]) else 0)
  {
    SumTake(m[k := v], f, k);
    assert m[k := v] - {k} == m - {k};
    if k in m {
      SumTake(m, f, k);
    } else {
      assert m - {k} == m;
    }
  }

  lemma SumRemove<K, T>(m: map<K, T>, f: T -> int, k: K)
    ensures Sum(m - {k}, f) == Sum(m, f) - (if k in m then f(m[k]) else 0)
  {
    if k in m {
      SumTake(m, f, k);
    } else {
      assert m - {k} == m;
    }
  }

  /** Two maps that differ at one key. */
  lemma SumChange<K, T>(m: map<K, T>, n: map<K, T>, f: T -> int, k: K)
    requires forall j :: j != k ==> (j in m <==> j in n) && (j in m ==> n[j] == m[j])
    ensures Sum(n, f) - (if k in n then f(n[k]) else 0) == Sum(m, f) - (if k in m then f(m[k]) else 0)
  {
    assert n - {k} == m - {k};
    SumRemove(m, f, k);
    SumRemove(n, f, k);
  }

  /** A sum of parts: if `g` splits pointwise into `f1 + f2` and a non-negative rest, so do the sums. */
  lemma {:induction false} SumSplit<K, T>(m: map<K, T>, f1: T -> int, f2: T -> int, g: T -> int)
    requires forall k :: k in m ==> f1(m[k]) + f2(m[k]) <= g(m[k])
    ensures Sum(m, f1) + Sum(m, f2) <= Sum(m, g)
    decreases |m|
  {
    if m != map[] {
      var k :| k in m;
      SumTake(m, f1, k);
      SumTake(m, f2, k);
      SumTake(m, g, k);
      assert |m - {k}| < |m| by { assert (m - {k}).Keys == m.Keys - {k}; }
      SumSplit(m - {k}, f1, f2, g);
    }
  }

  lemma {:induction false} SumAdd<K, T>(m: map<K, T>, f1: T -> int, f2: T -> int, g: T -> int)
    requires forall k :: k in m ==> f1(m[k]) + f2(m[k]) == g(m[k])
    ensures Sum(m, f1) + Sum(m, f2) == Sum(m, g)
    decreases |m|
  {
    if m != map[] {
      var k :| k in m;
      SumTake(m, f1, k);
      SumTake(m, f2, k);
      SumTake(m, g, k);
      assert |m - {k}| < |m| by { assert (m - {k}).Keys == m.Keys - {k}; }
      SumAdd(m - {k}, f1, f2, g);
    }
  }

  /** Pointwise equal summands have equal sums. */
  lemma {:induction false} SumEqual<K, T>(m: map<K, T>, f: T -> int, g: T -> int)
    requires forall k :: k in m ==> f(m[k]) == g(m[k])
    ensures Sum(m, f) == Sum(m, g)
    decreases |m|
  {
    if m != map[] {
      var k :| k in m;
      SumTake(m, f, k);
      SumTake(m, g, k);
      assert |m - {k}| < |m| by { assert (m - {k}).Keys == m.Keys - {k}; }
      SumEqual(m - {k}, f, g);
    }
  }
}
