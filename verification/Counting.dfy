/** Cardinality facts about "how many threads, or tasks, are at such a point". */
module Counting {
  ghost function Where<K, V>(m: map<K, V>, p: V -> bool): set<K> {
    set k | k in m && p(m[k])
  }

  ghost function Count<K, V>(m: map<K, V>, p: V -> bool): nat {
    |Where(m, p)|
  }

  ghost function Bit(b: bool): nat {
    if b then 1 else 0
  }

  lemma CountPut<K, V>(m: map<K, V>, k: K, v: V, p: V -> bool)
    ensures Count(m[k := v], p) + Bit(k in m && p(m[k])) == Count(m, p) + Bit(p(v))
  {
    var others := Where(m, p) - {k};
    assert Where(m, p) == if k in m && p(m[k]) then others + {k} else others;
    assert Where(m[k := v], p) == if p(v) then others + {k} else others;
  }

  lemma CountRemove<K, V>(m: map<K, V>, k: K, p: V -> bool)
    requires k in m
    ensures Count(m - {k}, p) + Bit(p(m[k])) == Count(m, p)
  {
    var others := Where(m, p) - {k};
    assert Where(m, p) == if p(m[k]) then others + {k} else others;
    assert Where(m - {k}, p) == others;
  }

  lemma CountAtMost<K, V>(m: map<K, V>, p: V -> bool)
    ensures Count(m, p) <= |m.Keys|
  {
    SubsetSize(Where(m, p), m.Keys);
  }

  lemma {:induction false} SubsetSize<K>(a: set<K>, b: set<K>)
    requires a <= b
    ensures |a| <= |b|
  {
    if a != {} {
      var x :| x in a;
      SubsetSize(a - {x}, b - {x});
    }
  }

  /** The sum of f over all values of m. */
  ghost function Sum<K, V>(m: map<K, V>, f: V -> nat): nat
    decreases m.Keys
  {
    if m.Keys == {} then 0 else
    var k :| k in m;
    f(m[k]) + Sum(m - {k}, f)
  }

  lemma {:induction false} SumRemove<K, V>(m: map<K, V>, k: K, f: V -> nat)
    requires k in m
    ensures Sum(m, f) == f(m[k]) + Sum(m - {k}, f)
    decreases m.Keys
  {
    var j :| j in m && Sum(m, f) == f(m[j]) + Sum(m - {j}, f);
    if j != k {
      SumRemove(m - {j}, k, f);
      SumRemove(m - {k}, j, f);
      assert m - {j} - {k} == m - {k} - {j};
    }
  }

  lemma SumPut<K, V>(m: map<K, V>, k: K, v: V, f: V -> nat)
    ensures Sum(m[k := v], f) + (if k in m then f(m[k]) else 0) == Sum(m, f) + f(v)
  {
    SumRemove(m[k := v], k, f);
    assert m[k := v] - {k} == m - {k};
    if k in m {
      SumRemove(m, k, f);
    } else {
      assert m - {k} == m;
    }
  }

  lemma {:induction false} SumSame<K, V>(m: map<K, V>, n: map<K, V>, f: V -> nat)
    requires m.Keys == n.Keys && forall k :: k in m ==> f(n[k]) == f(m[k])
    ensures Sum(n, f) == Sum(m, f)
    decreases m.Keys
  {
    if m.Keys != {} {
      var k :| k in m;
      SumSame(m - {k}, n - {k}, f);
      SumRemove(m, k, f);
      SumRemove(n, k, f);
    }
  }
}
