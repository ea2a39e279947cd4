/** Sums and counts over the values of a finite map, with the one update law every
    conservation proof uses. */
module MapSums {

  ghost function SumOver<K(!new)>(keys: set<K>, weight: K -> nat): nat {
    if keys == {} then 0
    else
      var k :| k in keys;
      weight(k) + SumOver(keys - {k}, weight)
  }

  lemma {:induction false} SumPick<K(!new)>(keys: set<K>, weight: K -> nat, k: K)
    requires k in keys
    ensures SumOver(keys, weight) == weight(k) + SumOver(keys - {k}, weight)
  {
    var j :| j in keys && SumOver(keys, weight) == weight(j) + SumOver(keys - {j}, weight);
    if j != k {
      SumPick(keys - {j}, weight, k);
      SumPick(keys - {k}, weight, j);
      assert keys - {j} - {k} == keys - {k} - {j};
    }
  }

  lemma {:induction false} SumSame<K(!new)>(keys: set<K>, a: K -> nat, b: K -> nat)
    requires forall k :: k in keys ==> a(k) == b(k)
    ensures SumOver(keys, a) == SumOver(keys, b)
  {
    if keys == {} {
    } else {
      var k :| k in keys;
      SumPick(keys, a, k);
      SumPick(keys, b, k);
      SumSame(keys - {k}, a, b);
    }
  }

  /** The entry's contribution; none where the map has no such key. */
  function At<K, V>(m: map<K, V>, f: V -> nat, k: K): nat {
    if k in m then f(m[k]) else 0
  }

  ghost function Sum<K(!new), V>(m: map<K, V>, f: V -> nat): nat {
    SumOver(m.Keys, k => At(m, f, k))
  }

  /** Writing one entry changes the sum by the difference of that entry alone. */
  lemma {:induction false} SumUpdate<K(!new), V>(m: map<K, V>, f: V -> nat, k: K, v: V)
    ensures Sum(m[k := v], f) + At(m, f, k) == Sum(m, f) + f(v)
  {
    var n := m[k := v];
    var before, after := (j: K) => At(m, f, j), (j: K) => At(n, f, j);
    var others := m.Keys - {k};
    assert n.Keys - {k} == others;
    SumPick(n.Keys, after, k);
    SumSame(others, before, after);
    if k in m {
      SumPick(m.Keys, before, k);
    } else {
      assert others == m.Keys;
    }
  }

  /** One entry never exceeds the sum. */
  lemma {:induction false} SumAtLeast<K(!new), V>(m: map<K, V>, f: V -> nat, k: K)
    ensures At(m, f, k) <= Sum(m, f)
  {
    if k in m {
      SumPick(m.Keys, (j: K) => At(m, f, j), k);
    }
  }

  lemma {:induction false} SumOfZeros<K(!new), V>(m: map<K, V>, f: V -> nat)
    requires forall k :: k in m ==> f(m[k]) == 0
    ensures Sum(m, f) == 0
  {
    SumSame(m.Keys, (k: K) => At(m, f, k), (k: K) => 0);
    ZeroSum(m.Keys);
  }

  lemma {:induction false} ZeroSum<K(!new)>(keys: set<K>)
    ensures SumOver(keys, (k: K) => 0) == 0
  {
    if keys == {} {
    } else {
      var k :| k in keys;
      SumPick(keys, (j: K) => 0, k);
      ZeroSum(keys - {k});
    }
  }

  function Marked<K, V>(m: map<K, V>, f: V -> nat): set<K> {
    set k | k in m && f(m[k]) == 1
  }

  /** A sum of zeros and ones counts the ones. */
  lemma {:induction false} SumCounts<K(!new), V>(m: map<K, V>, f: V -> nat)
    requires forall k :: k in m ==> f(m[k]) <= 1
    ensures Sum(m, f) == |Marked(m, f)|
  {
    OverCounts(m.Keys, (k: K) => At(m, f, k), Marked(m, f));
  }

  lemma {:induction false} OverCounts<K(!new)>(keys: set<K>, weight: K -> nat, marked: set<K>)
    requires forall k :: k in keys ==> weight(k) == if k in marked then 1 else 0
    requires marked <= keys
    ensures SumOver(keys, weight) == |marked|
  {
    if keys == {} {
    } else {
      var k :| k in keys;
      SumPick(keys, weight, k);
      OverCounts(keys - {k}, weight, marked - {k});
    }
  }

  lemma {:induction false} SumMonotone<K(!new), V>(m: map<K, V>, f: V -> nat, g: V -> nat)
    requires forall k :: k in m ==> f(m[k]) <= g(m[k])
    ensures Sum(m, f) <= Sum(m, g)
  {
    OverMonotone(m.Keys, (k: K) => At(m, f, k), (k: K) => At(m, g, k));
  }

  lemma {:induction false} OverMonotone<K(!new)>(keys: set<K>, a: K -> nat, b: K -> nat)
    requires forall k :: k in keys ==> a(k) <= b(k)
    ensures SumOver(keys, a) <= SumOver(keys, b)
  {
    if keys == {} {
    } else {
      var k :| k in keys;
      SumPick(keys, a, k);
      SumPick(keys, b, k);
      OverMonotone(keys - {k}, a, b);
    }
  }
}
