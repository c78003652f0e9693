/** Sums of natural weights over finite sets and maps. */
module SetSums {

  ghost function SumOver<T>(keys: set<T>, f: T -> nat): nat {
    if keys == {} then 0 else
      var k :| k in keys;
      f(k) + SumOver(keys - {k}, f)
  }

  lemma {:induction false} SumOverRemove<T>(keys: set<T>, f: T -> nat, k: T)
    requires k in keys
    ensures SumOver(keys, f) == f(k) + SumOver(keys - {k}, f)
  {
    var j :| j in keys && SumOver(keys, f) == f(j) + SumOver(keys - {j}, f);
    if j != k {
      SumOverRemove(keys - {j}, f, k);
      SumOverRemove(keys - {k}, f, j);
      assert keys - {j} - {k} == keys - {k} - {j};
    }
  }

  lemma {:induction false} SumOverAtMost<T>(keys: set<T>, f: T -> nat, g: T -> nat)
    requires forall k | k in keys :: f(k) <= g(k)
    ensures SumOver(keys, f) <= SumOver(keys, g)
  {
    if keys != {} {
      var k :| k in keys;
      SumOverRemove(keys, f, k);
      SumOverRemove(keys, g, k);
      SumOverAtMost(keys - {k}, f, g);
    }
  }

  ghost function At<K, V>(m: map<K, V>, f: V -> nat): K -> nat { k => if k in m then f(m[k]) else 0 }

  /** The total weight of a map's values. */
  ghost function Weight<K, V>(m: map<K, V>, f: V -> nat): nat { SumOver(m.Keys, At(m, f)) }

  lemma WeightRemove<K, V>(m: map<K, V>, f: V -> nat, k: K)
    requires k in m
    ensures Weight(m, f) == f(m[k]) + Weight(m - {k}, f)
  {
    SumOverRemove(m.Keys, At(m, f), k);
    var rest := m - {k};
    assert rest.Keys == m.Keys - {k};
    SumOverAtMost(rest.Keys, At(m, f), At(rest, f));
    SumOverAtMost(rest.Keys, At(rest, f), At(m, f));
  }

  lemma WeightSet<K, V>(m: map<K, V>, f: V -> nat, k: K, v: V)
    ensures Weight(m[k := v], f) == f(v) + Weight(m - {k}, f)
  {
    WeightRemove(m[k := v], f, k);
    assert m[k := v] - {k} == m - {k};
  }

  lemma {:induction false} FreshNat(used: set<nat>) returns (n: nat)
    ensures n !in used && forall u | u in used :: u < n
  {
    n := 0;
    if used != {} {
      var u :| u in used;
      var m := FreshNat(used - {u});
      assert used == (used - {u}) + {u};
      n := if u < m then m else u + 1;
    }
  }
}
