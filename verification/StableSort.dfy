/** Python's `sorted(..., key=..., reverse=True)`: descending, and stable.

    The sort is written as an insertion sort. `Unique` shows that the choice of algorithm does not
    matter: a descending rearrangement that keeps the order of equal keys is the only one.
 */
module StableSort {

  ghost predicate Descending<T>(s: seq<T>, key: T -> real) {
    forall i, j | 0 <= i < j < |s| :: key(s[i]) >= key(s[j])
  }

  /** The elements of `s` whose key is `x`, in order. */
  ghost function WithKey<T>(s: seq<T>, key: T -> real, x: real): seq<T> {
    if s == [] then [] else (if key(s[0]) == x then [s[0]] else []) + WithKey(s[1..], key, x)
  }

  /** `b` has the elements of `a`, and elements with equal keys come in the same order. */
  ghost predicate StablyRearranged<T>(a: seq<T>, b: seq<T>, key: T -> real) {
    && multiset(a) == multiset(b)
    && forall x: real :: WithKey(a, key, x) == WithKey(b, key, x)
  }

  function Insert<T>(t: T, s: seq<T>, key: T -> real): seq<T> {
    if s == [] || key(t) >= key(s[0]) then [t] + s else [s[0]] + Insert(t, s[1..], key)
  }

  function SortDesc<T>(s: seq<T>, key: T -> real): seq<T> {
    if s == [] then [] else Insert(s[0], SortDesc(s[1..], key), key)
  }

  lemma {:induction false} InsertPermutes<T>(t: T, s: seq<T>, key: T -> real)
    ensures multiset(Insert(t, s, key)) == multiset{t} + multiset(s)
  {
    if s != [] && key(t) < key(s[0]) {
      InsertPermutes(t, s[1..], key);
      assert s == [s[0]] + s[1..];
    }
  }

  lemma DescendingCons<T>(h: T, s: seq<T>, key: T -> real)
    requires Descending(s, key)
    requires forall i | 0 <= i < |s| :: key(h) >= key(s[i])
    ensures Descending([h] + s, key)
  {
    var r := [h] + s;
    forall i, j | 0 <= i < j < |r| ensures key(r[i]) >= key(r[j]) {
      assert r[j] == s[j - 1];
    }
  }

  lemma {:induction false} InsertSorts<T>(t: T, s: seq<T>, key: T -> real)
    requires Descending(s, key)
    ensures Descending(Insert(t, s, key), key)
  {
    if s == [] || key(t) >= key(s[0]) {
      DescendingCons(t, s, key);
    } else {
      var r := Insert(t, s[1..], key);
      InsertSorts(t, s[1..], key);
      InsertPermutes(t, s[1..], key);
      forall i | 0 <= i < |r| ensures key(s[0]) >= key(r[i]) {
        assert r[i] in multiset(r);
        assert r[i] == t || r[i] in s[1..];
      }
      DescendingCons(s[0], r, key);
    }
  }

  lemma WithKeyCons<T>(h: T, s: seq<T>, key: T -> real, x: real)
    ensures WithKey([h] + s, key, x) == (if key(h) == x then [h] else []) + WithKey(s, key, x)
  {
    assert ([h] + s)[1..] == s;
  }

  lemma {:induction false} InsertKeepsOrder<T>(t: T, s: seq<T>, key: T -> real, x: real)
    ensures WithKey(Insert(t, s, key), key, x) == (if key(t) == x then [t] else []) + WithKey(s, key, x)
  {
    if s == [] || key(t) >= key(s[0]) {
      WithKeyCons(t, s, key, x);
    } else {
      InsertKeepsOrder(t, s[1..], key, x);
      WithKeyCons(s[0], Insert(t, s[1..], key), key, x);
    }
  }

  lemma {:induction false} SortDescIsStableSort<T>(s: seq<T>, key: T -> real)
    ensures Descending(SortDesc(s, key), key)
    ensures StablyRearranged(s, SortDesc(s, key), key)
  {
    if s != [] {
      SortDescIsStableSort(s[1..], key);
      InsertSorts(s[0], SortDesc(s[1..], key), key);
      InsertPermutes(s[0], SortDesc(s[1..], key), key);
      assert s == [s[0]] + s[1..];
      forall x: real ensures WithKey(s, key, x) == WithKey(SortDesc(s, key), key, x) {
        InsertKeepsOrder(s[0], SortDesc(s[1..], key), key, x);
      }
    }
  }

  lemma {:induction false} WithKeyFinds<T>(s: seq<T>, key: T -> real, x: real)
    ensures WithKey(s, key, x) != [] ==> exists i :: 0 <= i < |s| && key(s[i]) == x
  {
    if s != [] && key(s[0]) != x {
      WithKeyFinds(s[1..], key, x);
    }
  }

  /** The head of a descending list is no smaller than the head of any list it stably rearranges to. */
  lemma HeadAtLeast<T>(a: seq<T>, b: seq<T>, key: T -> real)
    requires a != [] && Descending(b, key)
    requires forall x: real :: WithKey(a, key, x) == WithKey(b, key, x)
    ensures b != [] && key(b[0]) >= key(a[0])
  {
    assert WithKey(a, key, key(a[0])) != [];
    WithKeyFinds(b, key, key(a[0]));
  }

  /** Descending order and stability determine the result. */
  lemma {:induction false} Unique<T>(a: seq<T>, b: seq<T>, key: T -> real)
    requires Descending(a, key) && Descending(b, key)
    requires forall x: real :: WithKey(a, key, x) == WithKey(b, key, x)
    ensures a == b
  {
    if a == [] {
      if b != [] {
        HeadAtLeast(b, a, key);
      }
    } else {
      HeadAtLeast(a, b, key);
      HeadAtLeast(b, a, key);
      assert WithKey(a, key, key(a[0]))[0] == WithKey(b, key, key(a[0]))[0];
      forall x: real ensures WithKey(a[1..], key, x) == WithKey(b[1..], key, x) {
        assert WithKey(a, key, x) == WithKey(b, key, x);
        var h := if key(a[0]) == x then [a[0]] else [];
        assert WithKey(a[1..], key, x) == WithKey(a, key, x)[|h|..];
        assert WithKey(b[1..], key, x) == WithKey(b, key, x)[|h|..];
      }
      Unique(a[1..], b[1..], key);
    }
  }

  /** A list that is already descending is its own stable sort. */
  lemma SortedIsFixed<T>(s: seq<T>, key: T -> real)
    requires Descending(s, key)
    ensures SortDesc(s, key) == s
  {
    SortDescIsStableSort(s, key);
    Unique(s, SortDesc(s, key), key);
  }

  /** Where the last element of `a` sits in a rearrangement `b`, and what remains of each. */
  lemma Partner<T>(a: seq<T>, b: seq<T>) returns (before: seq<T>, after: seq<T>)
    requires a != [] && multiset(a) == multiset(b)
    ensures b == before + [a[|a| - 1]] + after
    ensures multiset(a[..|a| - 1]) == multiset(before + after)
  {
    var n := |a| - 1;
    assert a[n] in multiset(b);
    var i :| 0 <= i < |b| && b[i] == a[n];
    before, after := b[..i], b[i + 1..];
    assert a == a[..n] + [a[n]];
    assert b == before + [a[n]] + after;
    assert multiset(a[..n]) == multiset(a) - multiset{a[n]};
    assert multiset(before + after) == multiset(b) - multiset{a[n]};
  }

  lemma {:induction false} InsertAgrees<T>(t: T, s: seq<T>, f: T -> real, g: T -> real)
    requires f(t) == g(t) && forall u | u in s :: f(u) == g(u)
    ensures Insert(t, s, f) == Insert(t, s, g)
  {
    if s != [] {
      InsertAgrees(t, s[1..], f, g);
    }
  }

  /** Only the keys of the elements present matter. */
  lemma {:induction false} SortDescAgrees<T>(s: seq<T>, f: T -> real, g: T -> real)
    requires forall t | t in s :: f(t) == g(t)
    ensures SortDesc(s, f) == SortDesc(s, g)
  {
    if s != [] {
      SortDescAgrees(s[1..], f, g);
      SortDescIsStableSort(s[1..], f);
      forall t | t in SortDesc(s[1..], f) ensures f(t) == g(t) {
        assert t in multiset(s[1..]);
      }
      InsertAgrees(s[0], SortDesc(s[1..], f), f, g);
    }
  }

  ghost predicate DistinctBy<T>(s: seq<T>, id: T -> string) {
    forall i, j | 0 <= i < j < |s| :: id(s[i]) != id(s[j])
  }

  lemma DistinctByMiddle<T>(before: seq<T>, e: T, after: seq<T>, id: T -> string)
    requires DistinctBy(before + after, id) && forall d: T | d in before + after :: id(d) != id(e)
    ensures DistinctBy(before + [e] + after, id)
  {
    var s, r, k := before + [e] + after, before + after, |before|;
    forall i, j | 0 <= i < j < |s| ensures id(s[i]) != id(s[j]) {
      if i == k {
        assert s[j] == r[j - 1];
      } else if j == k {
        assert s[i] == r[i];
      } else {
        assert s[i] == r[if i < k then i else i - 1] && s[j] == r[if j < k then j else j - 1];
      }
    }
  }

  lemma {:induction false} DistinctByIgnoresOrder<T>(a: seq<T>, b: seq<T>, id: T -> string)
    requires multiset(a) == multiset(b) && DistinctBy(a, id)
    ensures DistinctBy(b, id)
  {
    assert |multiset(a)| == |multiset(b)|;
    if a != [] {
      var n := |a| - 1;
      var before, after := Partner(a, b);
      DistinctByIgnoresOrder(a[..n], before + after, id);
      forall e: T | e in before + after ensures id(e) != id(a[n]) {
        assert e in multiset(before + after);
        assert e in a[..n];
      }
      DistinctByMiddle(before, a[n], after, id);
    }
  }

  // ----- The sort by positions

  /** Position `i` comes before position `j`: a greater key, or the same key and earlier in the list. */
  predicate Ahead<T>(s: seq<T>, key: T -> real, i: nat, j: nat)
    requires i < |s| && j < |s|
  {
    key(s[i]) > key(s[j]) || (key(s[i]) == key(s[j]) && i < j)
  }

  /** All positions of `s`, each once, from the one that comes first to the one that comes last. */
  ghost predicate IsOrder<T>(s: seq<T>, key: T -> real, order: seq<nat>) {
    && |order| == |s|
    && (forall k | 0 <= k < |order| :: order[k] < |s|)
    && (forall a, b | 0 <= a < b < |order| :: Ahead(s, key, order[a], order[b]))
    && (forall i: nat | i < |s| :: i in order)
  }

  lemma {:induction false} InsertAt<T>(t: T, s: seq<T>, key: T -> real) returns (n: nat)
    ensures n <= |s| && Insert(t, s, key) == s[..n] + [t] + s[n..]
    ensures (forall m | 0 <= m < n :: key(s[m]) > key(t)) && (n < |s| ==> key(t) >= key(s[n]))
  {
    if s == [] || key(t) >= key(s[0]) {
      n := 0;
    } else {
      var m := InsertAt(t, s[1..], key);
      n := m + 1;
      assert s == [s[0]] + s[1..];
      assert s[..n] == [s[0]] + s[1..][..m] && s[n..] == s[1..][m..];
    }
  }

  function Shifted(order: seq<nat>): seq<nat> { seq(|order|, k requires 0 <= k < |order| => order[k] + 1) }

  /** Position 0 put in at place `n` of an order of the rest. */
  function Widened(order: seq<nat>, n: nat): seq<nat>
    requires n <= |order|
  {
    Shifted(order)[..n] + [0] + Shifted(order)[n..]
  }

  lemma WidenedAt(order: seq<nat>, n: nat, k: nat)
    requires n <= |order| && k <= |order|
    ensures |Widened(order, n)| == |order| + 1
    ensures Widened(order, n)[k] == if k < n then order[k] + 1 else if k == n then 0 else order[k - 1] + 1
  {
  }

  lemma WidenedAhead<T>(h: T, r: seq<T>, key: T -> real, order: seq<nat>, n: nat, a: nat, b: nat)
    requires IsOrder(r, key, order) && n <= |order| && a < b <= |order|
    requires forall m | 0 <= m < n :: key(r[order[m]]) > key(h)
    requires forall m | n <= m < |order| :: key(h) >= key(r[order[m]])
    ensures Widened(order, n)[a] <= |r| && Widened(order, n)[b] <= |r|
    ensures Ahead([h] + r, key, Widened(order, n)[a], Widened(order, n)[b])
  {
    WidenedAt(order, n, a);
    WidenedAt(order, n, b);
    if a != n && b != n {
      assert Ahead(r, key, order[if a < n then a else a - 1], order[if b < n then b else b - 1]);
    }
  }

  lemma WidenedOrder<T>(h: T, r: seq<T>, key: T -> real, order: seq<nat>, n: nat)
    requires IsOrder(r, key, order) && n <= |order|
    requires forall m | 0 <= m < n :: key(r[order[m]]) > key(h)
    requires forall m | n <= m < |order| :: key(h) >= key(r[order[m]])
    ensures IsOrder([h] + r, key, Widened(order, n))
  {
    var s, all := [h] + r, Widened(order, n);
    WidenedAt(order, n, n);
    forall k | 0 <= k < |all| ensures all[k] < |s| {
      WidenedAt(order, n, k);
    }
    forall a, b | 0 <= a < b < |all| ensures Ahead(s, key, all[a], all[b]) {
      WidenedAhead(h, r, key, order, n, a, b);
    }
    forall i: nat | i < |s| ensures i in all {
      if i == 0 {
        assert all[n] == 0;
      } else {
        assert (i - 1) in order;
        var k :| 0 <= k < |order| && order[k] == i - 1;
        WidenedAt(order, n, if k < n then k else k + 1);
        assert all[if k < n then k else k + 1] == i;
      }
    }
  }

  lemma InsertedAt<T>(h: T, r: seq<T>, t: seq<T>, key: T -> real, rest: seq<nat>, n: nat)
    requires |t| == |rest| && n <= |t| && Insert(h, t, key) == t[..n] + [h] + t[n..]
    requires forall k | 0 <= k < |rest| :: rest[k] < |r| && t[k] == r[rest[k]]
    ensures |Insert(h, t, key)| == |Widened(rest, n)|
    ensures forall k | 0 <= k < |Widened(rest, n)| ::
              Widened(rest, n)[k] <= |r| && Insert(h, t, key)[k] == ([h] + r)[Widened(rest, n)[k]]
  {
    var u := t[..n] + [h] + t[n..];
    forall k | 0 <= k < |Widened(rest, n)|
      ensures Widened(rest, n)[k] <= |r| && u[k] == ([h] + r)[Widened(rest, n)[k]]
    {
      WidenedAt(rest, n, k);
    }
  }

  lemma SortStep<T>(h: T, r: seq<T>, key: T -> real, rest: seq<nat>) returns (order: seq<nat>)
    requires IsOrder(r, key, rest) && |SortDesc(r, key)| == |rest|
    requires forall k | 0 <= k < |rest| :: SortDesc(r, key)[k] == r[rest[k]]
    ensures IsOrder([h] + r, key, order) && |Insert(h, SortDesc(r, key), key)| == |order|
    ensures forall k | 0 <= k < |order| :: Insert(h, SortDesc(r, key), key)[k] == ([h] + r)[order[k]]
  {
    var t := SortDesc(r, key);
    var n := InsertAt(h, t, key);
    forall m | n <= m < |rest| ensures key(h) >= key(r[rest[m]]) {
      assert m > n ==> Ahead(r, key, rest[n], rest[m]);
    }
    WidenedOrder(h, r, key, rest, n);
    order := Widened(rest, n);
    InsertedAt(h, r, t, key, rest, n);
  }

  /** `SortDesc` lists the positions in that order, which leaves no choice. */
  lemma {:induction false} SortDescByPosition<T>(s: seq<T>, key: T -> real) returns (order: seq<nat>)
    ensures IsOrder(s, key, order) && |SortDesc(s, key)| == |order|
    ensures forall k | 0 <= k < |order| :: SortDesc(s, key)[k] == s[order[k]]
  {
    if s == [] {
      order := [];
    } else {
      var rest := SortDescByPosition(s[1..], key);
      order := SortStep(s[0], s[1..], key, rest);
      assert [s[0]] + s[1..] == s;
    }
  }
}
