/** Sums of real weights over a list, and the fact that they do not depend on its order. */
module Sums {
  import opened StableSort

  function Sum<T>(s: seq<T>, f: T -> real): real {
    if s == [] then 0.0 else Sum(s[..|s| - 1], f) + f(s[|s| - 1])
  }

  lemma SumSnoc<T>(s: seq<T>, t: T, f: T -> real)
    ensures Sum(s + [t], f) == Sum(s, f) + f(t)
  {
    assert (s + [t])[..|s|] == s;
  }

  lemma {:induction false} SumMiddle<T>(a: seq<T>, t: T, b: seq<T>, f: T -> real)
    ensures Sum(a + [t] + b, f) == Sum(a + b, f) + f(t)
  {
    if b == [] {
      assert a + [t] + b == a + [t] && a + b == a;
      SumSnoc(a, t, f);
    } else {
      var r, u := b[..|b| - 1], b[|b| - 1];
      SumMiddle(a, t, r, f);
      assert a + [t] + b == (a + [t] + r) + [u] && a + b == (a + r) + [u];
      SumSnoc(a + [t] + r, u, f);
      SumSnoc(a + r, u, f);
    }
  }

  lemma {:induction false} SumIgnoresOrder<T>(a: seq<T>, b: seq<T>, f: T -> real)
    requires multiset(a) == multiset(b)
    ensures Sum(a, f) == Sum(b, f)
  {
    assert |multiset(a)| == |multiset(b)|;
    if a != [] {
      var before, after := Partner(a, b);
      SumIgnoresOrder(a[..|a| - 1], before + after, f);
      SumMiddle(before, a[|a| - 1], after, f);
    }
  }

  lemma {:induction false} SumWithin<T>(s: seq<T>, f: T -> real, lo: real, hi: real)
    requires forall t | t in s :: lo <= f(t) <= hi
    ensures lo * |s| as real <= Sum(s, f) <= hi * |s| as real
  {
    if s != [] {
      SumWithin(s[..|s| - 1], f, lo, hi);
      assert s[|s| - 1] in s;
    }
  }

  lemma {:induction false} SumAgrees<T>(s: seq<T>, f: T -> real, g: T -> real)
    requires forall t | t in s :: f(t) == g(t)
    ensures Sum(s, f) == Sum(s, g)
  {
    if s != [] {
      SumAgrees(s[..|s| - 1], f, g);
    }
  }

  /** A sum of non-negative terms is positive exactly when one of them is. */
  lemma {:induction false} SumPositiveIff<T>(s: seq<T>, f: T -> real)
    requires forall x | x in s :: f(x) >= 0.0
    ensures Sum(s, f) >= 0.0
    ensures Sum(s, f) > 0.0 <==> exists x :: x in s && f(x) > 0.0
  {
    if s != [] {
      var r, x := s[..|s| - 1], s[|s| - 1];
      assert s == r + [x];
      SumSnoc(r, x, f);
      SumPositiveIff(r, f);
    }
  }

  lemma DividedMore(x: real, a: real, b: real)
    requires x > 0.0 && 0.0 < a < b
    ensures x / a > x / b > 0.0
  {
    assert (x / a) * a == x && (x / b) * b == x;
  }
}
