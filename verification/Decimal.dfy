/** Decimal numbers and byte positions as text. */
module Decimal {

  predicate IsDigit(c: char) { '0' <= c <= '9' }

  predicate AllDigits(s: string) { forall i | 0 <= i < |s| :: IsDigit(s[i]) }

  /** How much of `s` a greedy `\d*` takes. */
  function DigitRun(s: string): (n: nat)
    ensures n <= |s| && AllDigits(s[..n]) && (n < |s| ==> !IsDigit(s[n]))
  {
    if s != [] && IsDigit(s[0]) then
      var n := 1 + DigitRun(s[1..]);
      assert s[..n] == [s[0]] + s[1..][..n - 1];
      n
    else 0
  }

  /** `int(s)`. */
  function ParseNat(s: string): nat
    requires AllDigits(s)
  {
    if s == [] then 0 else
      10 * ParseNat(s[..|s| - 1]) + (s[|s| - 1] as int - '0' as int)
  }

  function Digit(d: nat): char
    requires d < 10
  {
    ('0' as int + d) as char
  }

  /** `str(n)`. */
  function PrintNat(n: nat): (s: string)
    ensures s != [] && AllDigits(s)
  {
    if n < 10 then [Digit(n)] else PrintNat(n / 10) + [Digit(n % 10)]
  }

  lemma {:induction false} ParsePrint(n: nat)
    ensures ParseNat(PrintNat(n)) == n
  {
    if n >= 10 {
      ParsePrint(n / 10);
      assert PrintNat(n)[..|PrintNat(n)| - 1] == PrintNat(n / 10);
    }
  }

  lemma {:induction false} DigitRunIs(d: string, rest: string)
    requires AllDigits(d) && (rest != [] ==> !IsDigit(rest[0]))
    ensures DigitRun(d + rest) == |d|
  {
    if d == [] {
      assert d + rest == rest;
    } else {
      DigitRunIs(d[1..], rest);
      assert (d + rest)[1..] == d[1..] + rest;
    }
  }

  // ----- `bytes=<first>-<last>`

  const BYTES := "bytes="

  /** The two digit groups at the front of a header and what follows them. */
  datatype Spec = NoMatch | Groups(first: string, last: string, rest: string)

  function MatchPair(t: string): (g: Spec)
    ensures g.Groups? ==> AllDigits(g.first) && AllDigits(g.last)
  {
    var n := DigitRun(t);
    if n == |t| || t[n] != '-' then NoMatch else
      var u := t[n + 1..];
      Groups(t[..n], u[..DigitRun(u)], u[DigitRun(u)..])
  }

  function MatchBytes(h: string): (g: Spec)
    ensures g.Groups? ==> AllDigits(g.first) && AllDigits(g.last)
  {
    if BYTES <= h then MatchPair(h[|BYTES|..]) else NoMatch
  }

  predicate Splits(first: string, last: string, rest: string) {
    AllDigits(first) && AllDigits(last) && (rest != [] ==> !IsDigit(rest[0]))
  }

  lemma Cut(a: string, x: string)
    ensures (a + x)[..|a|] == a && (a + x)[|a|..] == x
  {
  }

  function Dash(x: string): string { ['-'] + x }

  /** `first-last` and what follows. */
  function Pair(first: string, last: string, rest: string): string { first + Dash(last + rest) }

  lemma PairFinds(first: string, last: string, rest: string)
    requires Splits(first, last, rest)
    ensures MatchPair(Pair(first, last, rest)) == Groups(first, last, rest)
  {
    var t := Pair(first, last, rest);
    DigitRunIs(first, Dash(last + rest));
    Cut(first, Dash(last + rest));
    assert t[|first|..][1..] == t[|first| + 1..];
    Cut(['-'], last + rest);
    DigitRunIs(last, rest);
    Cut(last, rest);
  }

  lemma Rejoin(t: string, n: nat, u: string, m: nat)
    requires n < |t| && t[n] == '-' && u == t[n + 1..] && m <= |u|
    ensures t == Pair(t[..n], u[..m], u[m..])
  {
    assert u[..m] + u[m..] == u;
    assert t[n..] == Dash(u);
    assert t[..n] + t[n..] == t;
  }

  lemma PairRebuilds(t: string)
    requires MatchPair(t).Groups?
    ensures var g := MatchPair(t); t == Pair(g.first, g.last, g.rest) && Splits(g.first, g.last, g.rest)
  {
    var n := DigitRun(t);
    Rejoin(t, n, t[n + 1..], DigitRun(t[n + 1..]));
  }

  lemma AfterPrefix(p: string, h: string, t: string)
    requires p <= h
    ensures h == p + t <==> h[|p|..] == t
  {
    assert h == p + h[|p|..];
    assert (p + t)[|p|..] == t;
  }

  /** `MatchBytes` is the greedy regular-expression match: it succeeds exactly on texts of this form, and the
      groups are the only digits that fit. */
  lemma MatchMeans(h: string, first: string, last: string, rest: string)
    ensures MatchBytes(h) == Groups(first, last, rest)
            <==> h == BYTES + Pair(first, last, rest) && Splits(first, last, rest)
  {
    var t := Pair(first, last, rest);
    if BYTES <= h {
      AfterPrefix(BYTES, h, t);
      if Splits(first, last, rest) {
        PairFinds(first, last, rest);
      }
      if MatchPair(h[|BYTES|..]).Groups? {
        PairRebuilds(h[|BYTES|..]);
      }
    }
  }

  lemma DigitsAre(c: char)
    ensures IsDigit(c) <==> c in "0123456789"
  {
  }

  /** `t[:-1]` read, then one more digit. */
  lemma ReadDigit(t: string, d: nat)
    requires AllDigits(t) && d < 10
    ensures AllDigits(t + ["0123456789"[d]]) && ParseNat(t + ["0123456789"[d]]) == 10 * ParseNat(t) + d
  {
    assert (t + ["0123456789"[d]])[..|t|] == t;
  }

  /** The form of a header, spelled out. */
  lemma PairIs(first: string, last: string, rest: string)
    ensures BYTES + Pair(first, last, rest) == "bytes=" + first + "-" + last + rest
  {
    assert "-" == ['-'];
  }

  /** `f"bytes={first}-{last}"`. */
  function Printed(first: nat, last: nat): string { BYTES + Pair(PrintNat(first), PrintNat(last), []) }
}
