/** What the re-rank returns, exactly, position by position of its input. */
module RerankExact {
  import opened Wrappers
  import opened StableSort
  import opened Sums
  import opened Rerank

  /** Candidate `i` is neither excluded nor an alternate version. */
  predicate Survives(cands: seq<Track>, f: Filter, i: nat) {
    i < |cands| && cands[i].url !in f.excluded && !f.isAlt(cands[i].title)
  }

  /** Its score: the engine's, or else one that falls with the position; three tenths of that if recently shown. */
  function Final(cands: seq<Track>, f: Filter, i: nat): real
    requires i < |cands|
  {
    (if cands[i].score.Some? then cands[i].score.value else 1.0 / (1.0 + 0.1 * i as real))
    * (if cands[i].url in f.shown then 0.3 else 1.0)
  }

  /** The scores of all candidates. */
  function Finals(cands: seq<Track>, f: Filter): seq<real> {
    seq(|cands|, i requires 0 <= i < |cands| => Final(cands, f, i))
  }

  /** Among the scores `v` the `i`-th comes before the `j`-th: greater, or equal and earlier. */
  predicate Before(v: seq<real>, i: nat, j: nat)
    requires i < |v| && j < |v|
  {
    v[i] > v[j] || (v[i] == v[j] && i < j)
  }

  predicate Inside(cands: seq<Track>, idx: seq<nat>) { forall p | 0 <= p < |idx| :: idx[p] < |cands| }

  /** Those of `taken` that have the artist of candidate `i`. */
  function SameArtist(cands: seq<Track>, c: Caps, taken: seq<nat>, i: nat): set<nat>
    requires Inside(cands, taken) && i < |cands|
  {
    set p | 0 <= p < |taken| && c.norm(cands[taken[p]].artist) == c.norm(cands[i].artist)
  }

  /** After `taken` there is room for candidate `i`; there is always room for one. */
  predicate Fits(cands: seq<Track>, c: Caps, taken: seq<nat>, i: nat)
    requires Inside(cands, taken) && i < |cands|
  {
    && (taken == [] || |taken| < c.limit)
    && (forall p | 0 <= p < |taken| :: cands[taken[p]].url != cands[i].url)
    && |SameArtist(cands, c, taken, i)| < c.perArtist
  }

  /** Candidate `i` was looked at when the first `n` had been taken, and did not fit. */
  ghost predicate Barred(cands: seq<Track>, c: Caps, v: seq<real>, idx: seq<nat>, n: nat, i: nat)
    requires |v| == |cands| && Inside(cands, idx) && n <= |idx| && i < |cands|
  {
    && (forall p | 0 <= p < n :: Before(v, idx[p], i))
    && (n < |idx| ==> Before(v, i, idx[n]))
    && !Fits(cands, c, idx[..n], i)
  }

  /** `idx` are the candidates taken when they are looked at by the scores `v`: survivors in that order, each
      fitting after those before it, and every other survivor did not fit when it was looked at. */
  ghost predicate Greedy(cands: seq<Track>, f: Filter, c: Caps, v: seq<real>, idx: seq<nat>)
    requires |v| == |cands|
  {
    && (forall p | 0 <= p < |idx| :: Survives(cands, f, idx[p]))
    && (forall p, q | 0 <= p < q < |idx| :: Before(v, idx[p], idx[q]))
    && (forall p | 0 <= p < |idx| :: Fits(cands, c, idx[..p], idx[p]))
    && (forall i: nat | Survives(cands, f, i) && i !in idx ::
          exists n | 0 <= n <= |idx| :: Barred(cands, c, v, idx, n, i))
  }

  /** `out` is those candidates with their scores. */
  predicate Lists(out: seq<Track>, cands: seq<Track>, f: Filter, idx: seq<nat>) {
    && Inside(cands, idx) && |out| == |idx|
    && forall p | 0 <= p < |idx| :: out[p] == cands[idx[p]].(score := Some(Final(cands, f, idx[p])))
  }

  ghost predicate IsRerank(out: seq<Track>, cands: seq<Track>, f: Filter, c: Caps) {
    exists idx :: Greedy(cands, f, c, Finals(cands, f), idx) && Lists(out, cands, f, idx)
  }

  // ----- There is only one such list

  lemma NotTaken(v: seq<real>, b: seq<nat>, p: nat, i: nat)
    requires i < |v| && (forall q | 0 <= q < |b| :: b[q] < |v|) && p <= |b|
    requires forall q, r | 0 <= q < r < |b| :: Before(v, b[q], b[r])
    requires (forall q | 0 <= q < p :: Before(v, b[q], i)) && (p < |b| ==> Before(v, i, b[p]))
    ensures i !in b
  {
    forall q | 0 <= q < |b| ensures b[q] != i {
      if q > p {
        assert Before(v, b[p], b[q]);
      }
    }
  }

  lemma TurnIs(v: seq<real>, b: seq<nat>, p: nat, i: nat, n: nat)
    requires i < |v| && (forall q | 0 <= q < |b| :: b[q] < |v|) && p <= |b| && n <= |b|
    requires (forall q | 0 <= q < p :: Before(v, b[q], i)) && (p < |b| ==> Before(v, i, b[p]))
    requires (forall q | 0 <= q < n :: Before(v, b[q], i)) && (n < |b| ==> Before(v, i, b[n]))
    ensures n == p
  {
  }

  /** Where `a` and `b` agree so far and `a` takes one more, `b` takes one that comes no later, unless that one
      did not fit. */
  lemma TakesFirst(cands: seq<Track>, f: Filter, c: Caps, v: seq<real>, a: seq<nat>, b: seq<nat>, p: nat)
    requires |v| == |cands| && Greedy(cands, f, c, v, a) && Greedy(cands, f, c, v, b)
    requires p < |a| && p <= |b| && a[..p] == b[..p]
    ensures Survives(cands, f, a[p]) && (p < |b| ==> Survives(cands, f, b[p]))
    ensures (p < |b| && !Before(v, a[p], b[p])) || !Fits(cands, c, b[..p], a[p])
  {
    var i := a[p];
    assert Survives(cands, f, i) && (p < |b| ==> Survives(cands, f, b[p]));
    if p == |b| || Before(v, i, b[p]) {
      forall q | 0 <= q < p ensures Before(v, b[q], i) {
        assert b[q] == a[..p][q] && Before(v, a[q], a[p]);
      }
      NotTaken(v, b, p, i);
      var n :| 0 <= n <= |b| && Barred(cands, c, v, b, n, i);
      TurnIs(v, b, p, i, n);
    }
  }

  lemma FitsThere(cands: seq<Track>, f: Filter, c: Caps, v: seq<real>, a: seq<nat>, p: nat)
    requires |v| == |cands| && Greedy(cands, f, c, v, a) && p < |a|
    ensures Inside(cands, a[..p]) && a[p] < |cands| && Fits(cands, c, a[..p], a[p])
  {
    assert forall q | 0 <= q < |a| :: Survives(cands, f, a[q]);
  }

  lemma NextSame(cands: seq<Track>, f: Filter, c: Caps, v: seq<real>, a: seq<nat>, b: seq<nat>, p: nat)
    requires |v| == |cands| && Greedy(cands, f, c, v, a) && Greedy(cands, f, c, v, b)
    requires p < |a| && p <= |b| && a[..p] == b[..p]
    ensures p < |b| && a[p] == b[p] && a[..p + 1] == b[..p + 1]
  {
    FitsThere(cands, f, c, v, a, p);
    TakesFirst(cands, f, c, v, a, b, p);
    FitsThere(cands, f, c, v, b, p);
    TakesFirst(cands, f, c, v, b, a, p);
    assert a[p] == b[p];
    SnocSame(a, b, p);
  }

  lemma SnocSame(a: seq<nat>, b: seq<nat>, p: nat)
    requires p < |a| && p < |b| && a[..p] == b[..p] && a[p] == b[p]
    ensures a[..p + 1] == b[..p + 1]
  {
    assert a[..p + 1] == a[..p] + [a[p]] && b[..p + 1] == b[..p] + [b[p]];
  }

  lemma {:induction false} PrefixSame(cands: seq<Track>, f: Filter, c: Caps, v: seq<real>, a: seq<nat>, b: seq<nat>,
                                      p: nat)
    requires |v| == |cands| && Greedy(cands, f, c, v, a) && Greedy(cands, f, c, v, b) && p <= |a|
    ensures p <= |b| && a[..p] == b[..p]
  {
    if p > 0 {
      PrefixSame(cands, f, c, v, a, b, p - 1);
      NextSame(cands, f, c, v, a, b, p - 1);
    }
  }

  /** The description leaves only one answer. */
  lemma OnlyOne(cands: seq<Track>, f: Filter, c: Caps, out: seq<Track>, other: seq<Track>)
    requires IsRerank(out, cands, f, c) && IsRerank(other, cands, f, c)
    ensures out == other
  {
    var v := Finals(cands, f);
    var a :| Greedy(cands, f, c, v, a) && Lists(out, cands, f, a);
    var b :| Greedy(cands, f, c, v, b) && Lists(other, cands, f, b);
    PrefixSame(cands, f, c, v, a, b, |a|);
    PrefixSame(cands, f, c, v, b, a, |b|);
    assert a == a[..|a|] && b == b[..|b|];
  }

  // ----- The re-rank returns it

  function Presented(cands: seq<Track>, f: Filter, i: nat): Track
    requires i < |cands|
  {
    cands[i].(score := Some(Final(cands, f, i)))
  }

  /** `kept` are the survivors in input order. */
  ghost predicate Survivors(cands: seq<Track>, f: Filter, kept: seq<nat>) {
    && Inside(cands, kept)
    && (forall i: nat :: i in kept <==> Survives(cands, f, i))
    && forall a, b | 0 <= a < b < |kept| :: kept[a] < kept[b]
  }

  /** `Kept` lists them. */
  ghost predicate KeptAre(cands: seq<Track>, f: Filter, kept: seq<nat>)
    requires Inside(cands, kept)
  {
    && |Kept(cands, f)| == |kept|
    && forall k | 0 <= k < |kept| :: Kept(cands, f)[k] == Presented(cands, f, kept[k])
  }

  ghost predicate Keeps(cands: seq<Track>, f: Filter, kept: seq<nat>) {
    Survivors(cands, f, kept) && KeptAre(cands, f, kept)
  }

  lemma KeepsNone(cands: seq<Track>, f: Filter)
    requires cands == []
    ensures Keeps(cands, f, [])
  {
  }

  lemma KeptOneMore(r: seq<Track>, t: Track, f: Filter)
    ensures Kept(r + [t], f) == Kept(r, f) + if Dropped(t, f) then [] else [Presented(r + [t], f, |r|)]
  {
    var cands := r + [t];
    KeptStep(cands, |r|, f);
    RescoredIsPresented(cands, f, |r|);
    assert cands[..|r|] == r && cands[..|r| + 1] == cands;
  }

  function OneMore(r: seq<Track>, t: Track, f: Filter, kept: seq<nat>): seq<nat> {
    if Dropped(t, f) then kept else kept + [|r|]
  }

  lemma SurvivorsOneMore(r: seq<Track>, t: Track, f: Filter, kept: seq<nat>)
    requires Survivors(r, f, kept)
    ensures Survivors(r + [t], f, OneMore(r, t, f, kept))
  {
    var more := OneMore(r, t, f, kept);
    forall i: nat ensures i in more <==> Survives(r + [t], f, i) {
      assert i < |r| ==> (Survives(r, f, i) <==> Survives(r + [t], f, i));
    }
    assert forall k | 0 <= k < |kept| :: kept[k] in kept && kept[k] < |r|;
  }

  lemma KeptAreOneMore(r: seq<Track>, t: Track, f: Filter, kept: seq<nat>)
    requires Inside(r, kept) && KeptAre(r, f, kept)
    ensures Inside(r + [t], OneMore(r, t, f, kept)) && KeptAre(r + [t], f, OneMore(r, t, f, kept))
  {
    KeptOneMore(r, t, f);
    SameFinal(r, t, f, kept);
  }

  lemma SameFinal(r: seq<Track>, t: Track, f: Filter, kept: seq<nat>)
    requires Inside(r, kept)
    ensures forall k | 0 <= k < |kept| :: Presented(r + [t], f, kept[k]) == Presented(r, f, kept[k])
  {
  }

  lemma RescoredIsPresented(cands: seq<Track>, f: Filter, i: nat)
    requires i < |cands|
    ensures Rescored(cands[i], i, f) == Presented(cands, f, i)
  {
  }

  lemma {:induction false} KeptByPosition(cands: seq<Track>, f: Filter) returns (kept: seq<nat>)
    ensures Keeps(cands, f, kept)
  {
    if cands == [] {
      KeepsNone(cands, f);
      kept := [];
    } else {
      var n := |cands| - 1;
      kept := KeptByPosition(cands[..n], f);
      SurvivorsOneMore(cands[..n], cands[n], f, kept);
      KeptAreOneMore(cands[..n], cands[n], f, kept);
      kept := OneMore(cands[..n], cands[n], f, kept);
      assert cands[..n] + [cands[n]] == cands;
    }
  }

  /** `rank` are the survivors in the order they are looked at. */
  ghost predicate Ranks(cands: seq<Track>, f: Filter, rank: seq<nat>) {
    && Inside(cands, rank)
    && (forall i: nat :: i in rank <==> Survives(cands, f, i))
    && (forall a, b | 0 <= a < b < |rank| :: Before(Finals(cands, f), rank[a], rank[b]))
    && |Ranked(cands, f)| == |rank|
    && forall k | 0 <= k < |rank| :: Ranked(cands, f)[k] == Presented(cands, f, rank[k])
  }

  lemma RankedByPosition(cands: seq<Track>, f: Filter) returns (rank: seq<nat>)
    ensures Ranks(cands, f, rank)
  {
    var kept := KeptByPosition(cands, f);
    var order := SortDescByPosition(Kept(cands, f), ScoreOf);
    rank := seq(|order|, k requires 0 <= k < |order| => kept[order[k]]);
    forall i: nat ensures i in rank <==> Survives(cands, f, i) {
      if i in kept {
        var k :| 0 <= k < |kept| && kept[k] == i;
        assert k in order;
        var m :| 0 <= m < |order| && order[m] == k;
        assert rank[m] == i;
      }
    }
    forall a, b | 0 <= a < b < |rank| ensures Before(Finals(cands, f), rank[a], rank[b]) {
      assert Ahead(Kept(cands, f), ScoreOf, order[a], order[b]);
    }
  }

  lemma OneMoreSame(cands: seq<Track>, c: Caps, idx: seq<nat>, j: nat, i: nat)
    requires Inside(cands, idx) && j < |cands| && i < |cands|
    ensures |SameArtist(cands, c, idx + [j], i)|
            == |SameArtist(cands, c, idx, i)| + if c.norm(cands[j].artist) == c.norm(cands[i].artist) then 1 else 0
  {
    var less, all := SameArtist(cands, c, idx, i), SameArtist(cands, c, idx + [j], i);
    assert all == if c.norm(cands[j].artist) == c.norm(cands[i].artist) then less + {|idx|} else less;
  }

  lemma {:induction false} CountByPosition(cands: seq<Track>, f: Filter, c: Caps, out: seq<Track>, idx: seq<nat>,
                                           i: nat)
    requires Lists(out, cands, f, idx) && i < |cands|
    ensures CountKey(out, c.norm(cands[i].artist), c) == |SameArtist(cands, c, idx, i)|
  {
    if out == [] {
      assert SameArtist(cands, c, idx, i) == {};
    } else {
      var n := |out| - 1;
      assert Lists(out[..n], cands, f, idx[..n]);
      CountByPosition(cands, f, c, out[..n], idx[..n], i);
      OneMoreSame(cands, c, idx[..n], idx[n], i);
      assert idx[..n] + [idx[n]] == idx;
      assert out[n].artist == cands[idx[n]].artist;
    }
  }

  lemma AdmitsIsFits(cands: seq<Track>, f: Filter, c: Caps, out: seq<Track>, idx: seq<nat>, i: nat)
    requires Lists(out, cands, f, idx) && i < |cands|
    ensures Admits(out, Presented(cands, f, i), c) <==> Fits(cands, c, idx, i)
  {
    CountByPosition(cands, f, c, out, idx, i);
    if cands[i].url in Urls(out) {
      var t :| t in out && t.url == cands[i].url;
      var p :| 0 <= p < |out| && out[p] == t;
    } else {
      assert forall p | 0 <= p < |idx| :: out[p] in out;
    }
  }

  /** `idx` is right for the first `n` survivors looked at. */
  ghost predicate GreedyUpTo(cands: seq<Track>, f: Filter, c: Caps, rank: seq<nat>, n: nat, idx: seq<nat>)
    requires Inside(cands, rank) && n <= |rank|
  {
    && Inside(cands, idx)
    && (forall p | 0 <= p < |idx| :: idx[p] in rank[..n])
    && (forall p, q | 0 <= p < q < |idx| :: Before(Finals(cands, f), idx[p], idx[q]))
    && (forall p | 0 <= p < |idx| :: Fits(cands, c, idx[..p], idx[p]))
    && (forall i | i in rank[..n] && i !in idx ::
          exists k | 0 <= k <= |idx| :: Barred(cands, c, Finals(cands, f), idx, k, i))
  }

  lemma StaysBarred(cands: seq<Track>, c: Caps, v: seq<real>, idx: seq<nat>, t: nat, i: nat)
    requires |v| == |cands| && Inside(cands, idx) && t < |cands| && i < |cands| && Before(v, i, t)
    requires exists k | 0 <= k <= |idx| :: Barred(cands, c, v, idx, k, i)
    ensures exists k | 0 <= k <= |idx + [t]| :: Barred(cands, c, v, idx + [t], k, i)
  {
    var k :| 0 <= k <= |idx| && Barred(cands, c, v, idx, k, i);
    assert (idx + [t])[..k] == idx[..k];
    assert Barred(cands, c, v, idx + [t], k, i);
  }

  lemma EarlierBefore(cands: seq<Track>, f: Filter, rank: seq<nat>, n: nat, i: nat)
    requires Ranks(cands, f, rank) && n < |rank| && i in rank[..n]
    ensures i < |cands| && rank[n] < |cands| && Before(Finals(cands, f), i, rank[n])
  {
    var m :| 0 <= m < n && rank[..n][m] == i;
    assert rank[m] == i;
  }

  lemma TakesFitting(cands: seq<Track>, c: Caps, v: seq<real>, idx: seq<nat>, t: nat)
    requires |v| == |cands| && Inside(cands, idx) && t < |cands| && Fits(cands, c, idx, t)
    requires forall p, q | 0 <= p < q < |idx| :: Before(v, idx[p], idx[q])
    requires forall p | 0 <= p < |idx| :: Before(v, idx[p], t)
    requires forall p | 0 <= p < |idx| :: Fits(cands, c, idx[..p], idx[p])
    ensures Inside(cands, idx + [t])
    ensures forall p, q | 0 <= p < q < |idx + [t]| :: Before(v, (idx + [t])[p], (idx + [t])[q])
    ensures forall p | 0 <= p < |idx + [t]| :: Fits(cands, c, (idx + [t])[..p], (idx + [t])[p])
  {
    forall p | 0 <= p <= |idx| ensures (idx + [t])[..p] == idx[..p] {
    }
    assert idx[..|idx|] == idx;
  }

  lemma GreedyTakes(cands: seq<Track>, f: Filter, c: Caps, rank: seq<nat>, n: nat, idx: seq<nat>)
    requires Ranks(cands, f, rank) && n < |rank| && GreedyUpTo(cands, f, c, rank, n, idx)
    requires Fits(cands, c, idx, rank[n])
    ensures GreedyUpTo(cands, f, c, rank, n + 1, idx + [rank[n]])
  {
    var v, t := Finals(cands, f), rank[n];
    assert rank[..n + 1] == rank[..n] + [t];
    forall i | i in rank[..n] ensures i < |cands| && Before(v, i, t) {
      EarlierBefore(cands, f, rank, n, i);
    }
    TakesFitting(cands, c, v, idx, t);
    forall i | i in rank[..n + 1] && i !in idx + [t]
      ensures exists k | 0 <= k <= |idx + [t]| :: Barred(cands, c, v, idx + [t], k, i)
    {
      StaysBarred(cands, c, v, idx, t, i);
    }
  }

  lemma GreedyPasses(cands: seq<Track>, f: Filter, c: Caps, rank: seq<nat>, n: nat, idx: seq<nat>)
    requires Ranks(cands, f, rank) && n < |rank| && GreedyUpTo(cands, f, c, rank, n, idx)
    requires !Fits(cands, c, idx, rank[n])
    ensures GreedyUpTo(cands, f, c, rank, n + 1, idx)
  {
    var v, t := Finals(cands, f), rank[n];
    assert rank[..n + 1] == rank[..n] + [t];
    forall p | 0 <= p < |idx| ensures Before(v, idx[p], t) {
      EarlierBefore(cands, f, rank, n, idx[p]);
    }
    PassedIsBarred(cands, c, v, idx, t);
    forall i | i in rank[..n + 1] && i !in idx ensures exists k | 0 <= k <= |idx| :: Barred(cands, c, v, idx, k, i) {
      assert i == t || i in rank[..n];
    }
  }

  lemma PassedIsBarred(cands: seq<Track>, c: Caps, v: seq<real>, idx: seq<nat>, t: nat)
    requires |v| == |cands| && Inside(cands, idx) && t < |cands| && !Fits(cands, c, idx, t)
    requires forall p | 0 <= p < |idx| :: Before(v, idx[p], t)
    ensures exists k | 0 <= k <= |idx| :: Barred(cands, c, v, idx, k, t)
  {
    assert idx[..|idx|] == idx;
    assert Barred(cands, c, v, idx, |idx|, t);
  }

  lemma {:induction false} PickByPosition(cands: seq<Track>, f: Filter, c: Caps, rank: seq<nat>, n: nat)
    returns (idx: seq<nat>)
    requires Ranks(cands, f, rank) && n <= |rank|
    ensures GreedyUpTo(cands, f, c, rank, n, idx) && Lists(Pick(Ranked(cands, f)[..n], c), cands, f, idx)
  {
    if n == 0 {
      idx := [];
    } else {
      var s := Ranked(cands, f);
      idx := PickByPosition(cands, f, c, rank, n - 1);
      PickStep(s, n - 1, c);
      AdmitsIsFits(cands, f, c, Pick(s[..n - 1], c), idx, rank[n - 1]);
      if Fits(cands, c, idx, rank[n - 1]) {
        GreedyTakes(cands, f, c, rank, n - 1, idx);
        idx := idx + [rank[n - 1]];
      } else {
        GreedyPasses(cands, f, c, rank, n - 1, idx);
      }
    }
  }

  /** The re-rank, exactly. */
  lemma RerankIsGreedy(cands: seq<Track>, f: Filter, c: Caps)
    ensures IsRerank(Reranked(cands, f, c), cands, f, c)
  {
    var rank := RankedByPosition(cands, f);
    var idx := PickByPosition(cands, f, c, rank, |rank|);
    assert Ranked(cands, f)[..|rank|] == Ranked(cands, f) && rank[..|rank|] == rank;
    assert Greedy(cands, f, c, Finals(cands, f), idx);
  }

  // ----- In particular

  lemma FallsWithPosition(i: nat, j: nat)
    requires i < j
    ensures 1.0 / (1.0 + 0.1 * i as real) > 1.0 / (1.0 + 0.1 * j as real)
  {
    DividedMore(1.0, 1.0 + 0.1 * i as real, 1.0 + 0.1 * j as real);
  }

  function Positions(n: nat): seq<nat> { seq(n, i requires 0 <= i < n => i) }

  /** Candidates with the artist of candidate `i`. */
  function WithArtistOf(cands: seq<Track>, c: Caps, i: nat): set<nat>
    requires i < |cands|
  {
    set p | 0 <= p < |cands| && c.norm(cands[p].artist) == c.norm(cands[i].artist)
  }

  lemma RoomForAll(cands: seq<Track>, c: Caps, p: nat)
    requires p < |cands| <= c.limit && DistinctUrls(cands) && |WithArtistOf(cands, c, p)| <= c.perArtist
    ensures Fits(cands, c, Positions(|cands|)[..p], p)
  {
    var taken := Positions(|cands|)[..p];
    var same, all := SameArtist(cands, c, taken, p), WithArtistOf(cands, c, p);
    assert same + {p} <= all && p !in same;
    SubsetSize(same + {p}, all);
    forall q | 0 <= q < |taken| ensures cands[taken[q]].url != cands[p].url {
      assert UrlOf(cands[q]) != UrlOf(cands[p]);
    }
  }

  lemma SubsetSize(a: set<nat>, b: set<nat>)
    requires a <= b
    ensures |a| <= |b|
  {
    assert b == a + (b - a);
  }

  lemma AllTaken(cands: seq<Track>, f: Filter, c: Caps, v: seq<real>, idx: seq<nat>)
    requires |v| == |cands| && Inside(cands, idx) && forall i: nat | i < |cands| :: i in idx
    requires forall p, q | 0 <= p < q < |idx| :: Before(v, idx[p], idx[q])
    requires forall p | 0 <= p < |idx| :: Fits(cands, c, idx[..p], idx[p])
    requires forall i | 0 <= i < |cands| :: Survives(cands, f, i)
    ensures Greedy(cands, f, c, v, idx)
  {
  }

  /** An engine without scores keeps its order: with nothing shown or dropped, no URL twice and room for all, the
      candidates come back as they are, with scores that fall with the position. */
  lemma UnscoredInOrder(cands: seq<Track>, f: Filter, c: Caps)
    requires forall i | 0 <= i < |cands| :: cands[i].score == None && cands[i].url !in f.shown + f.excluded
    requires DistinctUrls(cands) && (forall i | 0 <= i < |cands| :: !f.isAlt(cands[i].title))
    requires |cands| <= c.limit && forall i | 0 <= i < |cands| :: |WithArtistOf(cands, c, i)| <= c.perArtist
    ensures |Reranked(cands, f, c)| == |cands|
    ensures forall i | 0 <= i < |cands| ::
              Reranked(cands, f, c)[i] == cands[i].(score := Some(1.0 / (1.0 + 0.1 * i as real)))
  {
    var idx, v := Positions(|cands|), Finals(cands, f);
    UnscoredFalls(cands, f);
    forall p | 0 <= p < |idx| ensures Fits(cands, c, idx[..p], idx[p]) {
      RoomForAll(cands, c, p);
    }
    forall i: nat | i < |cands| ensures i in idx {
      assert idx[i] == i;
    }
    AllTaken(cands, f, c, v, idx);
    AllListed(cands, f, c);
  }

  lemma UnscoredFalls(cands: seq<Track>, f: Filter)
    requires forall i | 0 <= i < |cands| :: cands[i].score == None && cands[i].url !in f.shown
    ensures forall p, q | 0 <= p < q < |cands| :: Before(Finals(cands, f), Positions(|cands|)[p], Positions(|cands|)[q])
  {
    forall p, q | 0 <= p < q < |cands|
      ensures Before(Finals(cands, f), Positions(|cands|)[p], Positions(|cands|)[q])
    {
      FallsWithPosition(p, q);
    }
  }

  lemma AllListed(cands: seq<Track>, f: Filter, c: Caps)
    requires Greedy(cands, f, c, Finals(cands, f), Positions(|cands|))
    ensures |Reranked(cands, f, c)| == |cands|
    ensures forall i | 0 <= i < |cands| :: Reranked(cands, f, c)[i] == Presented(cands, f, i)
  {
    var out := seq(|cands|, i requires 0 <= i < |cands| => Presented(cands, f, i));
    assert Lists(out, cands, f, Positions(|cands|));
    RerankIsGreedy(cands, f, c);
    OnlyOne(cands, f, c, out, Reranked(cands, f, c));
  }

  /** At a limit of one, of two candidates the second is returned if the first does not survive or scores less,
      and the first otherwise. */
  lemma BetterOfTwo(a: Track, b: Track, f: Filter, c: Caps)
    requires c.limit <= 1 && c.perArtist >= 1
    ensures var cands := [a, b];
            && (Survives(cands, f, 1) && (Survives(cands, f, 0) ==> Final(cands, f, 1) > Final(cands, f, 0)) ==>
                  Reranked(cands, f, c) == [b.(score := Some(Final(cands, f, 1)))])
            && (Survives(cands, f, 0) && (Survives(cands, f, 1) ==> Final(cands, f, 0) >= Final(cands, f, 1)) ==>
                  Reranked(cands, f, c) == [a.(score := Some(Final(cands, f, 0)))])
  {
    RerankIsGreedy([a, b], f, c);
    if Survives([a, b], f, 1) && (Survives([a, b], f, 0) ==> Final([a, b], f, 1) > Final([a, b], f, 0)) {
      OnlyTakes([a, b], f, c, 1);
    }
    if Survives([a, b], f, 0) && (Survives([a, b], f, 1) ==> Final([a, b], f, 0) >= Final([a, b], f, 1)) {
      OnlyTakes([a, b], f, c, 0);
    }
  }

  lemma OnlyTakes(cands: seq<Track>, f: Filter, c: Caps, i: nat)
    requires c.limit <= 1 && c.perArtist >= 1 && Survives(cands, f, i)
    requires forall j: nat | Survives(cands, f, j) && j != i :: Before(Finals(cands, f), i, j)
    ensures Reranked(cands, f, c) == [Presented(cands, f, i)]
  {
    var v := Finals(cands, f);
    assert SameArtist(cands, c, [], i) == {};
    assert [i][..0] == [] && [i][..1] == [i];
    forall j: nat | Survives(cands, f, j) && j !in [i]
      ensures exists n | 0 <= n <= 1 :: Barred(cands, c, v, [i], n, j)
    {
      assert Before(v, i, j);
      assert Barred(cands, c, v, [i], 1, j);
    }
    assert Greedy(cands, f, c, v, [i]);
    assert Lists([Presented(cands, f, i)], cands, f, [i]);
    RerankIsGreedy(cands, f, c);
    OnlyOne(cands, f, c, [Presented(cands, f, i)], Reranked(cands, f, c));
  }
}
