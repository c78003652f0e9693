/** One URL under several artists: exactly when the re-rank still keeps best copies and is still optimal, and
    inputs on which it does not. */
module SharedUrls {
  import opened Wrappers
  import opened StableSort
  import opened Rerank

  lemma OneCopy(s: seq<Track>, t: Track, u: Track)
    requires DistinctUrls(s) && t in s && u in s && t.url == u.url
    ensures t == u
  {
    var i :| 0 <= i < |s| && s[i] == t;
    var j :| 0 <= j < |s| && s[j] == u;
    OneIndex(s, i, j);
  }

  lemma OneIndex(s: seq<Track>, i: nat, j: nat)
    requires DistinctUrls(s) && i < |s| && j < |s| && UrlOf(s[i]) == UrlOf(s[j])
    ensures i == j
  {
  }

  // ----- Best copies

  /** A better-scored copy of a returned URL is passed over only because its artist, which must be
      another one, was already full. */
  lemma BestCopyUnlessCapped(cands: seq<Track>, f: Filter, c: Caps, t: Track, u: Track)
    requires t in Reranked(cands, f, c) && u in Kept(cands, f) && u.url == t.url
    ensures ScoreOf(u) <= ScoreOf(t) ||
            (c.Key(u) != c.Key(t) && CountKey(Reranked(cands, f, c), c.Key(u), c) >= c.perArtist)
  {
    var s := Ranked(cands, f);
    RankedIsKept(cands, f);
    var i := PickedWhenAdmitted(s, t, c);
    var j :| 0 <= j < |s| && s[j] == u;
    if j < i {
      PassedOver(s, i, j, c);
    }
  }

  /** No kept copy of a returned URL scores more than the copy returned. */
  ghost predicate BestCopies(cands: seq<Track>, f: Filter, c: Caps) {
    forall t, u | t in Reranked(cands, f, c) && u in Kept(cands, f) && u.url == t.url :: ScoreOf(u) <= ScoreOf(t)
  }

  /** Then duplicate URLs keep their best-scored copy. A URL that determines its artist is one such case. */
  lemma BestCopyKept(cands: seq<Track>, f: Filter, c: Caps)
    requires Room(Kept(cands, f), c)
    ensures BestCopies(cands, f, c)
  {
    forall t, u | t in Reranked(cands, f, c) && u in Kept(cands, f) && u.url == t.url
      ensures ScoreOf(u) <= ScoreOf(t)
    {
      OutputIsFeasible(cands, f, c);
      BestCopyUnlessCapped(cands, f, c, t, u);
      if ScoreOf(u) > ScoreOf(t) {
        FullWithout(cands, f, c, t, u);
      }
    }
  }

  lemma FullWithout(cands: seq<Track>, f: Filter, c: Caps, t: Track, u: Track)
    requires t in Reranked(cands, f, c) && u in Kept(cands, f) && u.url == t.url && c.Key(u) != c.Key(t)
    requires CountKey(Reranked(cands, f, c), c.Key(u), c) >= c.perArtist
    ensures c.Size() > c.perArtist >= 1 && Contested(Kept(cands, f), c, u, t)
  {
    var out := Reranked(cands, f, c);
    OutputIsFeasible(cands, f, c);
    CountKeyOf(out, t, c);
    TwoKeysFit(out, c.Key(u), c.Key(t), c);
    DistinctUrlsCount(out, c.Key(u), c);
    OtherUrls(out, Kept(cands, f), t, c.Key(u), c);
  }

  lemma OtherUrls(out: seq<Track>, pool: seq<Track>, t: Track, k: string, c: Caps)
    requires DistinctUrls(out) && DrawnFrom(out, pool) && t in out && c.Key(t) != k
    ensures |UrlsOf(out, k, c)| <= |UrlsOf(pool, k, c) - {t.url}|
  {
    forall x | x in out && c.Key(x) == k ensures x.url != t.url {
      var i :| 0 <= i < |out| && out[i] == x;
      var j :| 0 <= j < |out| && out[j] == t;
      assert i < j ==> UrlOf(out[i]) != UrlOf(out[j]);
      assert j < i ==> UrlOf(out[j]) != UrlOf(out[i]);
    }
    SubsetSize(UrlsOf(out, k, c), UrlsOf(pool, k, c) - {t.url});
  }

  // ----- Scores that bring a loss about

  /** One URL under two artists; `full` can fill its cap without it. */
  datatype Dispute = Dispute(url: string, full: string, other: string, copyFirst: bool)

  /** Scores that bring a loss about: the other tracks of the artist that can be filled, its own copy of the
      URL before or after them, then the other artist's copy, then everything else. */
  function Level(t: Track, d: Dispute, c: Caps): real {
    if c.Key(t) == d.full then (if t.url != d.url then 3.0 else if d.copyFirst then 4.0 else 2.0)
    else if c.Key(t) == d.other && t.url == d.url then 1.0
    else 0.0
  }

  /** The candidates with such scores, set so that the shown penalty gives exactly `Level`. */
  function Staged(cands: seq<Track>, f: Filter, d: Dispute, c: Caps): seq<Track> {
    if cands == [] then [] else
      var t := cands[|cands| - 1];
      var x := Level(t, d, c);
      Staged(cands[..|cands| - 1], f, d, c)
        + [t.(score := Some(if t.url in f.shown then x / SHOWN_PENALTY else x))]
  }

  lemma {:induction false} StagedScores(cands: seq<Track>, f: Filter, d: Dispute, c: Caps)
    ensures var b := Staged(cands, f, d, c);
            && SameButScores(cands, b)
            && forall x | x in Kept(b, f) :: ScoreOf(x) == Level(x, d, c)
  {
    if cands != [] {
      var n := |cands| - 1;
      StagedScores(cands[..n], f, d, c);
      var b := Staged(cands, f, d, c);
      assert b[..n] == Staged(cands[..n], f, d, c);
      forall i | 0 <= i < |cands| ensures cands[i].(score := None) == b[i].(score := None) {
        if i < n {
          assert cands[..n][i].(score := None) == b[..n][i].(score := None);
        }
      }
    }
  }

  /** A ranked list with those scores. */
  ghost predicate IsStaged(s: seq<Track>, d: Dispute, c: Caps) {
    && d.full != d.other
    && Descending(s, ScoreOf)
    && forall x | x in s :: ScoreOf(x) == Level(x, d, c)
  }

  lemma InPrefix(s: seq<Track>, t: Track, n: nat, x: real)
    requires n <= |s| && (forall i | n <= i < |s| :: ScoreOf(s[i]) < x) && t in s && ScoreOf(t) >= x
    ensures t in s[..n]
  {
    var j :| 0 <= j < |s| && s[j] == t;
  }

  lemma PrefixScores(s: seq<Track>, n: nat, x: real, t: Track)
    requires n <= |s| && (forall i | 0 <= i < n :: ScoreOf(s[i]) >= x) && t in s[..n]
    ensures t in s && ScoreOf(t) >= x
  {
  }

  lemma TopOnly(s: seq<Track>, m: nat, d: Dispute, c: Caps, t: Track)
    requires IsStaged(s, d, c) && m <= |s| && (forall i | 0 <= i < m :: ScoreOf(s[i]) >= 3.0)
    requires t in Pick(s[..m], c) && !d.copyFirst
    ensures c.Key(t) == d.full && t.url != d.url
  {
    PickIsFeasible(s[..m], c);
    PrefixScores(s, m, 3.0, t);
  }

  /** While the artist is not full every other URL of its own has been taken. */
  lemma TopTaken(s: seq<Track>, m: nat, d: Dispute, c: Caps, w: string)
    requires IsStaged(s, d, c) && m <= |s| && (forall i | m <= i < |s| :: ScoreOf(s[i]) < 3.0)
    requires w in UrlsOf(s, d.full, c) - {d.url}
    requires CountKey(Pick(s[..m], c), d.full, c) < c.perArtist && |Pick(s[..m], c)| < c.Size()
    ensures w in Urls(Pick(s[..m], c))
  {
    var t :| t in s && c.Key(t) == d.full && t.url == w;
    InPrefix(s, t, m, 3.0);
    PickIsMaximal(s[..m], t, c);
  }

  /** The crowded artist is full before either copy comes up. */
  lemma FillsUp(s: seq<Track>, d: Dispute, c: Caps) returns (m: nat)
    requires IsStaged(s, d, c) && !d.copyFirst && c.Size() > c.perArtist
    requires |UrlsOf(s, d.full, c) - {d.url}| >= c.perArtist
    ensures m <= |s| && (forall i | 0 <= i < m :: ScoreOf(s[i]) >= 3.0)
    ensures d.url !in Urls(Pick(s[..m], c)) && CountKey(Pick(s[..m], c), d.full, c) >= c.perArtist
  {
    m := CutAt(s, 3.0);
    var out := Pick(s[..m], c);
    PickIsFeasible(s[..m], c);
    forall t | t in out ensures c.Key(t) == d.full && t.url != d.url {
      TopOnly(s, m, d, c, t);
    }
    AllOneKey(out, d.full, c);
    if CountKey(out, d.full, c) < c.perArtist {
      forall w | w in UrlsOf(s, d.full, c) - {d.url} ensures w in UrlsOf(out, d.full, c) {
        TopTaken(s, m, d, c, w);
      }
      SubsetSize(UrlsOf(s, d.full, c) - {d.url}, UrlsOf(out, d.full, c));
      DistinctUrlsCount(out, d.full, c);
    }
  }

  lemma NotOfFull(p: seq<Track>, out: seq<Track>, x: Track, k: string, c: Caps)
    requires out <= p && Feasible(p, c) && Feasible(out, c) && c.perArtist >= 1 && CountKey(out, k, c) >= c.perArtist
    requires x in p && x.url !in Urls(out)
    ensures c.Key(x) != k
  {
    if c.Key(x) == k {
      DistinctUrlsCount(out, k, c);
      DistinctUrlsCount(p, k, c);
      assert x.url !in UrlsOf(out, k, c);
      SubsetSize(UrlsOf(out, k, c) + {x.url}, UrlsOf(p, k, c));
    }
  }

  /** Among tracks that score at least 1.0, one not of the crowded artist is the other's copy. */
  lemma OnlyTheCopy(s: seq<Track>, n: nat, d: Dispute, c: Caps, x: Track)
    requires IsStaged(s, d, c) && n <= |s| && (forall i | 0 <= i < n :: ScoreOf(s[i]) >= 1.0)
    requires x in s[..n] && c.Key(x) != d.full
    ensures x.url == d.url && ScoreOf(x) == 1.0
  {
    PrefixScores(s, n, 1.0, x);
  }

  lemma CopyComesUp(s: seq<Track>, n: nat, d: Dispute, c: Caps, t: Track)
    returns (x: Track)
    requires IsStaged(s, d, c) && c.Size() > c.perArtist >= 1
    requires n <= |s| && (forall i | 0 <= i < n :: ScoreOf(s[i]) >= 1.0)
    requires t in s[..n] && t.url == d.url && c.Key(t) == d.other
    ensures x in Pick(s[..n], c) && x.url == d.url
  {
    var out := Pick(s[..n], c);
    PickIsFeasible(s[..n], c);
    PickIsMaximal(s[..n], t, c);
    if d.url in Urls(out) {
      x :| x in out && x.url == d.url;
    } else {
      x := SomeOther(out, d.full, d.other, c);
      OnlyTheCopy(s, n, d, c, x);
    }
  }

  lemma SomeOther(out: seq<Track>, full: string, other: string, c: Caps) returns (x: Track)
    requires full != other && c.Size() > c.perArtist >= 1 && CountKey(out, full, c) <= c.perArtist
    requires CountKey(out, other, c) >= c.perArtist || |out| == c.Size()
    ensures x in out && c.Key(x) != full
  {
    if forall t | t in out :: c.Key(t) == full {
      AllOneKey(out, full, c);
      TwoKeysFit(out, full, other, c);
      assert false;
    } else {
      x :| x in out && c.Key(x) != full;
    }
  }

  /** When a shared URL is contested there are scores that make the pick return the worse copy. */
  lemma LosesCopy(cands: seq<Track>, f: Filter, c: Caps, u: Track, t: Track) returns (b: seq<Track>, x: Track, y: Track)
    requires Contested(Kept(cands, f), c, u, t) && c.Size() > c.perArtist >= 1
    ensures SameButScores(cands, b)
    ensures x in Reranked(b, f, c) && y in Kept(b, f) && x.url == y.url && ScoreOf(y) > ScoreOf(x)
  {
    var d := Dispute(u.url, c.Key(u), c.Key(t), false);
    b := Staged(cands, f, d, c);
    StagedScores(cands, f, d, c);
    var s := Ranked(b, f);
    RankedIsKept(b, f);
    KeptPairs(cands, f, b, f, c);
    SamePairsRanked(cands, b, f, c, d.full);
    var y' := FindPair(s, d.url, d.full, c, u, Kept(cands, f));
    var t' := FindPair(s, d.url, d.other, c, t, Kept(cands, f));
    x := WorseCopy(s, d, c, t');
    y := y';
  }

  lemma SamePairsRanked(cands: seq<Track>, b: seq<Track>, f: Filter, c: Caps, k: string)
    requires Pairs(Kept(cands, f), c) == Pairs(Kept(b, f), c)
    ensures Pairs(Ranked(b, f), c) == Pairs(Kept(cands, f), c)
    ensures UrlsOf(Ranked(b, f), k, c) == UrlsOf(Kept(cands, f), k, c)
  {
    RankedIsKept(b, f);
    ReadOffPairs(Kept(cands, f), k, c);
    ReadOffPairs(Ranked(b, f), k, c);
  }

  lemma CutsNest(s: seq<Track>, m: nat, n: nat)
    requires m <= |s| && n <= |s|
    requires (forall i | 0 <= i < m :: ScoreOf(s[i]) >= 3.0) && forall i | n <= i < |s| :: ScoreOf(s[i]) < 1.0
    ensures m <= n
  {
    if m > 0 {
      var x := ScoreOf(s[m - 1]);
    }
  }

  /** Where such a list loses the copy: the pick from its tracks that score at least 1.0. */
  lemma TallPick(s: seq<Track>, d: Dispute, c: Caps, t: Track) returns (n: nat, x: Track)
    requires IsStaged(s, d, c) && !d.copyFirst && c.Size() > c.perArtist >= 1
    requires |UrlsOf(s, d.full, c) - {d.url}| >= c.perArtist
    requires t in s && t.url == d.url && c.Key(t) == d.other
    ensures n <= |s| && forall i | 0 <= i < n :: ScoreOf(s[i]) >= 1.0
    ensures x in Pick(s[..n], c) && x.url == d.url && ScoreOf(x) == 1.0
    ensures |Pick(s[..n], c)| > c.perArtist
  {
    var m := FillsUp(s, d, c);
    n := CutAt(s, 1.0);
    InPrefix(s, t, n, 1.0);
    x := CopyComesUp(s, n, d, c, t);
    CutsNest(s, m, n);
    PickGrows(s[..n], m, c);
    assert s[..n][..m] == s[..m];
    PickIsFeasible(s[..n], c);
    PickIsFeasible(s[..m], c);
    NotOfFull(Pick(s[..n], c), Pick(s[..m], c), x, d.full, c);
    OnlyTheCopy(s, n, d, c, x);
    OneMore(Pick(s[..n], c), Pick(s[..m], c), x, d.full, c);
  }

  lemma OneMore(p: seq<Track>, out: seq<Track>, x: Track, k: string, c: Caps)
    requires out <= p && x in p && c.Key(x) != k && CountKey(out, k, c) >= c.perArtist
    ensures |p| > c.perArtist
  {
    assert p[..|out|] == out;
    CountKeyMonotone(p, |out|, k, c);
    CountKeyOf(p, x, c);
    TwoKeysFit(p, k, c.Key(x), c);
  }

  lemma WorseCopy(s: seq<Track>, d: Dispute, c: Caps, t: Track) returns (x: Track)
    requires IsStaged(s, d, c) && !d.copyFirst && c.Size() > c.perArtist >= 1
    requires |UrlsOf(s, d.full, c) - {d.url}| >= c.perArtist
    requires t in s && t.url == d.url && c.Key(t) == d.other
    ensures x in Pick(s, c) && x.url == d.url && ScoreOf(x) == 1.0
  {
    var n;
    n, x := TallPick(s, d, c, t);
    PickGrows(s, n, c);
  }

  // ----- Optimality

  /** With the shared copy first, whatever scores at least 1.0 in the pick is of the crowded artist. */
  lemma OnlyFullAbove(s: seq<Track>, d: Dispute, c: Caps, y: Track, x: Track)
    requires IsStaged(s, d, c) && d.copyFirst && c.perArtist >= 1
    requires y in s && y.url == d.url && c.Key(y) == d.full
    requires x in Pick(s, c) && ScoreOf(x) >= 1.0
    ensures c.Key(x) == d.full
  {
    var j :| 0 <= j < |s| && s[j] == y;
    HeadIsPicked(s, c);
    PickIsFeasible(s, c);
    if x.url == d.url {
      OneCopy(Pick(s, c), s[0], x);
    }
  }

  lemma HeadIsPicked(s: seq<Track>, c: Caps)
    requires s != [] && c.perArtist >= 1
    ensures s[0] in Pick(s, c)
  {
    assert s[..1] == [s[0]] && [s[0]][..0] == [];
    assert Pick(s[..1], c) == [s[0]];
    PickGrows(s, 1, c);
  }

  lemma NotDominated(out: seq<Track>, choice: seq<Track>, k: string, c: Caps)
    requires Feasible(out, c) && c.perArtist >= 1 && |choice| > c.perArtist
    requires forall x | x in out && ScoreOf(x) >= 1.0 :: c.Key(x) == k
    requires forall x | x in choice :: ScoreOf(x) >= 1.0
    ensures !Dominates(out, choice)
  {
    if Dominates(out, choice) {
      var r := out[..c.perArtist + 1];
      forall x | x in r ensures c.Key(x) == k {
        var i :| 0 <= i < |r| && r[i] == x;
        assert ScoreOf(out[i]) >= ScoreOf(choice[i]);
      }
      AllOneKey(r, k, c);
      CountKeyMonotone(out, c.perArtist + 1, k, c);
    }
  }

  lemma SameFloor(a: seq<Track>, b: seq<Track>, d: Dispute, e: Dispute, c: Caps)
    requires Alike(a, b, c) && e == d.(copyFirst := true)
    requires forall x | x in a :: Level(x, d, c) >= 1.0
    ensures forall x | x in b :: Level(x, e, c) >= 1.0
  {
    forall x | x in b ensures Level(x, e, c) >= 1.0 {
      var i :| 0 <= i < |b| && b[i] == x;
      assert Level(a[i], d, c) >= 1.0;
    }
  }

  /** When a shared URL is contested there are scores and a feasible choice on which a list ranked by other
      scores picks more above 1.0 than its artist's cap. */
  lemma TallChoice(cands: seq<Track>, f: Filter, c: Caps, u: Track, t: Track, d: Dispute) returns (choice: seq<Track>)
    requires Contested(Kept(cands, f), c, u, t) && c.Size() > c.perArtist >= 1
    requires d == Dispute(u.url, c.Key(u), c.Key(t), false)
    ensures Feasible(choice, c) && Pairs(choice, c) <= Pairs(Kept(cands, f), c) && |choice| > c.perArtist
    ensures forall x | x in choice :: Level(x, d, c) >= 1.0
  {
    var b := Staged(cands, f, d, c);
    StagedScores(cands, f, d, c);
    var s := Ranked(b, f);
    RankedIsKept(b, f);
    KeptPairs(cands, f, b, f, c);
    SamePairsRanked(cands, b, f, c, d.full);
    var t' := FindPair(s, d.url, d.other, c, t, Kept(cands, f));
    var n, x := TallPick(s, d, c, t');
    choice := Pick(s[..n], c);
    PickIsFeasible(s[..n], c);
    forall x | x in choice ensures x in s && Level(x, d, c) >= 1.0 {
      PrefixScores(s, n, 1.0, x);
    }
    assert Pairs(choice, c) <= Pairs(s, c);
  }

  /** When a shared URL is contested there are scores on which the pick loses to a feasible choice. */
  lemma LosesSlot(cands: seq<Track>, f: Filter, c: Caps, u: Track, t: Track) returns (b: seq<Track>, choice: seq<Track>)
    requires Contested(Kept(cands, f), c, u, t) && c.Size() > c.perArtist >= 1
    ensures SameButScores(cands, b) && CouldReturn(choice, b, f, c) && !Dominates(Reranked(b, f, c), choice)
  {
    var d := Dispute(u.url, c.Key(u), c.Key(t), false);
    var e := d.(copyFirst := true);
    var tall := TallChoice(cands, f, c, u, t, d);
    b := Staged(cands, f, e, c);
    StagedScores(cands, f, e, c);
    KeptPairs(cands, f, b, f, c);
    var mine := Mirror(tall, Kept(b, f), c);
    FeasibleAlike(tall, mine, c);
    SameFloor(tall, mine, d, e, c);
    choice := BestFirst(mine, b, f, c);
    LosesTo(cands, b, f, c, u, e, choice);
  }

  lemma BestFirst(mine: seq<Track>, b: seq<Track>, f: Filter, c: Caps) returns (choice: seq<Track>)
    requires Feasible(mine, c) && DrawnFrom(mine, Kept(b, f))
    ensures CouldReturn(choice, b, f, c) && |choice| == |mine| && forall x :: x in choice <==> x in mine
  {
    choice := SortDesc(mine, ScoreOf);
    SortDescIsStableSort(mine, ScoreOf);
    assert |multiset(choice)| == |multiset(mine)|;
    FeasibleIgnoresOrder(mine, choice, c);
  }

  lemma LosesTo(cands: seq<Track>, b: seq<Track>, f: Filter, c: Caps, u: Track, e: Dispute, choice: seq<Track>)
    requires b == Staged(cands, f, e, c) && e.copyFirst && e.full != e.other && c.perArtist >= 1
    requires u in Kept(cands, f) && u.url == e.url && c.Key(u) == e.full
    requires CouldReturn(choice, b, f, c) && |choice| > c.perArtist
    requires forall x | x in choice :: Level(x, e, c) >= 1.0
    ensures !Dominates(Reranked(b, f, c), choice)
  {
    var s := Ranked(b, f);
    StagedScores(cands, f, e, c);
    RankedIsKept(b, f);
    KeptPairs(cands, f, b, f, c);
    SamePairsRanked(cands, b, f, c, e.full);
    var y := FindPair(s, e.url, e.full, c, u, Kept(cands, f));
    PickIsFeasible(s, c);
    forall x | x in Pick(s, c) && ScoreOf(x) >= 1.0 ensures c.Key(x) == e.full {
      OnlyFullAbove(s, e, c, y, x);
    }
    NotDominated(Pick(s, c), choice, e.full, c);
  }

  /** Greedy optimality, exactly: the pick dominates every feasible choice, whatever the scores, if and only if
      there is room for copies. */
  lemma GreedyOptimalIff(cands: seq<Track>, f: Filter, c: Caps)
    ensures (forall b, choice | SameButScores(cands, b) && CouldReturn(choice, b, f, c) ::
               Dominates(Reranked(b, f, c), choice))
            <==> Room(Kept(cands, f), c)
  {
    if Room(Kept(cands, f), c) {
      forall b, choice | SameButScores(cands, b) && CouldReturn(choice, b, f, c)
        ensures Dominates(Reranked(b, f, c), choice)
      {
        KeptPairs(cands, f, b, f, c);
        RoomFromPairs(Kept(cands, f), Kept(b, f), c);
        GreedyDominates(b, f, c, choice);
      }
    } else {
      var t, u :| Contested(Kept(cands, f), c, u, t);
      var b, choice := LosesSlot(cands, f, c, u, t);
    }
  }

  // ----- Best copies, exactly

  /** Best copies are kept whatever the scores exactly when a caller can see there is room for them. */
  lemma BestCopiesIff(cands: seq<Track>, f: Filter, c: Caps)
    ensures (forall b | SameButScores(cands, b) :: BestCopies(b, f, c)) <==> Room(Kept(cands, f), c)
  {
    if Room(Kept(cands, f), c) {
      forall b | SameButScores(cands, b) ensures BestCopies(b, f, c) {
        KeptPairs(cands, f, b, f, c);
        RoomFromPairs(Kept(cands, f), Kept(b, f), c);
        BestCopyKept(b, f, c);
      }
    } else {
      var t, u :| Contested(Kept(cands, f), c, u, t);
      var b, x, y := LosesCopy(cands, f, c, u, t);
      assert SameButScores(cands, b) && !BestCopies(b, f, c);
    }
  }

  lemma PassedOver(s: seq<Track>, i: nat, j: nat, c: Caps)
    requires j < i < |s| && s[j].url == s[i].url && Admits(Pick(s[..i], c), s[i], c)
    ensures c.Key(s[j]) != c.Key(s[i]) && CountKey(Pick(s, c), c.Key(s[j]), c) >= c.perArtist
  {
    assert s[..i][j] == s[j];
    PickIsMaximal(s[..i], s[j], c);
    PickGrows(s, i, c);
    assert Pick(s, c)[..|Pick(s[..i], c)|] == Pick(s[..i], c);
    CountKeyMonotone(Pick(s, c), |Pick(s[..i], c)|, c.Key(s[j]), c);
  }

  lemma {:induction false} PickedWhenAdmitted(s: seq<Track>, t: Track, c: Caps) returns (i: nat)
    requires t in Pick(s, c)
    ensures i < |s| && s[i] == t && Admits(Pick(s[..i], c), t, c)
  {
    var n := |s| - 1;
    if t in Pick(s[..n], c) {
      i := PickedWhenAdmitted(s[..n], t, c);
      assert s[..n][..i] == s[..i];
    } else {
      i := n;
    }
  }

  // ----- Inputs on which a shared URL costs something

  function Name(n: nat): string { seq(n, i => 'x') }

  /** `n` tracks of one artist with URLs of their own. */
  function Crowd(n: nat): seq<Track> {
    if n == 0 then [] else Crowd(n - 1) + [Track("", "A", Name(n), Some(1.0))]
  }

  lemma {:induction false} CrowdIs(n: nat)
    ensures |Crowd(n)| == n && forall i | 0 <= i < n :: Crowd(n)[i] == Track("", "A", Name(i + 1), Some(1.0))
  {
    if n > 0 {
      CrowdIs(n - 1);
    }
  }

  lemma CrowdCounts(n: nat, c: Caps)
    ensures CountKey(Crowd(n), c.norm("A"), c) == n
  {
    CrowdIs(n);
    forall t | t in Crowd(n) ensures c.Key(t) == c.norm("A") {
      assert t.artist == "A";
    }
    AllOneKey(Crowd(n), c.norm("A"), c);
  }

  /** The artist's copy of the shared URL, the others, and the other artist's copy. */
  function Shared(n: nat): seq<Track> { [First()] + Crowd(n) + [Last()] }

  function First(): Track { Track("", "A", "", Some(2.0)) }

  function Last(): Track { Track("", "B", "", Some(0.0)) }

  lemma SharedIs(n: nat, t: Track)
    requires t in Shared(n)
    ensures t == First() || t == Last()
            || (t in Crowd(n) && t.artist == "A" && t.title == "" && t.url != "" && t.score == Some(1.0))
  {
    CrowdIs(n);
  }

  lemma {:induction false} KeptAll(cands: seq<Track>, f: Filter)
    requires forall t | t in cands :: t.score.Some? && !Dropped(t, f) && t.url !in f.shown
    ensures Kept(cands, f) == cands
  {
    if cands != [] {
      var r, t := cands[..|cands| - 1], cands[|cands| - 1];
      assert cands == r + [t];
      KeptAll(r, f);
      assert t in cands;
    }
  }

  /** Nothing is filtered and nothing demoted. */
  ghost predicate Idle(f: Filter) { f.excluded == f.shown == {} && !f.isAlt("") }

  lemma SharedSurvives(n: nat, f: Filter, t: Track)
    requires Idle(f) && t in Shared(n)
    ensures t.score.Some? && !Dropped(t, f) && t.url !in f.shown
  {
    SharedIs(n, t);
  }

  lemma SharedDescends(n: nat)
    ensures Descending(Shared(n), ScoreOf)
  {
    CrowdIs(n);
  }

  lemma SharedKept(n: nat, f: Filter)
    requires Idle(f)
    ensures Kept(Shared(n), f) == Ranked(Shared(n), f) == Shared(n)
  {
    forall t | t in Shared(n) ensures t.score.Some? && !Dropped(t, f) && t.url !in f.shown {
      SharedSurvives(n, f, t);
    }
    KeptAll(Shared(n), f);
    SharedDescends(n);
    SortedIsFixed(Shared(n), ScoreOf);
  }

  lemma FirstBarsLast(n: nat, c: Caps, t: Track)
    requires c.perArtist >= 1 && t in Pick(Shared(n), c)
    ensures t.artist == "A"
  {
    HeadIsPicked(Shared(n), c);
    PickIsFeasible(Shared(n), c);
    SharedIs(n, t);
    if t.url == "" {
      OneCopy(Pick(Shared(n), c), First(), t);
    }
  }

  lemma CrowdAndLastCount(n: nat, c: Caps, k: string)
    requires n >= 1 && c.norm("A") != c.norm("B")
    ensures CountKey(Crowd(n) + [Last()], k, c) <= n
  {
    CrowdIs(n);
    CrowdCounts(n, c);
    CountKeySnoc(Crowd(n), Last(), k, c);
    if k != c.norm("A") {
      TwoKeysFit(Crowd(n), c.norm("A"), k, c);
    }
  }

  lemma CrowdAndLastDistinct(n: nat)
    ensures DistinctUrls(Crowd(n) + [Last()])
  {
    var choice := Crowd(n) + [Last()];
    CrowdIs(n);
    forall i, j | 0 <= i < j < |choice| ensures UrlOf(choice[i]) != UrlOf(choice[j]) {
      assert |UrlOf(choice[i])| == i + 1;
    }
  }

  lemma CrowdAndLastFit(n: nat, c: Caps)
    requires c.perArtist == n && c.limit > n >= 1 && c.norm("A") != c.norm("B")
    ensures Feasible(Crowd(n) + [Last()], c)
  {
    CrowdIs(n);
    CrowdAndLastDistinct(n);
    forall k ensures CountKey(Crowd(n) + [Last()], k, c) <= c.PerArtist() {
      CrowdAndLastCount(n, c, k);
    }
  }

  /** The hypothesis matters, at every cap below the limit: one URL listed under two artists can cost the
      pick a slot. */
  lemma SharedUrlBreaksOptimality(f: Filter, c: Caps)
    returns (cands: seq<Track>, choice: seq<Track>)
    requires Idle(f) && c.limit > c.perArtist >= 1 && c.norm("A") != c.norm("B")
    ensures Feasible(choice, c) && DrawnFrom(choice, Kept(cands, f))
    ensures |Reranked(cands, f, c)| < |choice|
  {
    var n := c.perArtist;
    cands, choice := Shared(n), Crowd(n) + [Last()];
    SharedKept(n, f);
    CrowdIs(n);
    CrowdAndLastFit(n, c);
    var out := Reranked(cands, f, c);
    PickIsFeasible(cands, c);
    forall t | t in out ensures c.Key(t) == c.norm("A") {
      FirstBarsLast(n, c, t);
    }
    AllOneKey(out, c.norm("A"), c);
  }

  /** And, at every cap below the limit, it can cost the better copy: `t` is returned although `u`, with the
      same URL and a greater score, was kept. */
  lemma BetterCopyDropped(f: Filter, c: Caps) returns (cands: seq<Track>, t: Track, u: Track)
    requires Idle(f) && c.limit > c.perArtist >= 1 && c.norm("A") != c.norm("B")
    ensures t in Reranked(cands, f, c) && u in Kept(cands, f) && u.url == t.url && ScoreOf(u) > ScoreOf(t)
  {
    var n := c.perArtist;
    SharedKept(n, f);
    SharedContested(n, f, c);
    cands, t, u := LosesCopy(Shared(n), f, c, First(), Last());
  }

  lemma CrowdUrls(n: nat, c: Caps)
    ensures |UrlsOf(Shared(n), c.norm("A"), c) - {""}| >= n
  {
    var a := c.norm("A");
    CrowdCounts(n, c);
    CrowdDistinct(n);
    DistinctUrlsCount(Crowd(n), a, c);
    forall t | t in Crowd(n) ensures t in Shared(n) && t.url != "" {
      CrowdIn(n, t);
    }
    SubsetSize(UrlsOf(Crowd(n), a, c), UrlsOf(Shared(n), a, c) - {""});
  }

  lemma CrowdIn(n: nat, t: Track)
    requires t in Crowd(n)
    ensures t in Shared(n) && t.url != ""
  {
    CrowdIs(n);
  }

  lemma SharedContested(n: nat, f: Filter, c: Caps)
    requires Idle(f) && c.perArtist == n && c.norm("A") != c.norm("B")
    ensures Contested(Kept(Shared(n), f), c, First(), Last())
  {
    SharedKept(n, f);
    CrowdUrls(n, c);
    assert First() in Shared(n) && Last() in Shared(n);
  }

  lemma CrowdDistinct(n: nat)
    ensures DistinctUrls(Crowd(n))
  {
    CrowdIs(n);
    forall i, j | 0 <= i < j < n ensures UrlOf(Crowd(n)[i]) != UrlOf(Crowd(n)[j]) {
      assert |UrlOf(Crowd(n)[i])| == i + 1;
    }
  }

  // ----- Being shown can cost a result

  /** The crowd first, then the artist's copy of the shared URL, then the other artist's. */
  function Late(n: nat): seq<Track> { Crowd(n) + [Half()] + [Last()] }

  function Half(): Track { Track("", "A", "", Some(0.5)) }

  lemma NewName(n: nat)
    ensures Name(n + 1) !in Urls(Crowd(n))
  {
    CrowdIs(n);
    forall t | t in Crowd(n) ensures t.url != Name(n + 1) {
      var i :| 0 <= i < n && Crowd(n)[i] == t;
      assert |t.url| == i + 1;
    }
  }

  lemma CrowdAdmits(n: nat, c: Caps)
    requires n < c.perArtist < c.Size()
    ensures Admits(Crowd(n), Track("", "A", Name(n + 1), Some(1.0)), c)
  {
    CrowdIs(n);
    CrowdCounts(n, c);
    NewName(n);
  }

  lemma {:induction false} CrowdIsPicked(n: nat, c: Caps)
    requires n <= c.perArtist < c.Size()
    ensures Pick(Crowd(n), c) == Crowd(n)
  {
    if n > 0 {
      CrowdIsPicked(n - 1, c);
      CrowdAdmits(n - 1, c);
      PickSnoc(Crowd(n - 1), Track("", "A", Name(n), Some(1.0)), c);
    }
  }

  lemma PickSnoc(s: seq<Track>, t: Track, c: Caps)
    ensures Pick(s + [t], c) == Pick(s, c) + if Admits(Pick(s, c), t, c) then [t] else []
  {
    assert (s + [t])[..|s|] == s;
  }

  lemma LateIsPicked(c: Caps)
    requires c.Size() > c.perArtist >= 1 && c.norm("A") != c.norm("B")
    ensures |Pick(Late(c.perArtist), c)| == c.perArtist + 1
  {
    var n := c.perArtist;
    var crowd, two := Crowd(n), Crowd(n) + [Half()];
    CrowdIs(n);
    CrowdIsPicked(n, c);
    CrowdCounts(n, c);
    PickSnoc(crowd, Half(), c);
    PickSnoc(two, Last(), c);
    TwoKeysFit(crowd, c.norm("A"), c.norm("B"), c);
    forall t | t in crowd ensures t.url != "" {
      CrowdIn(n, t);
    }
    assert Admits(crowd, Last(), c);
  }

  lemma LateSurvives(n: nat, f: Filter, t: Track)
    requires Idle(f) && t in Late(n)
    ensures t.score.Some? && !Dropped(t, f) && t.url !in f.shown
  {
    LateIs(n, t);
  }

  lemma LateDescends(n: nat)
    ensures Descending(Late(n), ScoreOf)
  {
    CrowdIs(n);
  }

  lemma LateRanked(n: nat, f: Filter)
    requires Idle(f)
    ensures Ranked(Late(n), f) == Late(n)
  {
    forall t | t in Late(n) ensures t.score.Some? && !Dropped(t, f) && t.url !in f.shown {
      LateSurvives(n, f, t);
    }
    KeptAll(Late(n), f);
    LateDescends(n);
    SortedIsFixed(Late(n), ScoreOf);
  }

  lemma LateIs(n: nat, t: Track)
    requires t in Late(n)
    ensures t == Half() || t == Last()
            || (t.artist == "A" && t.title == "" && t.url != "" && t.url in Urls(Crowd(n)) && t.score == Some(1.0))
  {
    CrowdIs(n);
  }

  lemma {:induction false} KeptOrigin(cands: seq<Track>, f: Filter, t: Track) returns (i: nat)
    requires t in Kept(cands, f)
    ensures i < |cands| && t == Rescored(cands[i], i, f)
  {
    var n := |cands| - 1;
    if t in Kept(cands[..n], f) {
      i := KeptOrigin(cands[..n], f, t);
    } else {
      i := n;
    }
  }

  lemma {:induction false} KeptHas(cands: seq<Track>, f: Filter, i: nat)
    requires i < |cands| && !Dropped(cands[i], f)
    ensures Rescored(cands[i], i, f) in Kept(cands, f)
  {
    var n := |cands| - 1;
    if i < n {
      KeptHas(cands[..n], f, i);
    }
  }

  /** The crowd was shown. */
  function Demoted(n: nat, f: Filter): Filter { f.(shown := Urls(Crowd(n))) }

  lemma DemotedIs(n: nat, f: Filter, t: Track)
    requires Idle(f) && t in Kept(Late(n), Demoted(n, f))
    ensures t == Half() || t == Last() || (t.artist == "A" && ScoreOf(t) == SHOWN_PENALTY)
  {
    var i := KeptOrigin(Late(n), Demoted(n, f), t);
    LateIs(n, Late(n)[i]);
    NoneUnnamed(n);
  }

  lemma NoneUnnamed(n: nat)
    ensures "" !in Urls(Crowd(n))
  {
    CrowdIs(n);
  }

  lemma HalfIsHead(n: nat, f: Filter)
    requires Idle(f)
    ensures var s := Ranked(Late(n), Demoted(n, f)); s != [] && s[0] == Half()
  {
    var g := Demoted(n, f);
    var s := Ranked(Late(n), g);
    CrowdIs(n);
    NoneUnnamed(n);
    assert Late(n)[n] == Half();
    KeptHas(Late(n), g, n);
    RankedIsKept(Late(n), g);
    var j :| 0 <= j < |s| && s[j] == Half();
    DemotedIs(n, f, s[0]);
  }

  lemma OnlyTheArtist(n: nat, f: Filter, c: Caps, t: Track)
    requires Idle(f) && c.perArtist >= 1 && t in Reranked(Late(n), Demoted(n, f), c)
    ensures t.artist == "A"
  {
    var s := Ranked(Late(n), Demoted(n, f));
    HalfIsHead(n, f);
    HeadIsPicked(s, c);
    PickIsFeasible(s, c);
    RankedIsKept(Late(n), Demoted(n, f));
    DemotedIs(n, f, t);
    if t.url == "" {
      OneCopy(Pick(s, c), s[0], t);
    }
  }

  /** "Demotes, never excludes" needs the room too: at every cap below the limit there is an input on which
      having been shown some tracks costs a result. */
  lemma ShownCanCostAResult(f: Filter, c: Caps) returns (cands: seq<Track>, shown: set<string>)
    requires Idle(f) && c.limit > c.perArtist >= 1 && c.norm("A") != c.norm("B")
    ensures |Reranked(cands, f.(shown := shown), c)| < |Reranked(cands, f, c)|
  {
    var n := c.perArtist;
    cands, shown := Late(n), Urls(Crowd(n));
    LateRanked(n, f);
    LateIsPicked(c);
    var out := Reranked(cands, Demoted(n, f), c);
    PickIsFeasible(Ranked(cands, Demoted(n, f)), c);
    forall t | t in out ensures c.Key(t) == c.norm("A") {
      OnlyTheArtist(n, f, c, t);
    }
    AllOneKey(out, c.norm("A"), c);
  }
}
