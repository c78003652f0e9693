/** Score dictionaries filled in a loop.

    Two recommenders accumulate `scores[vid] = scores.get(vid, 0.0) + points` and remember the first
    `meta` seen for each `vid`. A Python dictionary iterates in insertion order, so it is modelled by
    a map together with the sequence of its entries.
 */
module Tally {
  import opened StableSort
  import opened Sums

  /** One pass through the loop body: `points` for `vid`, described by `meta`. */
  datatype Ballot<M> = Ballot(vid: string, meta: M, points: real)

  datatype Entry<M> = Entry(vid: string, meta: M)

  function PointsFor<M>(vid: string): Ballot<M> -> real {
    (b: Ballot<M>) => if b.vid == vid then b.points else 0.0
  }

  /** All the points `vid` was given. */
  function Points<M>(bs: seq<Ballot<M>>, vid: string): real { Sum(bs, PointsFor(vid)) }

  ghost function Vids<M>(bs: seq<Ballot<M>>): set<string> { set b | b in bs :: b.vid }

  ghost function Listed<M>(es: seq<Entry<M>>): set<string> { set e | e in es :: e.vid }

  function VidOf<M>(e: Entry<M>): string { e.vid }

  ghost predicate Distinct<M>(es: seq<Entry<M>>) { DistinctBy(es, VidOf) }

  /** The entries in insertion order, each with the `meta` it was first seen with. */
  ghost function FirstSeen<M>(bs: seq<Ballot<M>>): seq<Entry<M>> {
    if bs == [] then [] else
      var b, es := bs[|bs| - 1], FirstSeen(bs[..|bs| - 1]);
      if exists e :: e in es && e.vid == b.vid then es else es + [Entry(b.vid, b.meta)]
  }

  /** The two dictionaries after the ballots `bs`. */
  ghost predicate Filled<M>(scores: map<string, real>, order: seq<Entry<M>>, bs: seq<Ballot<M>>) {
    && order == FirstSeen(bs)
    && scores.Keys == Vids(bs)
    && forall v | v in scores :: scores[v] == Points(bs, v)
  }

  lemma FirstSeenStep<M>(bs: seq<Ballot<M>>, b: Ballot<M>)
    ensures FirstSeen(bs + [b]) == FirstSeen(bs) + if b.vid in Vids(bs) then [] else [Entry(b.vid, b.meta)]
    ensures Vids(bs + [b]) == Vids(bs) + {b.vid}
  {
    assert (bs + [b])[..|bs|] == bs;
    FirstSeenListed(bs);
    assert b.vid in Listed(FirstSeen(bs)) <==> b.vid in Vids(bs);
  }

  lemma {:induction false} FirstSeenListed<M>(bs: seq<Ballot<M>>)
    ensures Listed(FirstSeen(bs)) == Vids(bs)
  {
    if bs != [] {
      var r, b := bs[..|bs| - 1], bs[|bs| - 1];
      FirstSeenListed(r);
      assert bs == r + [b];
      assert Vids(bs) == Vids(r) + {b.vid};
      var es := FirstSeen(r);
      if exists e :: e in es && e.vid == b.vid {
        assert b.vid in Listed(es);
      } else {
        assert Listed(es + [Entry(b.vid, b.meta)]) == Listed(es) + {b.vid};
      }
    }
  }

  lemma {:induction false} FirstSeenDistinct<M>(bs: seq<Ballot<M>>)
    ensures Distinct(FirstSeen(bs))
  {
    if bs != [] {
      FirstSeenDistinct(bs[..|bs| - 1]);
    }
  }

  /** Each entry carries the `meta` of the first ballot for its video. */
  lemma {:induction false} FirstSeenMeta<M>(bs: seq<Ballot<M>>, e: Entry<M>) returns (i: nat)
    requires e in FirstSeen(bs)
    ensures i < |bs| && bs[i].vid == e.vid && bs[i].meta == e.meta && e.vid !in Vids(bs[..i])
  {
    var n := |bs| - 1;
    if e in FirstSeen(bs[..n]) {
      i := FirstSeenMeta(bs[..n], e);
      assert bs[..n][..i] == bs[..i];
    } else {
      i := n;
      FirstSeenListed(bs[..n]);
      assert e.vid in Listed(FirstSeen(bs[..n])) <==> e.vid in Vids(bs[..n]);
    }
  }

  lemma {:induction false} NoPointsUnlisted<M>(bs: seq<Ballot<M>>, v: string)
    requires v !in Vids(bs)
    ensures Points(bs, v) == 0.0
  {
    if bs != [] {
      assert bs[|bs| - 1] in bs;
      NoPointsUnlisted(bs[..|bs| - 1], v);
    }
  }

  lemma {:induction false} PointsConcat<M>(a: seq<Ballot<M>>, b: seq<Ballot<M>>, v: string)
    ensures Points(a + b, v) == Points(a, v) + Points(b, v)
  {
    if b == [] {
      assert a + b == a;
    } else {
      PointsConcat(a, b[..|b| - 1], v);
      assert a + b == (a + b[..|b| - 1]) + [b[|b| - 1]];
      SumSnoc(a + b[..|b| - 1], b[|b| - 1], PointsFor(v));
    }
  }

  function Get(scores: map<string, real>, v: string): real { if v in scores then scores[v] else 0.0 }

  /** What the loop body does, and that it is right. */
  lemma FilledStep<M>(scores: map<string, real>, order: seq<Entry<M>>, bs: seq<Ballot<M>>, b: Ballot<M>)
    requires Filled(scores, order, bs)
    ensures Filled(scores[b.vid := Get(scores, b.vid) + b.points],
                   if b.vid in scores then order else order + [Entry(b.vid, b.meta)], bs + [b])
  {
    FirstSeenStep(bs, b);
    forall v ensures Points(bs + [b], v) == Points(bs, v) + if b.vid == v then b.points else 0.0 {
      SumSnoc(bs, b, PointsFor(v));
    }
    if b.vid !in scores {
      NoPointsUnlisted(bs, b.vid);
    }
  }

  /** One pass through the loop body. */
  method Cast<M>(scores: map<string, real>, order: seq<Entry<M>>, vid: string, meta: M, points: real,
                 ghost bs: seq<Ballot<M>>)
    returns (scores': map<string, real>, order': seq<Entry<M>>)
    requires Filled(scores, order, bs)
    ensures Filled(scores', order', bs + [Ballot(vid, meta, points)])
  {
    FilledStep(scores, order, bs, Ballot(vid, meta, points));
    order' := if vid in scores then order else order + [Entry(vid, meta)];
    scores' := scores[vid := Get(scores, vid) + points];
  }

  /** Python's `s[:n]`. */
  function Head<T>(s: seq<T>, n: int): seq<T> {
    if n >= |s| then s else if n >= 0 then s[..n] else if |s| + n >= 0 then s[..|s| + n] else []
  }

  /** The head of a descending list is a best choice of its size. */
  lemma HeadIsBest<T>(s: seq<T>, n: int, key: T -> real, x: T, y: T)
    requires Descending(s, key) && x in Head(s, n) && y in s && y !in Head(s, n)
    ensures key(x) >= key(y)
  {
    var h := Head(s, n);
    var i :| 0 <= i < |h| && h[i] == x;
    var j :| 0 <= j < |s| && s[j] == y;
    assert h == s[..|h|];
    assert forall k | 0 <= k < |h| :: s[k] in h;
    assert j >= |h|;
  }

  /** Dictionary entries sorted by score, best first, ties in insertion order. */
  function Ranking<M>(es: seq<Entry<M>>, score: string -> real): seq<Entry<M>> {
    SortDesc(es, (e: Entry<M>) => score(e.vid))
  }

  lemma RankingAgrees<M>(es: seq<Entry<M>>, f: string -> real, g: string -> real)
    requires forall e: Entry<M> | e in es :: f(e.vid) == g(e.vid)
    ensures Ranking(es, f) == Ranking(es, g)
  {
    SortDescAgrees(es, (e: Entry<M>) => f(e.vid), (e: Entry<M>) => g(e.vid));
  }

  lemma RankingRearranges<M>(es: seq<Entry<M>>, score: string -> real)
    requires Distinct(es)
    ensures var r := Ranking(es, score);
            && Distinct(r) && |r| == |es|
            && (forall e: Entry<M> :: e in r <==> e in es)
            && (forall i, j | 0 <= i < j < |r| :: score(r[i].vid) >= score(r[j].vid))
  {
    var key := (e: Entry<M>) => score(e.vid);
    var r := SortDesc(es, key);
    SortDescIsStableSort(es, key);
    assert |multiset(r)| == |multiset(es)|;
    forall e: Entry<M> ensures e in r <==> e in es {
      assert e in multiset(r) <==> e in multiset(es);
    }
    DistinctByIgnoresOrder(es, r, VidOf);
    forall i, j | 0 <= i < j < |r| ensures score(r[i].vid) >= score(r[j].vid) {
      assert key(r[i]) >= key(r[j]);
    }
  }

  /** The first `limit` of a ranking: each from the dictionary, none twice, best first. */
  lemma TopMembers<M>(order: seq<Entry<M>>, score: string -> real, limit: int)
    requires Distinct(order)
    ensures var out := Head(Ranking(order, score), limit);
            && Distinct(out)
            && (forall e: Entry<M> | e in out :: e in order)
            && (forall i, j | 0 <= i < j < |out| :: score(out[i].vid) >= score(out[j].vid))
            && (0 <= limit <= |order| ==> |out| == limit)
  {
    RankingRearranges(order, score);
    var r, out := Ranking(order, score), Head(Ranking(order, score), limit);
    assert out == r[..|out|];
    forall e: Entry<M> | e in out ensures e in order {
      assert e in r;
    }
  }

  /** ... and none left out scores more than one taken. */
  lemma TopIsBest<M>(order: seq<Entry<M>>, score: string -> real, limit: int, left: Entry<M>, taken: Entry<M>)
    requires Distinct(order) && left in order
    requires var out := Head(Ranking(order, score), limit); left !in out && taken in out
    ensures score(left.vid) <= score(taken.vid)
  {
    var key := (e: Entry<M>) => score(e.vid);
    RankingRearranges(order, score);
    SortDescIsStableSort(order, key);
    HeadIsBest(Ranking(order, score), limit, key, taken, left);
  }

  /** A non-negative limit cuts only when there is more than it allows. */
  lemma TopIsAll<M>(order: seq<Entry<M>>, score: string -> real, limit: int, e: Entry<M>)
    requires Distinct(order) && e in order && |order| <= limit
    ensures e in Head(Ranking(order, score), limit)
  {
    RankingRearranges(order, score);
  }
}
