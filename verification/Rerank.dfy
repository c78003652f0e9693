/** The shared per-user re-rank: filter, demote, stable sort, greedy pick under caps.

    `strip().lower()` and the alternate-version title test are parameters (`norm`, `isAlt`), so
    every result holds whatever they compute. Scores are exact reals.
 */
module Rerank {
  import opened Wrappers
  import opened StableSort
  import opened Sums
  import opened SetSums

  datatype Track = Track(title: string, artist: string, url: string, score: Option<real>)

  const SHOWN_PENALTY := 0.3
  const PER_ARTIST := 2
  /** Both engines that resolve video ids present a track under this address. */
  const WATCH_URL := "https://music.youtube.com/watch?v="

  /** The arguments of `rerank` that decide which rows survive and with what score. */
  datatype Filter = Filter(excluded: set<string>, shown: set<string>, isAlt: string -> bool)

  /** The arguments of `rerank` that bound the greedy pick. */
  datatype Caps = Caps(limit: int, perArtist: int, norm: string -> string) {
    /** The length test runs after an append, so one track gets through even when `limit` is not positive. */
    function Size(): nat { if limit < 1 then 1 else limit }

    function PerArtist(): nat { if perArtist < 0 then 0 else perArtist }

    function Key(t: Track): string { norm(t.artist) }
  }

  /** `t.score or 0.0`. */
  function ScoreOf(t: Track): real { if t.score.Some? then t.score.value else 0.0 }

  predicate Dropped(t: Track, f: Filter) { t.url in f.excluded || f.isAlt(t.title) }

  /** The score row `t` gets at input position `i`. */
  function Rescored(t: Track, i: nat, f: Filter): Track {
    var base := if t.score.Some? then t.score.value else 1.0 / (1.0 + 0.1 * i as real);
    t.(score := Some(if t.url in f.shown then base * SHOWN_PENALTY else base))
  }

  /** The candidates that survive the filter, rescored, in input order. */
  function Kept(cands: seq<Track>, f: Filter): seq<Track> {
    if cands == [] then [] else
      var n := |cands| - 1;
      Kept(cands[..n], f) + if Dropped(cands[n], f) then [] else [Rescored(cands[n], n, f)]
  }

  function Ranked(cands: seq<Track>, f: Filter): seq<Track> {
    SortDesc(Kept(cands, f), ScoreOf)
  }

  function Urls(s: seq<Track>): set<string> { set t | t in s :: t.url }

  function CountKey(s: seq<Track>, k: string, c: Caps): nat {
    if s == [] then 0 else
      CountKey(s[..|s| - 1], k, c) + if c.Key(s[|s| - 1]) == k then 1 else 0
  }

  predicate Admits(out: seq<Track>, t: Track, c: Caps) {
    |out| < c.Size() && t.url !in Urls(out) && CountKey(out, c.Key(t), c) < c.perArtist
  }

  /** Greedy pick: walk the list, taking each track the tracks taken so far still admit. */
  function Pick(s: seq<Track>, c: Caps): seq<Track> {
    if s == [] then [] else
      var out := Pick(s[..|s| - 1], c);
      if Admits(out, s[|s| - 1], c) then out + [s[|s| - 1]] else out
  }

  function Reranked(cands: seq<Track>, f: Filter, c: Caps): seq<Track> {
    Pick(Ranked(cands, f), c)
  }

  // ----- The code, with its dictionaries, its set and its early exit

  lemma TakeSnoc<T>(s: seq<T>, i: nat)
    requires i < |s|
    ensures s[..i + 1] == s[..i] + [s[i]]
    ensures s[..i + 1][..i] == s[..i]
  {
  }

  lemma KeptStep(cands: seq<Track>, i: nat, f: Filter)
    requires i < |cands|
    ensures Kept(cands[..i + 1], f) ==
            Kept(cands[..i], f) + if Dropped(cands[i], f) then [] else [Rescored(cands[i], i, f)]
  {
    TakeSnoc(cands, i);
  }

  lemma PickStep(s: seq<Track>, i: nat, c: Caps)
    requires i < |s|
    ensures Pick(s[..i + 1], c) ==
            Pick(s[..i], c) + if Admits(Pick(s[..i], c), s[i], c) then [s[i]] else []
  {
    TakeSnoc(s, i);
  }

  lemma CountKeySnoc(s: seq<Track>, t: Track, k: string, c: Caps)
    ensures CountKey(s + [t], k, c) == CountKey(s, k, c) + if c.Key(t) == k then 1 else 0
  {
    assert (s + [t])[..|s|] == s;
  }

  lemma {:induction false} PickGrows(s: seq<Track>, n: nat, c: Caps)
    requires n <= |s|
    ensures Pick(s[..n], c) <= Pick(s, c)
    ensures |Pick(s, c)| <= c.Size()
  {
    if s != [] {
      if n < |s| {
        PickGrows(s[..|s| - 1], n, c);
        assert s[..|s| - 1][..n] == s[..n];
      } else {
        PickGrows(s[..|s| - 1], 0, c);
        assert s[..n] == s;
      }
    }
  }

  /** The per-artist dictionary counts what has been taken. */
  ghost predicate Counted(per: map<string, int>, out: seq<Track>, c: Caps) {
    forall k :: (if k in per then per[k] else 0) == CountKey(out, k, c)
  }

  lemma CountedAt(per: map<string, int>, out: seq<Track>, k: string, c: Caps)
    requires Counted(per, out, c)
    ensures (if k in per then per[k] else 0) == CountKey(out, k, c)
  {
  }

  lemma CountedExtends(per: map<string, int>, out: seq<Track>, t: Track, c: Caps)
    requires Counted(per, out, c)
    ensures Counted(per[c.Key(t) := CountKey(out, c.Key(t), c) + 1], out + [t], c)
  {
    forall k ensures CountKey(out + [t], k, c) == CountKey(out, k, c) + if c.Key(t) == k then 1 else 0 {
      CountKeySnoc(out, t, k, c);
    }
  }

  /** Once the limit is reached the rest of the list changes nothing. */
  lemma StopsAtLimit(s: seq<Track>, n: nat, c: Caps)
    requires n <= |s| && |Pick(s[..n], c)| >= c.Size()
    ensures Pick(s[..n], c) == Pick(s, c)
  {
    PickGrows(s, n, c);
    assert s[..n][..0] == [];
    PickGrows(s[..n], 0, c);
  }

  method ScoreCandidates(cands: seq<Track>, f: Filter) returns (scored: seq<Track>)
    ensures scored == Kept(cands, f)
  {
    scored := [];
    for i := 0 to |cands|
      invariant scored == Kept(cands[..i], f)
    {
      KeptStep(cands, i, f);
      var t := cands[i];
      if t.url in f.excluded || f.isAlt(t.title) {
        continue;
      }
      var score := if t.score.Some? then t.score.value else 1.0 / (1.0 + 0.1 * i as real);
      if t.url in f.shown {
        score := score * SHOWN_PENALTY;
      }
      scored := scored + [t.(score := Some(score))];
    }
    assert cands[..|cands|] == cands;
  }

  method PickGreedily(scored: seq<Track>, c: Caps) returns (out: seq<Track>)
    ensures out == Pick(scored, c)
  {
    out := [];
    var per: map<string, int> := map[];
    var seen: set<string> := {};
    for i := 0 to |scored|
      invariant out == Pick(scored[..i], c)
      invariant |out| < c.Size()
      invariant seen == Urls(out)
      invariant Counted(per, out, c)
    {
      PickStep(scored, i, c);
      var t := scored[i];
      if t.url in seen {
        continue;
      }
      var key := c.norm(t.artist);
      var had := if key in per then per[key] else 0;
      CountedAt(per, out, key, c);
      if had >= c.perArtist {
        continue;
      }
      CountedExtends(per, out, t, c);
      per := per[key := had + 1];
      seen := seen + {t.url};
      out := out + [t];
      if |out| >= c.limit {
        StopsAtLimit(scored, i + 1, c);
        return;
      }
    }
    assert scored[..|scored|] == scored;
  }

  method Rerank(cands: seq<Track>, f: Filter, c: Caps) returns (out: seq<Track>)
    ensures out == Reranked(cands, f, c)
  {
    var scored := ScoreCandidates(cands, f);
    scored := SortDesc(scored, ScoreOf);
    out := PickGreedily(scored, c);
  }

  // ----- Feasible choices

  function UrlOf(t: Track): string { t.url }

  ghost predicate DistinctUrls(s: seq<Track>) { DistinctBy(s, UrlOf) }

  /** A choice the caps allow: no URL twice, at most `perArtist` per artist, at most `limit` in all. */
  ghost predicate Feasible(s: seq<Track>, c: Caps) {
    && |s| <= c.Size()
    && DistinctUrls(s)
    && forall k :: CountKey(s, k, c) <= c.PerArtist()
  }

  ghost predicate DrawnFrom(s: seq<Track>, pool: seq<Track>) {
    forall t | t in s :: t in pool
  }

  /** Equal URLs mean equal artist keys. */
  ghost predicate UrlDeterminesArtist(s: seq<Track>, c: Caps) {
    forall t, u | t in s && u in s && t.url == u.url :: c.Key(t) == c.Key(u)
  }

  lemma {:induction false} PickIsFeasible(s: seq<Track>, c: Caps)
    ensures Feasible(Pick(s, c), c)
    ensures DrawnFrom(Pick(s, c), s)
  {
    if s != [] {
      var t := s[|s| - 1];
      var out := Pick(s[..|s| - 1], c);
      PickIsFeasible(s[..|s| - 1], c);
      if Admits(out, t, c) {
        forall k ensures CountKey(out + [t], k, c) <= c.PerArtist() {
          CountKeySnoc(out, t, k, c);
        }
        forall i, j | 0 <= i < j < |out + [t]| ensures (out + [t])[i].url != (out + [t])[j].url {
          assert out != [] ==> out[if i < |out| then i else 0].url in Urls(out);
        }
      }
    }
  }

  lemma {:induction false} CountKeyMonotone(s: seq<Track>, n: nat, k: string, c: Caps)
    requires n <= |s|
    ensures CountKey(s[..n], k, c) <= CountKey(s, k, c)
  {
    if n < |s| {
      CountKeyMonotone(s[..|s| - 1], n, k, c);
      assert s[..|s| - 1][..n] == s[..n];
    } else {
      assert s[..n] == s;
    }
  }

  /** Whatever the pick left out was barred by its own URL, by its artist's cap or by the limit. */
  lemma {:induction false} PickIsMaximal(s: seq<Track>, t: Track, c: Caps)
    requires t in s
    ensures var out := Pick(s, c);
            t.url in Urls(out) || CountKey(out, c.Key(t), c) >= c.perArtist || |out| == c.Size()
  {
    var n := |s| - 1;
    PickGrows(s, n, c);
    var old_, out := Pick(s[..n], c), Pick(s, c);
    assert old_ == out[..|old_|];
    CountKeyMonotone(out, |old_|, c.Key(t), c);
    if t in s[..n] {
      PickIsMaximal(s[..n], t, c);
    } else {
      assert t == s[n];
      if Admits(old_, t, c) {
        assert out[|old_|] == t;
      }
    }
  }

  // ----- Counting: the size of a pick is a sum of per-artist quotas

  ghost function Keys(s: seq<Track>, c: Caps): set<string> { set t | t in s :: c.Key(t) }

  ghost function UrlsOf(s: seq<Track>, k: string, c: Caps): set<string> {
    set t | t in s && c.Key(t) == k :: t.url
  }

  /** What artist `k` can contribute: its distinct URLs, cut to the cap. */
  ghost function Quota(s: seq<Track>, c: Caps): string -> nat {
    k => Min(c.PerArtist(), |UrlsOf(s, k, c)|)
  }

  ghost function CountFn(s: seq<Track>, c: Caps): string -> nat { k => CountKey(s, k, c) }

  ghost function TotalQuota(s: seq<Track>, c: Caps): nat { SumOver(Keys(s, c), Quota(s, c)) }

  /** Splitting a list by artist accounts for each of its tracks. */
  lemma {:induction false} CountsAddUp(s: seq<Track>, keys: set<string>, c: Caps)
    requires Keys(s, c) <= keys
    ensures SumOver(keys, CountFn(s, c)) == |s|
  {
    if s == [] {
      SumOverZero(keys, c);
    } else {
      var r, k := s[..|s| - 1], c.Key(s[|s| - 1]);
      assert s == r + [s[|s| - 1]];
      CountsAddUp(r, keys, c);
      assert k in Keys(s, c);
      SumOverRemove(keys, CountFn(s, c), k);
      SumOverRemove(keys, CountFn(r, c), k);
      SumOverAtMost(keys - {k}, CountFn(s, c), CountFn(r, c));
      SumOverAtMost(keys - {k}, CountFn(r, c), CountFn(s, c));
    }
  }

  lemma {:induction false} SumOverZero(keys: set<string>, c: Caps)
    ensures SumOver(keys, CountFn([], c)) == 0
  {
    if keys != {} {
      var k :| k in keys;
      SumOverRemove(keys, CountFn([], c), k);
      SumOverZero(keys - {k}, c);
    }
  }

  lemma UrlsOfSnoc(r: seq<Track>, t: Track, k: string, c: Caps)
    requires DistinctUrls(r + [t])
    ensures DistinctUrls(r) && t.url !in UrlsOf(r, k, c)
    ensures UrlsOf(r + [t], k, c) == UrlsOf(r, k, c) + if c.Key(t) == k then {t.url} else {}
  {
    var s := r + [t];
    forall i, j | 0 <= i < j < |r| ensures UrlOf(r[i]) != UrlOf(r[j]) {
      assert UrlOf(s[i]) != UrlOf(s[j]);
    }
    forall i | 0 <= i < |r| ensures r[i].url != t.url {
      assert UrlOf(s[i]) != UrlOf(s[|r|]);
    }
  }

  lemma {:induction false} DistinctUrlsCount(s: seq<Track>, k: string, c: Caps)
    requires DistinctUrls(s)
    ensures |UrlsOf(s, k, c)| == CountKey(s, k, c)
  {
    if s == [] {
      assert UrlsOf(s, k, c) == {};
    } else {
      var r, t := s[..|s| - 1], s[|s| - 1];
      assert s == r + [t];
      UrlsOfSnoc(r, t, k, c);
      DistinctUrlsCount(r, k, c);
    }
  }

  lemma SubsetSize(a: set<string>, b: set<string>)
    requires a <= b
    ensures |a| <= |b|
  {
    assert b == a + (b - a);
  }

  /** No feasible choice from `s` beats the quotas. */
  lemma FeasibleWithinQuota(choice: seq<Track>, s: seq<Track>, c: Caps)
    requires Feasible(choice, c) && DrawnFrom(choice, s)
    ensures |choice| <= Min(c.Size(), TotalQuota(s, c))
  {
    var keys := Keys(s, c);
    CountsAddUp(choice, keys, c);
    forall k | k in keys ensures CountFn(choice, c)(k) <= Quota(s, c)(k) {
      DistinctUrlsCount(choice, k, c);
      SubsetSize(UrlsOf(choice, k, c), UrlsOf(s, k, c));
    }
    SumOverAtMost(keys, CountFn(choice, c), Quota(s, c));
  }

  /** The greedy pick fills every quota it has room for. */
  lemma PickFillsQuota(s: seq<Track>, c: Caps)
    requires UrlDeterminesArtist(s, c)
    ensures |Pick(s, c)| == Min(c.Size(), TotalQuota(s, c))
  {
    var out, keys := Pick(s, c), Keys(s, c);
    PickIsFeasible(s, c);
    FeasibleWithinQuota(out, s, c);
    if |out| < c.Size() {
      forall k | k in keys ensures Quota(s, c)(k) <= CountFn(out, c)(k) {
        if CountKey(out, k, c) < c.perArtist {
          forall u | u in UrlsOf(s, k, c) ensures u in UrlsOf(out, k, c) {
            var t :| t in s && c.Key(t) == k && t.url == u;
            PickIsMaximal(s, t, c);
          }
          SubsetSize(UrlsOf(s, k, c), UrlsOf(out, k, c));
          DistinctUrlsCount(out, k, c);
        }
      }
      SumOverAtMost(keys, Quota(s, c), CountFn(out, c));
      CountsAddUp(out, keys, c);
    }
  }

  // ----- How long a pick is

  /** Two copies of one URL under different artists, the first of whom has other tracks enough to fill its
      cap. */
  ghost predicate Contested(s: seq<Track>, c: Caps, u: Track, t: Track) {
    && u in s && t in s && u.url == t.url && c.Key(u) != c.Key(t)
    && |UrlsOf(s, c.Key(u), c) - {u.url}| >= c.perArtist
  }

  /** What can be seen without the scores: nothing fits, the limit comes before every cap, or no artist of a
      shared URL can be filled without it. */
  ghost predicate Room(s: seq<Track>, c: Caps) {
    || c.perArtist < 1
    || c.Size() <= c.perArtist
    || forall t, u :: !Contested(s, c, u, t)
  }

  lemma OneArtistPerUrlIsRoom(s: seq<Track>, c: Caps)
    requires UrlDeterminesArtist(s, c)
    ensures Room(s, c)
  {
  }

  lemma RoomSubset(s: seq<Track>, pool: seq<Track>, c: Caps)
    requires Room(pool, c) && DrawnFrom(s, pool)
    ensures Room(s, c)
  {
    forall t, u | Contested(s, c, u, t) ensures Contested(pool, c, u, t) {
      SubsetSize(UrlsOf(s, c.Key(u), c) - {u.url}, UrlsOf(pool, c.Key(u), c) - {u.url});
    }
  }

  lemma {:induction false} CountKeyOf(s: seq<Track>, t: Track, c: Caps)
    requires t in s
    ensures CountKey(s, c.Key(t), c) >= 1
  {
    if t in s[..|s| - 1] {
      CountKeyOf(s[..|s| - 1], t, c);
    }
  }

  lemma {:induction false} TwoKeysFit(s: seq<Track>, k: string, l: string, c: Caps)
    requires k != l
    ensures CountKey(s, k, c) + CountKey(s, l, c) <= |s|
  {
    if s != [] {
      TwoKeysFit(s[..|s| - 1], k, l, c);
    }
  }

  lemma {:induction false} AllOneKey(s: seq<Track>, k: string, c: Caps)
    requires forall t | t in s :: c.Key(t) == k
    ensures CountKey(s, k, c) == |s|
  {
    if s != [] {
      AllOneKey(s[..|s| - 1], k, c);
    }
  }

  lemma SubsetFills(a: set<string>, b: set<string>)
    requires a <= b && |b| <= |a|
    ensures a == b
  {
    assert b == a + (b - a);
  }

  lemma {:induction false} UrlsCount(s: seq<Track>)
    requires DistinctUrls(s)
    ensures |Urls(s)| == |s|
  {
    if s != [] {
      var r, t := s[..|s| - 1], s[|s| - 1];
      assert s == r + [t];
      UrlsSnoc(r, t);
      UrlsCount(r);
    }
  }

  lemma UrlsSnoc(r: seq<Track>, t: Track)
    requires DistinctUrls(r + [t])
    ensures DistinctUrls(r) && t.url !in Urls(r) && Urls(r + [t]) == Urls(r) + {t.url}
  {
    var s := r + [t];
    forall i, j | 0 <= i < j < |r| ensures UrlOf(r[i]) != UrlOf(r[j]) {
      assert UrlOf(s[i]) != UrlOf(s[j]);
    }
    forall i | 0 <= i < |r| ensures r[i].url != t.url {
      assert UrlOf(s[i]) != UrlOf(s[|r|]);
    }
  }

  /** The tracks of artists outside `keys`. */
  ghost function Rest(s: seq<Track>, keys: set<string>, c: Caps): seq<Track> {
    if s == [] then [] else
      Rest(s[..|s| - 1], keys, c) + if c.Key(s[|s| - 1]) in keys then [] else [s[|s| - 1]]
  }

  lemma {:induction false} RestHas(s: seq<Track>, keys: set<string>, c: Caps)
    ensures forall t :: t in Rest(s, keys, c) <==> t in s && c.Key(t) !in keys
  {
    if s != [] {
      RestHas(s[..|s| - 1], keys, c);
      assert s == s[..|s| - 1] + [s[|s| - 1]];
    }
  }

  lemma {:induction false} RestDistinct(s: seq<Track>, keys: set<string>, c: Caps)
    requires DistinctUrls(s)
    ensures DistinctUrls(Rest(s, keys, c))
  {
    if s != [] {
      var r, t := s[..|s| - 1], s[|s| - 1];
      assert s == r + [t];
      UrlsSnoc(r, t);
      RestDistinct(r, keys, c);
      RestHas(r, keys, c);
      forall x | x in Rest(r, keys, c) ensures UrlOf(x) != UrlOf(t) {
        assert x.url in Urls(r);
      }
    }
  }

  /** A list falls into the tracks of the given artists, counted artist by artist, and the rest. */
  lemma {:induction false} SplitCount(s: seq<Track>, keys: set<string>, c: Caps)
    ensures |s| == SumOver(keys, CountFn(s, c)) + |Rest(s, keys, c)|
  {
    if s == [] {
      SumOverZero(keys, c);
    } else {
      var r, k := s[..|s| - 1], c.Key(s[|s| - 1]);
      SplitCount(r, keys, c);
      if k in keys {
        SumOverRemove(keys, CountFn(s, c), k);
        SumOverRemove(keys, CountFn(r, c), k);
      }
      SumOverAtMost(keys - {k}, CountFn(s, c), CountFn(r, c));
      SumOverAtMost(keys - {k}, CountFn(r, c), CountFn(s, c));
      if k !in keys {
        assert keys - {k} == keys;
      }
    }
  }

  /** The pick stopped short of the limit, and no URL of `s` is contested. */
  ghost predicate Short(s: seq<Track>, c: Caps) {
    |Pick(s, c)| < c.Size() && c.perArtist >= 1 && forall t, u :: !Contested(s, c, u, t)
  }

  lemma TakenUnless(s: seq<Track>, c: Caps, t: Track) returns (x: Track)
    requires |Pick(s, c)| < c.Size() && t in s && CountKey(Pick(s, c), c.Key(t), c) < c.perArtist
    ensures x in Pick(s, c) && x.url == t.url
  {
    PickIsMaximal(s, t, c);
    x :| x in Pick(s, c) && x.url == t.url;
  }

  /** An artist with more URLs than its cap is filled. */
  lemma CrowdedIsFull(s: seq<Track>, c: Caps, k: string)
    requires Short(s, c) && |UrlsOf(s, k, c)| > c.perArtist
    ensures CountKey(Pick(s, c), k, c) >= c.perArtist
  {
    var out := Pick(s, c);
    PickIsFeasible(s, c);
    if CountKey(out, k, c) < c.perArtist {
      forall w | w in UrlsOf(s, k, c) ensures w in UrlsOf(out, k, c) {
        var t :| t in s && c.Key(t) == k && t.url == w;
        var x := TakenUnless(s, c, t);
        assert !Contested(s, c, t, x);
      }
      SubsetSize(UrlsOf(s, k, c), UrlsOf(out, k, c));
      DistinctUrlsCount(out, k, c);
    }
  }

  /** A URL of an artist within its cap is taken, under an artist within its cap. */
  lemma RestIsTaken(s: seq<Track>, c: Caps, t: Track) returns (x: Track)
    requires Short(s, c) && t in s && |UrlsOf(s, c.Key(t), c)| <= c.perArtist
    ensures x in Pick(s, c) && x.url == t.url && |UrlsOf(s, c.Key(x), c)| <= c.perArtist
  {
    var out, k := Pick(s, c), c.Key(t);
    PickIsFeasible(s, c);
    if CountKey(out, k, c) < c.perArtist {
      x := TakenUnless(s, c, t);
    } else {
      DistinctUrlsCount(out, k, c);
      SubsetFills(UrlsOf(out, k, c), UrlsOf(s, k, c));
      assert t.url in UrlsOf(out, k, c);
      x :| x in out && c.Key(x) == k && x.url == t.url;
    }
    assert !Contested(s, c, x, t);
  }

  /** The artists with more URLs than their cap. */
  ghost function Crowded(s: seq<Track>, c: Caps): set<string> {
    set k | k in Keys(s, c) && |UrlsOf(s, k, c)| > c.perArtist
  }

  lemma RestIsShorter(s: seq<Track>, c: Caps, choice: seq<Track>)
    requires Short(s, c) && Feasible(choice, c) && DrawnFrom(choice, s)
    ensures |Rest(choice, Crowded(s, c), c)| <= |Rest(Pick(s, c), Crowded(s, c), c)|
  {
    var out, keys := Pick(s, c), Crowded(s, c);
    PickIsFeasible(s, c);
    RestHas(choice, keys, c);
    RestHas(out, keys, c);
    forall t | t in Rest(choice, keys, c) ensures t.url in Urls(Rest(out, keys, c)) {
      assert c.Key(t) in Keys(s, c);
      var x := RestIsTaken(s, c, t);
      assert x in Rest(out, keys, c);
    }
    RestDistinct(choice, keys, c);
    RestDistinct(out, keys, c);
    UrlsCount(Rest(choice, keys, c));
    UrlsCount(Rest(out, keys, c));
    SubsetSize(Urls(Rest(choice, keys, c)), Urls(Rest(out, keys, c)));
  }

  lemma LongestWhenShort(s: seq<Track>, c: Caps, choice: seq<Track>)
    requires Short(s, c) && Feasible(choice, c) && DrawnFrom(choice, s)
    ensures |choice| <= |Pick(s, c)|
  {
    var out, keys := Pick(s, c), Crowded(s, c);
    forall k | k in keys ensures CountFn(choice, c)(k) <= CountFn(out, c)(k) {
      CrowdedIsFull(s, c, k);
    }
    SumOverAtMost(keys, CountFn(choice, c), CountFn(out, c));
    SplitCount(choice, keys, c);
    SplitCount(out, keys, c);
    RestIsShorter(s, c, choice);
  }

  lemma CapsComeLater(s: seq<Track>, c: Caps, choice: seq<Track>)
    requires |Pick(s, c)| < c.Size() <= c.perArtist && Feasible(choice, c) && DrawnFrom(choice, s)
    ensures |choice| <= |Pick(s, c)|
  {
    var out := Pick(s, c);
    PickIsFeasible(s, c);
    forall t | t in choice ensures t.url in Urls(out) {
      CountAtMost(out, c.Key(t), c);
      var x := TakenUnless(s, c, t);
    }
    UrlsCount(choice);
    UrlsCount(out);
    SubsetSize(Urls(choice), Urls(out));
  }

  lemma {:induction false} CountAtMost(s: seq<Track>, k: string, c: Caps)
    ensures CountKey(s, k, c) <= |s|
  {
    if s != [] {
      CountAtMost(s[..|s| - 1], k, c);
    }
  }

  /** With room for copies no feasible choice is longer than the pick. */
  lemma PickIsLongest(s: seq<Track>, c: Caps, choice: seq<Track>)
    requires Room(s, c) && Feasible(choice, c) && DrawnFrom(choice, s)
    ensures |choice| <= |Pick(s, c)|
  {
    PickGrows(s, 0, c);
    if |Pick(s, c)| < c.Size() {
      if c.perArtist < 1 {
        if choice != [] {
          CountKeyOf(choice, choice[0], c);
        }
      } else if c.Size() <= c.perArtist {
        CapsComeLater(s, c, choice);
      } else {
        LongestWhenShort(s, c, choice);
      }
    }
  }

  // ----- Main results

  lemma {:induction false} KeptScored(cands: seq<Track>, f: Filter)
    ensures forall t | t in Kept(cands, f) :: t.score.Some? && !Dropped(t, f)
  {
    if cands != [] {
      KeptScored(cands[..|cands| - 1], f);
    }
  }

  lemma RankedIsKept(cands: seq<Track>, f: Filter)
    ensures Descending(Ranked(cands, f), ScoreOf)
    ensures multiset(Ranked(cands, f)) == multiset(Kept(cands, f))
    ensures forall t :: t in Ranked(cands, f) <==> t in Kept(cands, f)
  {
    SortDescIsStableSort(Kept(cands, f), ScoreOf);
    forall t ensures t in Ranked(cands, f) <==> t in Kept(cands, f) {
      assert t in multiset(Ranked(cands, f)) <==> t in multiset(Kept(cands, f));
    }
  }

  /** The output is feasible, is drawn from the survivors and is sorted best first. */
  lemma OutputIsFeasible(cands: seq<Track>, f: Filter, c: Caps)
    ensures var out := Reranked(cands, f, c);
            && Feasible(out, c) && Descending(out, ScoreOf)
            && forall t | t in out :: t in Kept(cands, f) && t.url !in f.excluded && !f.isAlt(t.title)
  {
    RankedIsKept(cands, f);
    KeptScored(cands, f);
    PickIsFeasible(Ranked(cands, f), c);
    PickDescends(Ranked(cands, f), c);
  }

  lemma {:induction false} PickDescends(s: seq<Track>, c: Caps)
    requires Descending(s, ScoreOf)
    ensures Descending(Pick(s, c), ScoreOf)
  {
    if s != [] {
      var r := s[..|s| - 1];
      PickDescends(r, c);
      PickIsFeasible(r, c);
      forall t | t in Pick(r, c) ensures ScoreOf(t) >= ScoreOf(s[|s| - 1]) {
        assert t in r;
      }
    }
  }

  lemma UrlDeterminesArtistSubset(s: seq<Track>, pool: seq<Track>, c: Caps)
    requires UrlDeterminesArtist(pool, c) && DrawnFrom(s, pool)
    ensures UrlDeterminesArtist(s, c)
  {
  }

  /** The size formula, on every prefix of the ranked list and so on the whole of it. */
  lemma PrefixSize(cands: seq<Track>, f: Filter, c: Caps, n: nat)
    requires UrlDeterminesArtist(Kept(cands, f), c)
    requires n <= |Ranked(cands, f)|
    ensures var s := Ranked(cands, f)[..n];
            |Pick(s, c)| == Min(c.Size(), TotalQuota(s, c))
  {
    RankedIsKept(cands, f);
    UrlDeterminesArtistSubset(Ranked(cands, f)[..n], Kept(cands, f), c);
    PickFillsQuota(Ranked(cands, f)[..n], c);
  }

  /** The (URL, artist) pairs of a list: all that the quotas depend on. */
  ghost function Pairs(s: seq<Track>, c: Caps): set<(string, string)> {
    set t | t in s :: (t.url, c.Key(t))
  }

  lemma ReadOffPairs(s: seq<Track>, k: string, c: Caps)
    ensures Keys(s, c) == set p | p in Pairs(s, c) :: p.1
    ensures UrlsOf(s, k, c) == set p | p in Pairs(s, c) && p.1 == k :: p.0
  {
    forall t | t in s ensures (t.url, c.Key(t)) in Pairs(s, c) {}
    assert forall x | x in Keys(s, c) :: exists t :: t in s && c.Key(t) == x && (t.url, x) in Pairs(s, c);
  }

  lemma QuotaFromPairs(a: seq<Track>, b: seq<Track>, c: Caps)
    requires Pairs(a, c) == Pairs(b, c)
    ensures TotalQuota(a, c) == TotalQuota(b, c)
  {
    forall k ensures Keys(a, c) == Keys(b, c) && UrlsOf(a, k, c) == UrlsOf(b, k, c) {
      ReadOffPairs(a, k, c);
      ReadOffPairs(b, k, c);
    }
    assert Keys(a, c) == Keys(b, c) by { ReadOffPairs(a, "", c); ReadOffPairs(b, "", c); }
    SumOverAtMost(Keys(a, c), Quota(a, c), Quota(b, c));
    SumOverAtMost(Keys(a, c), Quota(b, c), Quota(a, c));
  }

  /** Demotes, never excludes: how many tracks come out is fixed by the survivors' URLs and artists. */
  lemma OutputSize(cands: seq<Track>, f: Filter, c: Caps)
    requires UrlDeterminesArtist(Kept(cands, f), c)
    ensures |Reranked(cands, f, c)| == Min(c.Size(), TotalQuota(Kept(cands, f), c))
  {
    var s := Ranked(cands, f);
    RankedIsKept(cands, f);
    PrefixSize(cands, f, c, |s|);
    assert s[..|s|] == s;
    assert Pairs(s, c) == Pairs(Kept(cands, f), c);
    QuotaFromPairs(s, Kept(cands, f), c);
  }

  /** The two lists differ at most in their scores. */
  ghost predicate SameButScores(a: seq<Track>, b: seq<Track>) {
    |a| == |b| && forall i | 0 <= i < |a| :: a[i].(score := None) == b[i].(score := None)
  }

  lemma {:induction false} KeptPairs(a: seq<Track>, f: Filter, b: seq<Track>, g: Filter, c: Caps)
    requires SameButScores(a, b) && f.excluded == g.excluded && f.isAlt == g.isAlt
    ensures Pairs(Kept(a, f), c) == Pairs(Kept(b, g), c)
  {
    if a != [] {
      var n := |a| - 1;
      KeptPairs(a[..n], f, b[..n], g, c);
      assert a[n].(score := None) == b[n].(score := None);
      KeptPairsSnoc(a, f, c);
      KeptPairsSnoc(b, g, c);
    }
  }

  lemma KeptPairsSnoc(a: seq<Track>, f: Filter, c: Caps)
    requires a != []
    ensures var n := |a| - 1;
            Pairs(Kept(a, f), c) == Pairs(Kept(a[..n], f), c) +
                                    if Dropped(a[n], f) then {} else {(a[n].url, c.Key(a[n]))}
  {
    var n := |a| - 1;
    var r := Kept(a[..n], f);
    if !Dropped(a[n], f) {
      assert Kept(a, f) == r + [Rescored(a[n], n, f)];
      assert Pairs(r + [Rescored(a[n], n, f)], c) == Pairs(r, c) + {(a[n].url, c.Key(a[n]))};
    } else {
      assert Kept(a, f) == r;
    }
  }

  lemma FindPair(s: seq<Track>, url: string, k: string, c: Caps, u: Track, kept: seq<Track>) returns (x: Track)
    requires Pairs(kept, c) <= Pairs(s, c) && u in kept && u.url == url && c.Key(u) == k
    ensures x in s && x.url == url && c.Key(x) == k
  {
    assert (url, k) in Pairs(kept, c);
    assert (url, k) in Pairs(s, c);
    x :| x in s && (x.url, c.Key(x)) == (url, k);
  }

  lemma RoomFromPairs(a: seq<Track>, b: seq<Track>, c: Caps)
    requires Pairs(a, c) == Pairs(b, c) && Room(a, c)
    ensures Room(b, c)
  {
    forall t, u | Contested(b, c, u, t) ensures exists t', u' :: Contested(a, c, u', t') {
      var u', t' := ContestTransfers(a, b, c, u, t);
    }
  }

  lemma ContestTransfers(a: seq<Track>, b: seq<Track>, c: Caps, u: Track, t: Track) returns (u': Track, t': Track)
    requires Pairs(a, c) == Pairs(b, c) && Contested(b, c, u, t)
    ensures Contested(a, c, u', t')
  {
    ReadOffPairs(a, c.Key(u), c);
    ReadOffPairs(b, c.Key(u), c);
    u' := FindPair(a, u.url, c.Key(u), c, u, b);
    t' := FindPair(a, t.url, c.Key(t), c, t, b);
  }

  /** Same URLs and artists, position by position. */
  ghost predicate Alike(a: seq<Track>, b: seq<Track>, c: Caps) {
    |a| == |b| && forall i | 0 <= i < |a| :: a[i].url == b[i].url && c.Key(a[i]) == c.Key(b[i])
  }

  lemma {:induction false} CountKeyAlike(a: seq<Track>, b: seq<Track>, k: string, c: Caps)
    requires Alike(a, b, c)
    ensures CountKey(a, k, c) == CountKey(b, k, c)
  {
    if a != [] {
      CountKeyAlike(a[..|a| - 1], b[..|b| - 1], k, c);
    }
  }

  lemma FeasibleAlike(a: seq<Track>, b: seq<Track>, c: Caps)
    requires Alike(a, b, c) && Feasible(a, c)
    ensures Feasible(b, c)
  {
    forall k ensures CountKey(b, k, c) <= c.PerArtist() {
      CountKeyAlike(a, b, k, c);
    }
    forall i, j | 0 <= i < j < |b| ensures UrlOf(b[i]) != UrlOf(b[j]) {
      assert UrlOf(a[i]) != UrlOf(a[j]);
    }
  }

  lemma {:induction false} Mirror(a: seq<Track>, pool: seq<Track>, c: Caps) returns (b: seq<Track>)
    requires Pairs(a, c) <= Pairs(pool, c)
    ensures Alike(a, b, c) && DrawnFrom(b, pool)
  {
    b := [];
    if a != [] {
      var r, t := a[..|a| - 1], a[|a| - 1];
      assert Pairs(r, c) <= Pairs(a, c);
      b := Mirror(r, pool, c);
      var x := FindPair(pool, t.url, c.Key(t), c, t, a);
      b := b + [x];
    }
  }

  lemma SizeAtMost(a: seq<Track>, b: seq<Track>, c: Caps)
    requires Pairs(a, c) == Pairs(b, c) && Room(a, c)
    ensures |Pick(b, c)| <= |Pick(a, c)|
  {
    PickIsFeasible(b, c);
    assert Pairs(Pick(b, c), c) <= Pairs(a, c);
    var choice := Mirror(Pick(b, c), a, c);
    FeasibleAlike(Pick(b, c), choice, c);
    PickIsLongest(a, c, choice);
  }

  lemma RankedPairs(a: seq<Track>, f: Filter, c: Caps)
    ensures Pairs(Ranked(a, f), c) == Pairs(Kept(a, f), c)
  {
    RankedIsKept(a, f);
  }

  /** Neither the engine's scores nor what was recently shown changes the number of results. */
  lemma SizeIgnoresScoresAndHistory(a: seq<Track>, f: Filter, b: seq<Track>, g: Filter, c: Caps)
    requires SameButScores(a, b) && f.excluded == g.excluded && f.isAlt == g.isAlt
    requires Room(Kept(a, f), c)
    ensures |Reranked(a, f, c)| == |Reranked(b, g, c)|
  {
    KeptPairs(a, f, b, g, c);
    RankedPairs(a, f, c);
    RankedPairs(b, g, c);
    RoomFromPairs(Kept(a, f), Ranked(a, f), c);
    RoomFromPairs(Kept(a, f), Ranked(b, g), c);
    SizeAtMost(Ranked(a, f), Ranked(b, g), c);
    SizeAtMost(Ranked(b, g), Ranked(a, f), c);
  }

  lemma {:induction false} CutAt(s: seq<Track>, x: real) returns (n: nat)
    requires Descending(s, ScoreOf)
    ensures n <= |s|
    ensures forall i | 0 <= i < n :: ScoreOf(s[i]) >= x
    ensures forall i | n <= i < |s| :: ScoreOf(s[i]) < x
  {
    if s == [] || ScoreOf(s[|s| - 1]) >= x {
      n := |s|;
    } else {
      n := CutAt(s[..|s| - 1], x);
    }
  }

  lemma FeasiblePrefix(s: seq<Track>, n: nat, c: Caps)
    requires Feasible(s, c) && n <= |s|
    ensures Feasible(s[..n], c)
  {
    forall k ensures CountKey(s[..n], k, c) <= c.PerArtist() {
      CountKeyMonotone(s, n, k, c);
    }
  }

  /** Elements of a descending list that score at least `x` lie before the cut. */
  lemma AboveTheCut(choice: seq<Track>, s: seq<Track>, n: nat, x: real)
    requires n <= |s| && forall i | n <= i < |s| :: ScoreOf(s[i]) < x
    requires DrawnFrom(choice, s) && forall i | 0 <= i < |choice| :: ScoreOf(choice[i]) >= x
    ensures DrawnFrom(choice, s[..n])
  {
    forall t | t in choice ensures t in s[..n] {
      var j :| 0 <= j < |s| && s[j] == t;
      assert j < n;
    }
  }

  lemma DominatesAt(cands: seq<Track>, f: Filter, c: Caps, choice: seq<Track>, i: nat)
    requires Room(Kept(cands, f), c) && CouldReturn(choice, cands, f, c) && i < |choice|
    ensures i < |Reranked(cands, f, c)| && ScoreOf(Reranked(cands, f, c)[i]) >= ScoreOf(choice[i])
  {
    var s := Ranked(cands, f);
    RankedIsKept(cands, f);
    var n := CutAt(s, ScoreOf(choice[i]));
    FeasiblePrefix(choice, i + 1, c);
    AboveTheCut(choice[..i + 1], s, n, ScoreOf(choice[i]));
    RoomSubset(s[..n], Kept(cands, f), c);
    PickIsLongest(s[..n], c, choice[..i + 1]);
    PickGrows(s, n, c);
    PickIsFeasible(s[..n], c);
    var best := Pick(s[..n], c)[i];
    assert best in Pick(s[..n], c);
    assert best in s[..n];
  }

  /** `choice` could have been returned for `cands`, best first. */
  ghost predicate CouldReturn(choice: seq<Track>, cands: seq<Track>, f: Filter, c: Caps) {
    Feasible(choice, c) && DrawnFrom(choice, Kept(cands, f)) && Descending(choice, ScoreOf)
  }

  /** `out` is as long as `choice`, and as good position by position. */
  ghost predicate Dominates(out: seq<Track>, choice: seq<Track>) {
    |choice| <= |out| && forall i | 0 <= i < |choice| :: ScoreOf(out[i]) >= ScoreOf(choice[i])
  }

  /** Greedy optimality, position by position: no feasible choice is longer, and none has a better
      i-th best score. */
  lemma GreedyDominates(cands: seq<Track>, f: Filter, c: Caps, choice: seq<Track>)
    requires Room(Kept(cands, f), c) && CouldReturn(choice, cands, f, c)
    ensures Dominates(Reranked(cands, f, c), choice)
  {
    forall i | 0 <= i < |choice|
      ensures i < |Reranked(cands, f, c)| && ScoreOf(Reranked(cands, f, c)[i]) >= ScoreOf(choice[i])
    {
      DominatesAt(cands, f, c, choice, i);
    }
    if choice != [] {
      DominatesAt(cands, f, c, choice, |choice| - 1);
    }
  }

  ghost function Total(s: seq<Track>): real { Sum(s, ScoreOf) }

  lemma {:induction false} TotalAtMost(a: seq<Track>, b: seq<Track>)
    requires |a| <= |b|
    requires forall i | 0 <= i < |a| :: ScoreOf(a[i]) <= ScoreOf(b[i])
    requires forall i | 0 <= i < |b| :: 0.0 <= ScoreOf(b[i])
    ensures Total(a) <= Total(b)
  {
    if b != [] {
      if |a| < |b| {
        TotalAtMost(a, b[..|b| - 1]);
      } else {
        TotalAtMost(a[..|a| - 1], b[..|b| - 1]);
      }
    }
  }

  lemma {:induction false} CountKeyMiddle(a: seq<Track>, t: Track, b: seq<Track>, k: string, c: Caps)
    ensures CountKey(a + [t] + b, k, c) == CountKey(a + b, k, c) + if c.Key(t) == k then 1 else 0
  {
    if b == [] {
      assert a + [t] + b == a + [t] && a + b == a;
      CountKeySnoc(a, t, k, c);
    } else {
      var r, u := b[..|b| - 1], b[|b| - 1];
      CountKeyMiddle(a, t, r, k, c);
      assert a + [t] + b == (a + [t] + r) + [u] && a + b == (a + r) + [u];
      CountKeySnoc(a + [t] + r, u, k, c);
      CountKeySnoc(a + r, u, k, c);
    }
  }

  lemma {:induction false} CountKeyIgnoresOrder(a: seq<Track>, b: seq<Track>, k: string, c: Caps)
    requires multiset(a) == multiset(b)
    ensures CountKey(a, k, c) == CountKey(b, k, c)
  {
    assert |multiset(a)| == |multiset(b)|;
    if a != [] {
      var before, after := Partner(a, b);
      CountKeyIgnoresOrder(a[..|a| - 1], before + after, k, c);
      CountKeyMiddle(before, a[|a| - 1], after, k, c);
    }
  }

  lemma FeasibleIgnoresOrder(a: seq<Track>, b: seq<Track>, c: Caps)
    requires Feasible(a, c) && multiset(a) == multiset(b)
    ensures Feasible(b, c)
    ensures forall t :: t in a <==> t in b
  {
    assert |multiset(a)| == |multiset(b)|;
    forall t ensures t in a <==> t in b {
      assert t in multiset(a) <==> t in multiset(b);
    }
    DistinctByIgnoresOrder(a, b, UrlOf);
    forall k ensures CountKey(b, k, c) <= c.PerArtist() {
      CountKeyIgnoresOrder(a, b, k, c);
    }
  }

  /** Greedy optimality in total: with non-negative scores no feasible choice scores more. */
  lemma GreedyMaximisesTotal(cands: seq<Track>, f: Filter, c: Caps, choice: seq<Track>)
    requires Room(Kept(cands, f), c)
    requires forall t | t in Kept(cands, f) :: ScoreOf(t) >= 0.0
    requires Feasible(choice, c) && DrawnFrom(choice, Kept(cands, f))
    ensures Total(choice) <= Total(Reranked(cands, f, c))
  {
    var best := SortDesc(choice, ScoreOf);
    SortDescIsStableSort(choice, ScoreOf);
    FeasibleIgnoresOrder(choice, best, c);
    GreedyDominates(cands, f, c, best);
    OutputIsFeasible(cands, f, c);
    TotalAtMost(best, Reranked(cands, f, c));
    SumIgnoresOrder(choice, best, ScoreOf);
  }

  lemma {:induction false} KeptFrom(cands: seq<Track>, f: Filter, t: Track) returns (i: nat)
    requires t in Kept(cands, f)
    ensures i < |cands| && cands[i].url == t.url && cands[i].artist == t.artist
  {
    var n := |cands| - 1;
    if t in Kept(cands[..n], f) {
      i := KeptFrom(cands[..n], f, t);
    } else {
      i := n;
    }
  }

  /** An engine that never repeats a URL meets the hypothesis, whatever the filter keeps. */
  lemma NoRepeatsMeetHypothesis(cands: seq<Track>, f: Filter, c: Caps)
    requires DistinctUrls(cands)
    ensures UrlDeterminesArtist(Kept(cands, f), c)
  {
    forall t, u | t in Kept(cands, f) && u in Kept(cands, f) && t.url == u.url ensures c.Key(t) == c.Key(u) {
      var i := KeptFrom(cands, f, t);
      var j := KeptFrom(cands, f, u);
      assert i < j ==> UrlOf(cands[i]) != UrlOf(cands[j]);
      assert j < i ==> UrlOf(cands[j]) != UrlOf(cands[i]);
    }
  }
}
