/** Vibe mixes: taste profile, playlist affinity, choice of playlists, track scores.

    Fetching and caching of playlists are foreign; their items arrive as dictionaries whose fields may
    be missing. `strip` and `lower` are parameters, and all arithmetic is on exact reals.
 */
module Mixes {
  import opened Wrappers
  import opened StableSort
  import opened Sums
  import opened Tally
  import opened Consensus
  import Rerank

  const POOL := 8
  const PICK := 4
  const DECAY := 0.02
  const BASE := 0.5
  const PER_ARTIST := 3

  datatype Text = Text(strip: string -> string, lower: string -> string) {
    function Norm(name: string): string { lower(strip(name)) }
  }

  datatype Seed = Seed(artist: string, weight: real)

  /** A playlist item: each artist is its name, or `None` where the entry has no string name. */
  datatype Item = NotADict | Dict(vid: Option<string>, title: Option<string>, artists: seq<Option<string>>)

  datatype Song = Song(vid: string, title: string, artists: seq<string>)

  function Names(artists: seq<Option<string>>, tx: Text): seq<string> {
    if artists == [] then [] else
      var a := artists[|artists| - 1];
      Names(artists[..|artists| - 1], tx) + if a.Some? && tx.strip(a.value) != "" then [a.value] else []
  }

  function Parse(item: Item, tx: Text): Option<Song> {
    if item.NotADict? then None else
      var vid := if item.vid.Some? then item.vid.value else "";
      var title := if item.title.Some? then item.title.value else "";
      var artists := Names(item.artists, tx);
      if vid == "" || title == "" || artists == [] then None else Some(Song(vid, title, artists))
  }

  /** The well-formed items, in order. */
  function Songs(items: seq<Item>, tx: Text): seq<Song> {
    if items == [] then [] else
      var p := Parse(items[|items| - 1], tx);
      Songs(items[..|items| - 1], tx) + if p.Some? then [p.value] else []
  }

  /** An artist entry with a name that is not blank. */
  predicate Named(a: Option<string>, tx: Text) { a.Some? && tx.strip(a.value) != "" }

  lemma {:induction false} NamesMean(artists: seq<Option<string>>, tx: Text)
    ensures forall x :: x in Names(artists, tx)
                        <==> exists q :: 0 <= q < |artists| && Named(artists[q], tx) && artists[q].value == x
    ensures Names(artists, tx) == [] ==> forall q | 0 <= q < |artists| :: !Named(artists[q], tx)
    ensures Names(artists, tx) != [] ==>
              exists q :: 0 <= q < |artists| && Named(artists[q], tx) && artists[q].value == Names(artists, tx)[0]
                          && forall r | 0 <= r < q :: !Named(artists[r], tx)
  {
    if artists != [] {
      var n := |artists| - 1;
      var before := Names(artists[..n], tx);
      NamesMean(artists[..n], tx);
      assert Names(artists, tx) == before + if Named(artists[n], tx) then [artists[n].value] else [];
      forall x ensures x in Names(artists, tx)
                       <==> exists q :: 0 <= q < |artists| && Named(artists[q], tx) && artists[q].value == x
      {
        if x in before {
          var q :| 0 <= q < n && Named(artists[..n][q], tx) && artists[..n][q].value == x;
          assert Named(artists[q], tx);
        }
        if q :| 0 <= q < n && Named(artists[q], tx) && artists[q].value == x {
          assert artists[..n][q] == artists[q];
          assert x in before;
        }
      }
      if before != [] {
        var q :| 0 <= q < n && Named(artists[..n][q], tx) && artists[..n][q].value == before[0]
                 && forall r | 0 <= r < q :: !Named(artists[..n][r], tx);
        forall r | 0 <= r < q ensures !Named(artists[r], tx) {
          assert artists[..n][r] == artists[r];
        }
      } else {
        forall r | 0 <= r < n ensures !Named(artists[r], tx) {
          assert artists[..n][r] == artists[r];
        }
      }
    }
  }

  /** An item is well formed when it has a video, a title and a named artist; it is then described by them, the first
      named artist first. */
  lemma {:induction false} ParseMeans(item: Item, tx: Text)
    ensures Parse(item, tx).Some? <==>
            item.Dict? && item.vid.Some? && item.vid.value != "" && item.title.Some? && item.title.value != ""
            && exists q :: 0 <= q < |item.artists| && Named(item.artists[q], tx)
    ensures Parse(item, tx).Some? ==>
              var song := Parse(item, tx).value;
              && song.vid == item.vid.value && song.title == item.title.value && song.artists != []
              && (forall x :: x in song.artists <==>
                    exists q :: 0 <= q < |item.artists| && Named(item.artists[q], tx) && item.artists[q].value == x)
              && exists q :: 0 <= q < |item.artists| && Named(item.artists[q], tx)
                             && item.artists[q].value == song.artists[0]
                             && forall r | 0 <= r < q :: !Named(item.artists[r], tx)
  {
    if item.Dict? {
      NamesMean(item.artists, tx);
      var names := Names(item.artists, tx);
      if q :| 0 <= q < |item.artists| && Named(item.artists[q], tx) {
        assert item.artists[q].value in names;
      }
      assert names != [] ==> names[0] in names;
    }
  }

  // ----- Taste

  /** The loop of `taste_profile` is right when every artist maps to its strongest seed weight, never
      below the 0.0 it starts from. */
  ghost predicate IsProfile(taste: map<string, real>, seeds: seq<Seed>, tx: Text) {
    && (forall s | s in seeds && tx.Norm(s.artist) != "" ::
          tx.Norm(s.artist) in taste && s.weight <= taste[tx.Norm(s.artist)])
    && (forall k | k in taste :: k != "" && taste[k] >= 0.0 && exists s :: s in seeds && tx.Norm(s.artist) == k)
    && (forall k | k in taste && taste[k] != 0.0 ::
          exists s :: s in seeds && tx.Norm(s.artist) == k && s.weight == taste[k])
  }

  lemma ProfileStep(taste: map<string, real>, seeds: seq<Seed>, s: Seed, tx: Text)
    requires IsProfile(taste, seeds, tx)
    ensures tx.Norm(s.artist) == "" ==> IsProfile(taste, seeds + [s], tx)
    ensures tx.Norm(s.artist) != "" ==>
              var k := tx.Norm(s.artist);
              var old_ := Get(taste, k);
              IsProfile(taste[k := if s.weight > old_ then s.weight else old_], seeds + [s], tx)
  {
    var all := seeds + [s];
    assert forall u :: u in all <==> u in seeds || u == s;
  }

  method TasteProfile(seeds: seq<Seed>, tx: Text) returns (taste: map<string, real>)
    ensures IsProfile(taste, seeds, tx)
  {
    taste := map[];
    for i := 0 to |seeds|
      invariant IsProfile(taste, seeds[..i], tx)
    {
      var s := seeds[i];
      assert seeds[..i + 1] == seeds[..i] + [s];
      ProfileStep(taste, seeds[..i], s, tx);
      var key := tx.Norm(s.artist);
      if key != "" {
        var had := Get(taste, key);
        taste := taste[key := if s.weight > had then s.weight else had];
      }
    }
    assert seeds[..|seeds|] == seeds;
  }

  /** The profile is determined by the seeds. */
  lemma ProfileUnique(a: map<string, real>, b: map<string, real>, seeds: seq<Seed>, tx: Text)
    requires IsProfile(a, seeds, tx) && IsProfile(b, seeds, tx)
    ensures a == b
  {
    forall k ensures k in a <==> k in b {}
    forall k | k in a ensures a[k] == b[k] {
      ProfileAtMost(a, b, seeds, tx, k);
      ProfileAtMost(b, a, seeds, tx, k);
    }
  }

  lemma ProfileAtMost(a: map<string, real>, b: map<string, real>, seeds: seq<Seed>, tx: Text, k: string)
    requires IsProfile(a, seeds, tx) && IsProfile(b, seeds, tx) && k in a && k in b
    ensures a[k] <= b[k]
  {
  }

  /** `max(taste.get(norm(a), 0.0) for a in artists)`, 0.0 when there are none. */
  function TasteWeight(artists: seq<string>, taste: map<string, real>, tx: Text): real {
    if artists == [] then 0.0 else
      var w := Get(taste, tx.Norm(artists[|artists| - 1]));
      if |artists| == 1 then w else
        var rest := TasteWeight(artists[..|artists| - 1], taste, tx);
        if w > rest then w else rest
  }

  function WeightOf(taste: map<string, real>, tx: Text): Song -> real {
    (s: Song) => TasteWeight(s.artists, taste, tx)
  }

  function Affinity(items: seq<Item>, taste: map<string, real>, tx: Text): real {
    var songs := Songs(items, tx);
    if songs == [] then 0.0 else Sum(songs, WeightOf(taste, tx)) / |songs| as real
  }

  lemma {:induction false} TasteWeightWithin(artists: seq<string>, taste: map<string, real>, tx: Text, hi: real)
    requires 0.0 <= hi && forall k | k in taste :: 0.0 <= taste[k] <= hi
    ensures 0.0 <= TasteWeight(artists, taste, tx) <= hi
  {
    if |artists| > 1 {
      TasteWeightWithin(artists[..|artists| - 1], taste, tx, hi);
    }
  }

  lemma DivideWithin(total: real, n: nat, hi: real)
    requires n > 0 && 0.0 <= total <= hi * n as real
    ensures 0.0 <= total / n as real <= hi
  {
  }

  lemma ProfileWithin(seeds: seq<Seed>, taste: map<string, real>, tx: Text, hi: real)
    requires IsProfile(taste, seeds, tx) && 0.0 <= hi && forall s | s in seeds :: s.weight <= hi
    ensures forall k | k in taste :: 0.0 <= taste[k] <= hi
  {
  }

  lemma WeightsWithin(songs: seq<Song>, taste: map<string, real>, tx: Text, hi: real)
    requires 0.0 <= hi && forall k | k in taste :: 0.0 <= taste[k] <= hi
    ensures 0.0 <= Sum(songs, WeightOf(taste, tx)) <= hi * |songs| as real
  {
    forall s | s in songs ensures 0.0 <= WeightOf(taste, tx)(s) <= hi {
      TasteWeightWithin(s.artists, taste, tx, hi);
    }
    SumWithin(songs, WeightOf(taste, tx), 0.0, hi);
  }

  /** Affinity never leaves [0, hi] when no seed weighs more than `hi`; the API caps weights at 1. */
  lemma AffinityWithin(items: seq<Item>, seeds: seq<Seed>, taste: map<string, real>, tx: Text, hi: real)
    requires IsProfile(taste, seeds, tx) && 0.0 <= hi && forall s | s in seeds :: s.weight <= hi
    ensures 0.0 <= Affinity(items, taste, tx) <= hi
  {
    ProfileWithin(seeds, taste, tx, hi);
    var songs := Songs(items, tx);
    if songs != [] {
      WeightsWithin(songs, taste, tx, hi);
      DivideWithin(Sum(songs, WeightOf(taste, tx)), |songs|, hi);
    }
  }

  /** The best weight of any listed artist. */
  lemma {:induction false} TasteWeightIsMax(artists: seq<string>, taste: map<string, real>, tx: Text)
    requires artists != []
    ensures forall a | a in artists :: Get(taste, tx.Norm(a)) <= TasteWeight(artists, taste, tx)
    ensures exists a :: a in artists && Get(taste, tx.Norm(a)) == TasteWeight(artists, taste, tx)
  {
    var r, last := artists[..|artists| - 1], artists[|artists| - 1];
    assert artists == r + [last];
    if r != [] {
      TasteWeightIsMax(r, taste, tx);
    }
    assert last in artists;
  }

  lemma DividePositive(total: real, n: nat)
    requires n > 0
    ensures total / n as real > 0.0 <==> total > 0.0
  {
  }

  /** A playlist has positive affinity exactly when it lists a track the taste has a positive weight for. */
  lemma AffinityPositiveIff(items: seq<Item>, taste: map<string, real>, tx: Text)
    requires forall k | k in taste :: taste[k] >= 0.0
    ensures Affinity(items, taste, tx) > 0.0 <==> exists s :: s in Songs(items, tx) && WeightOf(taste, tx)(s) > 0.0
  {
    var songs := Songs(items, tx);
    forall s | s in songs ensures WeightOf(taste, tx)(s) >= 0.0 {
      TasteWeightNonNegative(s.artists, taste, tx);
    }
    SumPositiveIff(songs, WeightOf(taste, tx));
    if songs != [] {
      DividePositive(Sum(songs, WeightOf(taste, tx)), |songs|);
    }
  }

  lemma {:induction false} TasteWeightNonNegative(artists: seq<string>, taste: map<string, real>, tx: Text)
    requires forall k | k in taste :: taste[k] >= 0.0
    ensures TasteWeight(artists, taste, tx) >= 0.0
  {
    if |artists| > 1 {
      TasteWeightNonNegative(artists[..|artists| - 1], taste, tx);
    }
  }

  // ----- Choosing playlists

  datatype Playlist = Playlist(id: string, affinity: real)

  function AffinityKey(p: Playlist): real { p.affinity }

  /** The best POOL playlists, ties in YouTube Music's own order. */
  function Pool(scored: seq<Playlist>): seq<Playlist> { Head(SortDesc(scored, AffinityKey), POOL) }

  function MaxAffinity(scored: seq<Playlist>): real
    requires scored != []
  {
    var a := scored[|scored| - 1].affinity;
    if |scored| == 1 then a else
      var m := MaxAffinity(scored[..|scored| - 1]);
      if a > m then a else m
  }

  /** Which pool positions a variant takes. */
  function Position(variant: int, i: nat, m: nat): nat
    requires m > 0
  {
    (variant * PICK + i) % m
  }

  function PickPlaylists(scored: seq<Playlist>, variant: int): (seq<Playlist>, bool) {
    if scored == [] then ([], false) else
      var pool := Pool(scored);
      SortDescSize(scored);
      var n := Min(PICK, |pool|);
      var chosen := seq(n, i requires 0 <= i < n => pool[Position(variant, i, |pool|)]);
      (chosen, MaxAffinity(scored) > 0.0)
  }

  lemma SortDescSize(scored: seq<Playlist>)
    ensures |Pool(scored)| == Min(POOL, |scored|)
  {
    SortDescIsStableSort(scored, AffinityKey);
    assert |multiset(SortDesc(scored, AffinityKey))| == |multiset(scored)|;
  }

  function IdOf(p: Playlist): string { p.id }

  ghost predicate DistinctIds(s: seq<Playlist>) { DistinctBy(s, IdOf) }

  /** The pool holds POOL distinct playlists (or all there are), none worse than one outside it. */
  lemma PoolIsBest(scored: seq<Playlist>, inside: Playlist, outside: Playlist)
    requires inside in Pool(scored) && outside in scored && outside !in Pool(scored)
    ensures inside.affinity >= outside.affinity
  {
    var r := SortDesc(scored, AffinityKey);
    SortDescIsStableSort(scored, AffinityKey);
    assert outside in multiset(r);
    HeadIsBest(r, POOL, AffinityKey, inside, outside);
  }

  lemma PoolDistinct(scored: seq<Playlist>)
    requires DistinctIds(scored)
    ensures DistinctIds(Pool(scored)) && forall p | p in Pool(scored) :: p in scored
  {
    var r := SortDesc(scored, AffinityKey);
    SortDescIsStableSort(scored, AffinityKey);
    DistinctByIgnoresOrder(scored, r, IdOf);
    assert Pool(scored) == r[..|Pool(scored)|];
    forall p | p in Pool(scored) ensures p in scored {
      assert p in r;
      assert p in multiset(r);
    }
  }

  lemma MultipleAtLeast(m: int, d: int)
    requires m > 0 && d >= 1
    ensures m * d >= m
  {
  }

  lemma OnlyMultipleNearZero(x: int, d: int, m: int)
    requires x == m * d && 0 - m < x < m
    ensures x == 0
  {
    if d >= 1 {
      MultipleAtLeast(m, d);
    } else if d <= -1 {
      MultipleAtLeast(m, 0 - d);
    }
  }

  lemma PositionsDiffer(variant: int, i: nat, j: nat, m: nat)
    requires i < j < m
    ensures Position(variant, i, m) != Position(variant, j, m)
  {
    var a := variant * PICK;
    var d := (a + j) / m - (a + i) / m;
    assert j - i == m * d + (Position(variant, j, m) - Position(variant, i, m));
    if Position(variant, i, m) == Position(variant, j, m) {
      OnlyMultipleNearZero(j - i, d, m);
    }
  }

  /** Every choice is PICK distinct members of the pool (or the whole pool, if smaller). */
  lemma ChosenDistinct(scored: seq<Playlist>, variant: int)
    requires scored != [] && DistinctIds(scored)
    ensures var chosen := PickPlaylists(scored, variant).0;
            && |chosen| == Min(PICK, |scored|) && DistinctIds(chosen)
            && forall p | p in chosen :: p in Pool(scored)
  {
    SortDescSize(scored);
    PoolDistinct(scored);
    var pool, chosen := Pool(scored), PickPlaylists(scored, variant).0;
    forall i, j | 0 <= i < j < |chosen| ensures IdOf(chosen[i]) != IdOf(chosen[j]) {
      PositionsDiffer(variant, i, j, |pool|);
    }
  }

  function Ceil(a: nat, b: nat): nat
    requires b > 0
  {
    (a + b - 1) / b
  }

  lemma ResidueInWindow(start: int, p: nat, m: nat) returns (off: nat)
    requires p < m
    ensures off < m && (start + off) % m == p
  {
    off := (p - start) % m;
    var q := (p - start) / m;
    assert p - start == m * q + off;
    assert start + off == p - m * q;
    ModShift(p, q, m);
  }

  lemma ModShift(p: nat, q: int, m: nat)
    requires p < m
    ensures (p - m * q) % m == p
  {
    var x := p - m * q;
    assert p - x % m == m * (x / m + q);
    OnlyMultipleNearZero(p - x % m, x / m + q, m);
  }

  /** Rotation covers the pool: any ceil(m / PICK) consecutive variants choose every member. */
  lemma RotationCovers(scored: seq<Playlist>, from: int, p: nat) returns (variant: int)
    requires p < |Pool(scored)|
    ensures from <= variant < from + Ceil(|Pool(scored)|, PICK)
    ensures Pool(scored)[p] in PickPlaylists(scored, variant).0
  {
    SortDescSize(scored);
    var pool := Pool(scored);
    var m := |pool|;
    var off := ResidueInWindow(from * PICK, p, m);
    variant := from + off / PICK;
    var i := off % PICK;
    assert variant * PICK + i == from * PICK + off;
    assert i < Min(PICK, m);
    assert PickPlaylists(scored, variant).0[i] == pool[p];
  }

  lemma {:induction false} MaxAffinityAbove(scored: seq<Playlist>, p: Playlist)
    requires p in scored
    ensures p.affinity <= MaxAffinity(scored)
  {
    var n := |scored| - 1;
    assert scored == scored[..n] + [scored[n]];
    if p in scored[..n] {
      MaxAffinityAbove(scored[..n], p);
    }
  }

  lemma {:induction false} MaxAffinityAttained(scored: seq<Playlist>) returns (p: Playlist)
    requires scored != []
    ensures p in scored && p.affinity == MaxAffinity(scored)
  {
    var n := |scored| - 1;
    p := scored[n];
    if n > 0 {
      var q := MaxAffinityAttained(scored[..n]);
      if q.affinity >= p.affinity {
        p := q;
      }
    }
  }

  lemma AllZeroPool(scored: seq<Playlist>)
    requires forall i | 0 <= i < |scored| :: scored[i].affinity == 0.0
    ensures Pool(scored) == scored[..Min(POOL, |scored|)]
  {
    SortedIsFixed(scored, AffinityKey);
  }

  /** With no overlap at all the mix is YouTube Music's own top picks; otherwise it is personalised. */
  lemma Fallback(scored: seq<Playlist>)
    requires scored != [] && forall p | p in scored :: p.affinity >= 0.0
    ensures PickPlaylists(scored, 0).1 <==> exists p :: p in scored && p.affinity > 0.0
    ensures !PickPlaylists(scored, 0).1 ==> PickPlaylists(scored, 0).0 == scored[..Min(PICK, |scored|)]
  {
    var best := MaxAffinityAttained(scored);
    forall p | p in scored ensures p.affinity <= MaxAffinity(scored) {
      MaxAffinityAbove(scored, p);
    }
    if MaxAffinity(scored) <= 0.0 {
      forall i | 0 <= i < |scored| ensures scored[i].affinity == 0.0 {
        assert scored[i] in scored;
      }
      AllZeroPool(scored);
      var chosen := PickPlaylists(scored, 0).0;
      forall i | 0 <= i < |chosen| ensures chosen[i] == scored[i] {
        assert Position(0, i, |Pool(scored)|) == i by { ModShift(i, 0, |Pool(scored)|); }
      }
      assert chosen == scored[..Min(PICK, |scored|)];
    }
  }

  // ----- Scoring tracks

  /** What a listing at a position of a playlist is worth. */
  function ListingAt(affinity: real, position: nat): real { (BASE + affinity) / (1.0 + DECAY * position as real) }

  /** Earlier positions are worth more, and even a playlist without affinity ranks its tracks. */
  lemma ListingDecays(affinity: real, i: nat, j: nat)
    requires affinity >= 0.0 && i < j
    ensures ListingAt(affinity, 0) == BASE + affinity && ListingAt(affinity, i) > ListingAt(affinity, j) > 0.0
  {
    DividedMore(BASE + affinity, 1.0 + DECAY * i as real, 1.0 + DECAY * j as real);
  }

  /** The listings of one playlist's well-formed items, in order. */
  function Listings(songs: seq<Song>, affinity: real): seq<Ballot<Song>> {
    if songs == [] then [] else
      var n := |songs| - 1;
      Listings(songs[..n], affinity) + [Ballot(songs[n].vid, songs[n], ListingAt(affinity, n))]
  }

  /** A chosen playlist: its affinity and its items. */
  datatype Source = Source(affinity: real, items: seq<Item>)

  function AllListings(chosen: seq<Source>, tx: Text): seq<Ballot<Song>> {
    if chosen == [] then [] else
      var n := |chosen| - 1;
      AllListings(chosen[..n], tx) + Listings(Songs(chosen[n].items, tx), chosen[n].affinity)
  }

  /** What one playlist gives to `vid`. */
  function FromPlaylist(tx: Text, vid: string): Source -> real {
    (p: Source) => Points(Listings(Songs(p.items, tx), p.affinity), vid)
  }

  /** The taste weight of the artists `vid` was first listed with. */
  function Bonus(order: seq<Entry<Song>>, taste: map<string, real>, tx: Text, vid: string): real {
    if order == [] then 0.0 else
      var e := order[|order| - 1];
      if e.vid == vid then TasteWeight(e.meta.artists, taste, tx) else Bonus(order[..|order| - 1], taste, tx, vid)
  }

  /** A track's score: every listing, in every playlist, plus its taste weight once. */
  ghost function MixScore(chosen: seq<Source>, taste: map<string, real>, tx: Text): string -> real {
    (v: string) => Sum(chosen, FromPlaylist(tx, v)) + Bonus(FirstSeen(AllListings(chosen, tx)), taste, tx, v)
  }

  function ToTrack(e: Entry<Song>, score: real): Rerank.Track {
    Rerank.Track(e.meta.title, if e.meta.artists == [] then "" else e.meta.artists[0], Rerank.WATCH_URL + e.vid,
                 Some(score))
  }

  function ToTracks(es: seq<Entry<Song>>, score: string -> real): seq<Rerank.Track> {
    seq(|es|, i requires 0 <= i < |es| => ToTrack(es[i], score(es[i].vid)))
  }

  lemma SongsStep(items: seq<Item>, i: nat, tx: Text)
    requires i < |items|
    ensures var p := Parse(items[i], tx);
            Songs(items[..i + 1], tx) == Songs(items[..i], tx) + if p.Some? then [p.value] else []
  {
    assert items[..i + 1][..i] == items[..i];
  }

  lemma ListingsSnoc(songs: seq<Song>, s: Song, affinity: real)
    ensures Listings(songs + [s], affinity) ==
            Listings(songs, affinity) + [Ballot(s.vid, s, ListingAt(affinity, |songs|))]
  {
    assert (songs + [s])[..|songs|] == songs;
  }

  lemma AllListingsStep(chosen: seq<Source>, i: nat, tx: Text)
    requires i < |chosen|
    ensures AllListings(chosen[..i + 1], tx) ==
            AllListings(chosen[..i], tx) + Listings(Songs(chosen[i].items, tx), chosen[i].affinity)
  {
    assert chosen[..i + 1][..i] == chosen[..i];
  }

  /** One playlist's pass of the first loop nest; `position` counts well-formed items only. */
  method ListPlaylist(before: map<string, real>, begun: seq<Entry<Song>>, source: Source, tx: Text,
                      ghost cast: seq<Ballot<Song>>)
    returns (scores: map<string, real>, order: seq<Entry<Song>>)
    requires Filled(before, begun, cast)
    ensures Filled(scores, order, cast + Listings(Songs(source.items, tx), source.affinity))
  {
    scores, order := before, begun;
    var position := 0;
    ghost var songs := [];
    assert cast + Listings(songs, source.affinity) == cast;
    for j := 0 to |source.items|
      invariant songs == Songs(source.items[..j], tx) && position == |songs|
      invariant Filled(scores, order, cast + Listings(songs, source.affinity))
    {
      SongsStep(source.items, j, tx);
      var parsed := Parse(source.items[j], tx);
      if parsed.None? {
        continue;
      }
      var s := parsed.value;
      ListingsSnoc(songs, s, source.affinity);
      scores, order := Cast(scores, order, s.vid, s, ListingAt(source.affinity, position),
                            cast + Listings(songs, source.affinity));
      assert cast + Listings(songs + [s], source.affinity) ==
             cast + Listings(songs, source.affinity) + [Ballot(s.vid, s, ListingAt(source.affinity, |songs|))];
      songs := songs + [s];
      position := position + 1;
    }
    assert source.items[..|source.items|] == source.items;
  }

  /** The first loop nest of `score_tracks`. */
  method AddListings(chosen: seq<Source>, tx: Text) returns (scores: map<string, real>, order: seq<Entry<Song>>)
    ensures Filled(scores, order, AllListings(chosen, tx))
  {
    scores, order := map[], [];
    for i := 0 to |chosen|
      invariant Filled(scores, order, AllListings(chosen[..i], tx))
    {
      scores, order := ListPlaylist(scores, order, chosen[i], tx, AllListings(chosen[..i], tx));
      AllListingsStep(chosen, i, tx);
    }
    assert chosen[..|chosen|] == chosen;
  }

  lemma {:induction false} BonusUnlisted(order: seq<Entry<Song>>, taste: map<string, real>, tx: Text, v: string)
    requires v !in Listed(order)
    ensures Bonus(order, taste, tx, v) == 0.0
  {
    if order != [] {
      assert order[|order| - 1] in order;
      BonusUnlisted(order[..|order| - 1], taste, tx, v);
    }
  }

  lemma BonusStep(order: seq<Entry<Song>>, i: nat, taste: map<string, real>, tx: Text, v: string)
    requires i < |order| && Distinct(order)
    ensures Bonus(order[..i + 1], taste, tx, v) ==
            Bonus(order[..i], taste, tx, v) +
            if order[i].vid == v then TasteWeight(order[i].meta.artists, taste, tx) else 0.0
  {
    assert order[..i + 1][..i] == order[..i];
    if order[i].vid == v {
      forall e: Entry<Song> | e in order[..i] ensures e.vid != v {
        var j :| 0 <= j < i && order[j] == e;
        assert VidOf(order[j]) != VidOf(order[i]);
      }
      BonusUnlisted(order[..i], taste, tx, v);
    }
  }

  /** `scores` after the taste of the first `i` tracks has been added to `before`. */
  ghost predicate Tasted(scores: map<string, real>, before: map<string, real>, order: seq<Entry<Song>>, i: nat,
                         taste: map<string, real>, tx: Text)
    requires i <= |order|
  {
    scores.Keys == before.Keys && forall v | v in scores :: scores[v] == before[v] + Bonus(order[..i], taste, tx, v)
  }

  lemma TasteStep(scores: map<string, real>, before: map<string, real>, order: seq<Entry<Song>>, i: nat,
                  taste: map<string, real>, tx: Text)
    requires i < |order| && Distinct(order) && Tasted(scores, before, order, i, taste, tx) && order[i].vid in scores
    ensures var v, w := order[i].vid, TasteWeight(order[i].meta.artists, taste, tx);
            Tasted(scores[v := scores[v] + w], before, order, i + 1, taste, tx)
  {
    forall v | v in scores ensures Bonus(order[..i + 1], taste, tx, v) == Bonus(order[..i], taste, tx, v) +
                     if order[i].vid == v then TasteWeight(order[i].meta.artists, taste, tx) else 0.0
    {
      BonusStep(order, i, taste, tx, v);
    }
  }

  /** The second loop: each track's taste weight, once. */
  method AddTaste(before: map<string, real>, order: seq<Entry<Song>>, taste: map<string, real>, tx: Text)
    returns (scores: map<string, real>)
    requires Distinct(order) && before.Keys == Listed(order)
    ensures scores.Keys == before.Keys
    ensures forall v | v in scores :: scores[v] == before[v] + Bonus(order, taste, tx, v)
  {
    scores := before;
    for i := 0 to |order|
      invariant Tasted(scores, before, order, i, taste, tx)
    {
      assert order[i] in order;
      TasteStep(scores, before, order, i, taste, tx);
      scores := scores[order[i].vid := scores[order[i].vid] + TasteWeight(order[i].meta.artists, taste, tx)];
    }
    assert order[..|order|] == order;
  }

  lemma {:induction false} ListingsAddUp(chosen: seq<Source>, tx: Text, vid: string)
    ensures Points(AllListings(chosen, tx), vid) == Sum(chosen, FromPlaylist(tx, vid))
  {
    if chosen != [] {
      var n := |chosen| - 1;
      ListingsAddUp(chosen[..n], tx, vid);
      PointsConcat(AllListings(chosen[..n], tx), Listings(Songs(chosen[n].items, tx), chosen[n].affinity), vid);
    }
  }

  /** Tracks are presented from the ranking of `order`, whichever of two agreeing scores is used. */
  lemma SameTracks(order: seq<Entry<Song>>, f: string -> real, g: string -> real)
    requires Distinct(order) && forall e: Entry<Song> | e in order :: f(e.vid) == g(e.vid)
    ensures ToTracks(Ranking(order, f), f) == ToTracks(Ranking(order, g), g)
  {
    RankingAgrees(order, f, g);
    RankingRearranges(order, f);
    var r := Ranking(order, f);
    assert forall i | 0 <= i < |r| :: r[i] in r;
  }

  /** `score_tracks`: each track once, best first, with its conserved score. */
  method ScoreTracks(chosen: seq<Source>, taste: map<string, real>, tx: Text) returns (tracks: seq<Rerank.Track>)
    ensures var order := FirstSeen(AllListings(chosen, tx));
            var score := MixScore(chosen, taste, tx);
            tracks == ToTracks(Ranking(order, score), score)
  {
    ghost var bs := AllListings(chosen, tx);
    var scores, order := AddListings(chosen, tx);
    ghost var before := scores;
    FirstSeenListed(bs);
    FirstSeenDistinct(bs);
    scores := AddTaste(scores, order, taste, tx);
    var score := (v: string) => Get(scores, v);
    forall e: Entry<Song> | e in order ensures score(e.vid) == MixScore(chosen, taste, tx)(e.vid) {
      assert e.vid in Listed(order);
      ListingsAddUp(chosen, tx, e.vid);
    }
    SameTracks(order, score, MixScore(chosen, taste, tx));
    tracks := ToTracks(Ranking(order, score), score);
  }

  lemma {:induction false} SongsConcat(a: seq<Item>, b: seq<Item>, tx: Text)
    ensures Songs(a + b, tx) == Songs(a, tx) + Songs(b, tx)
  {
    if b == [] {
      assert a + b == a;
    } else {
      SongsConcat(a, b[..|b| - 1], tx);
      assert (a + b)[..|a + b| - 1] == a + b[..|b| - 1];
    }
  }

  lemma SongsSkip(a: seq<Item>, bad: Item, b: seq<Item>, tx: Text)
    requires Parse(bad, tx).None?
    ensures Songs(a + [bad] + b, tx) == Songs(a + b, tx)
  {
    SongsConcat(a + [bad], b, tx);
    SongsConcat(a, b, tx);
    assert (a + [bad])[..|a|] == a;
  }

  /** A malformed item takes no position: dropping it changes no listing and no affinity. */
  lemma MalformedIgnored(a: seq<Item>, bad: Item, b: seq<Item>, tx: Text, vid: string, affinity: real,
                         taste: map<string, real>)
    requires Parse(bad, tx).None?
    ensures FromPlaylist(tx, vid)(Source(affinity, a + [bad] + b)) == FromPlaylist(tx, vid)(Source(affinity, a + b))
    ensures Affinity(a + [bad] + b, taste, tx) == Affinity(a + b, taste, tx)
  {
    SongsSkip(a, bad, b, tx);
  }

  /** Each listed track comes out exactly once, and only listed ones do. */
  lemma EachTrackOnce(chosen: seq<Source>, taste: map<string, real>, tx: Text)
    ensures var bs := AllListings(chosen, tx);
            var r := Ranking(FirstSeen(bs), MixScore(chosen, taste, tx));
            Distinct(r) && Listed(r) == Vids(bs)
  {
    var bs := AllListings(chosen, tx);
    var score := MixScore(chosen, taste, tx);
    var r := Ranking(FirstSeen(bs), score);
    FirstSeenDistinct(bs);
    FirstSeenListed(bs);
    RankingRearranges(FirstSeen(bs), score);
    assert Listed(r) == Listed(FirstSeen(bs));
  }

  /** Neither the order of the playlists nor anything but the listings decides the listed part. */
  lemma PlaylistOrderIrrelevant(a: seq<Source>, b: seq<Source>, tx: Text, vid: string)
    requires multiset(a) == multiset(b)
    ensures Points(AllListings(a, tx), vid) == Points(AllListings(b, tx), vid)
  {
    ListingsAddUp(a, tx, vid);
    ListingsAddUp(b, tx, vid);
    SumIgnoresOrder(a, b, FromPlaylist(tx, vid));
  }

  // ----- A whole mix

  datatype Fetched = Fetched(id: string, items: seq<Item>)

  function FetchedId(p: Fetched): string { p.id }

  function Scored(fetched: seq<Fetched>, taste: map<string, real>, tx: Text): seq<Playlist> {
    seq(|fetched|, i requires 0 <= i < |fetched| => Playlist(fetched[i].id, Affinity(fetched[i].items, taste, tx)))
  }

  /** `playlists[pid]`; the fetched playlists come from a dictionary, so each id occurs once. */
  function ItemsOf(fetched: seq<Fetched>, id: string): seq<Item> {
    if fetched == [] then [] else
      if fetched[0].id == id then fetched[0].items else ItemsOf(fetched[1..], id)
  }

  function Sources(chosen: seq<Playlist>, fetched: seq<Fetched>): seq<Source> {
    seq(|chosen|, i requires 0 <= i < |chosen| => Source(chosen[i].affinity, ItemsOf(fetched, chosen[i].id)))
  }

  /** The playlists a mix is built from. */
  function MixSources(fetched: seq<Fetched>, taste: map<string, real>, variant: int, tx: Text): seq<Source> {
    Sources(PickPlaylists(Scored(fetched, taste, tx), variant).0, fetched)
  }

  // ----- What a mix is, from the fetched playlists alone

  /** A playlist's items: a well-formed one is worth the playlist's weight, less a fiftieth per rank. */
  function GroupOf(items: seq<Item>, affinity: real, tx: Text): Group<Song> {
    Group(seq(|items|, p requires 0 <= p < |items| => Parse(items[p], tx)),
          (rank: nat) => (0.5 + affinity) / (1.0 + 0.02 * rank as real))
  }

  /** What the first `n` items' artists weigh, all told. */
  function TasteTo(items: seq<Item>, taste: map<string, real>, tx: Text, n: nat): real
    requires n <= |items|
  {
    if n == 0 then 0.0 else
      var p := Parse(items[n - 1], tx);
      TasteTo(items, taste, tx, n - 1) + if p.Some? then TasteWeight(p.value.artists, taste, tx) else 0.0
  }

  /** Of the first `n` items those that are well formed. */
  function WellFormed(items: seq<Item>, tx: Text, n: nat): set<nat>
    requires n <= |items|
  {
    set p | 0 <= p < n && Parse(items[p], tx).Some?
  }

  function AffinityOf(taste: map<string, real>, tx: Text): Fetched -> real {
    (p: Fetched) => Affinity(p.items, taste, tx)
  }

  /** `js` are the playlists taken: four, or all there are, of the best eight by affinity, ties as fetched, from the
      one that `variant` starts at, round and round. */
  ghost predicate IsChoice(js: seq<nat>, fetched: seq<Fetched>, taste: map<string, real>, variant: int, tx: Text) {
    exists order ::
      && IsOrder(fetched, AffinityOf(taste, tx), order)
      && |js| == Min(4, |fetched|)
      && forall i | 0 <= i < |js| ::
           js[i] < |fetched| && js[i] == order[(variant * 4 + i) % Min(8, |fetched|)]
  }

  function GroupsOf(js: seq<nat>, fetched: seq<Fetched>, taste: map<string, real>, tx: Text): seq<Group<Song>>
    requires forall k | 0 <= k < |js| :: js[k] < |fetched|
  {
    seq(|js|, k requires 0 <= k < |js| =>
      GroupOf(fetched[js[k]].items, Affinity(fetched[js[k]].items, taste, tx), tx))
  }

  function SongVid(s: Song): string { s.vid }

  ghost predicate Presents(tracks: seq<Rerank.Track>, groups: seq<Group<Song>>, bonus: Song -> real, all: seq<Place>) {
    && |tracks| == |all|
    && forall k | 0 <= k < |tracks| ::
         && Consensus.Lists(groups, all[k])
         && var song := ItemAt(groups, all[k]);
            && song.artists != []
            && tracks[k] == Rerank.Track(song.title, song.artists[0], "https://music.youtube.com/watch?v=" + song.vid,
                                         Some(ScoreAt(groups, SongVid, bonus, all[k])))
  }

  ghost predicate IsScored(tracks: seq<Rerank.Track>, groups: seq<Group<Song>>, bonus: Song -> real) {
    exists all :: IsRanking(groups, SongVid, bonus, all) && Presents(tracks, groups, bonus, all)
  }

  /** A mix: the tracks of the playlists taken, each once, by what its listings add up to and its taste weight once,
      ties in the order they were first listed. */
  ghost predicate IsMix(tracks: seq<Rerank.Track>, fetched: seq<Fetched>, taste: map<string, real>, variant: int,
                        tx: Text)
  {
    exists js :: IsChoice(js, fetched, taste, variant, tx)
                 && IsScored(tracks, GroupsOf(js, fetched, taste, tx), WeightOf(taste, tx))
  }

  // ----- The listings as ballots

  lemma {:induction false} NextListing(items: seq<Item>, affinity: real, tx: Text, n: nat, songs: seq<Song>,
                                       g: Group<Song>, worth: real)
    requires n < |items| == |g.slots| && g.slots[n] == Parse(items[n], tx) && songs == Songs(items[..n], tx)
    requires worth == ListingAt(affinity, |songs|) && worth == g.points(|songs|)
    requires |songs| == Rank(g.slots, n) && Listings(songs, affinity) == BallotsTo(g, SongVid, n)
    ensures Listings(Songs(items[..n + 1], tx), affinity) == BallotsTo(g, SongVid, n + 1)
    ensures |Songs(items[..n + 1], tx)| == Rank(g.slots, n + 1)
  {
    SongsStep(items, n, tx);
    BallotsStep(g, SongVid, n, worth);
    if g.slots[n].Some? {
      ListingsSnoc(songs, g.slots[n].value, affinity);
    } else {
      assert songs + [] == songs && Listings(songs, affinity) + [] == Listings(songs, affinity);
    }
  }

  lemma {:induction false} ListingsAreBallots(items: seq<Item>, affinity: real, tx: Text, n: nat)
    requires n <= |items|
    ensures |GroupOf(items, affinity, tx).slots| == |items|
    ensures Listings(Songs(items[..n], tx), affinity) == BallotsTo(GroupOf(items, affinity, tx), SongVid, n)
    ensures |Songs(items[..n], tx)| == Rank(GroupOf(items, affinity, tx).slots, n)
  {
    var g := GroupOf(items, affinity, tx);
    if n == 0 {
      assert items[..0] == [] && Counting(g.slots, 0) == {};
    } else {
      ListingsAreBallots(items, affinity, tx, n - 1);
      var songs := Songs(items[..n - 1], tx);
      NextListing(items, affinity, tx, n - 1, songs, g, g.points(|songs|));
    }
  }

  /** The groups of the sources a mix is built from. */
  function SourceGroups(chosen: seq<Source>, tx: Text): seq<Group<Song>> {
    seq(|chosen|, k requires 0 <= k < |chosen| => GroupOf(chosen[k].items, chosen[k].affinity, tx))
  }

  lemma {:induction false} AllListingsAreBallots(chosen: seq<Source>, tx: Text)
    ensures AllListings(chosen, tx) == Ballots(SourceGroups(chosen, tx), SongVid)
  {
    if chosen != [] {
      var n := |chosen| - 1;
      AllListingsAreBallots(chosen[..n], tx);
      ListingsAreBallots(chosen[n].items, chosen[n].affinity, tx, |chosen[n].items|);
      assert chosen[n].items[..|chosen[n].items|] == chosen[n].items;
      assert SourceGroups(chosen, tx)[..n] == SourceGroups(chosen[..n], tx);
    }
  }

  // ----- Affinity

  lemma {:induction false} SongsCount(items: seq<Item>, tx: Text)
    ensures |Songs(items, tx)| == |WellFormed(items, tx, |items|)|
  {
    ListingsAreBallots(items, 0.0, tx, |items|);
    assert items[..|items|] == items;
    assert WellFormed(items, tx, |items|) == Counting(GroupOf(items, 0.0, tx).slots, |items|);
  }

  lemma {:induction false} OneMoreTaste(songs: seq<Song>, p: Option<Song>, taste: map<string, real>, tx: Text)
    ensures Sum(songs + if p.Some? then [p.value] else [], WeightOf(taste, tx))
            == Sum(songs, WeightOf(taste, tx)) + if p.Some? then TasteWeight(p.value.artists, taste, tx) else 0.0
  {
    if p.Some? {
      SumSnoc(songs, p.value, WeightOf(taste, tx));
    } else {
      assert songs + [] == songs;
    }
  }

  lemma {:induction false} SongsTaste(items: seq<Item>, taste: map<string, real>, tx: Text, n: nat)
    requires n <= |items|
    ensures Sum(Songs(items[..n], tx), WeightOf(taste, tx)) == TasteTo(items, taste, tx, n)
  {
    if n == 0 {
      assert items[..0] == [];
    } else {
      SongsTaste(items, taste, tx, n - 1);
      SongsStep(items, n - 1, tx);
      OneMoreTaste(Songs(items[..n - 1], tx), Parse(items[n - 1], tx), taste, tx);
    }
  }

  /** Affinity is the mean taste weight of the well-formed items. */
  lemma {:induction false} AffinityIsMean(items: seq<Item>, taste: map<string, real>, tx: Text)
    ensures var n := |WellFormed(items, tx, |items|)|;
            Affinity(items, taste, tx) == if n == 0 then 0.0 else TasteTo(items, taste, tx, |items|) / n as real
  {
    SongsCount(items, tx);
    SongsTaste(items, taste, tx, |items|);
    assert items[..|items|] == items;
  }

  lemma {:induction false} BonusOf(order: seq<Entry<Song>>, taste: map<string, real>, tx: Text, e: Entry<Song>)
    requires Distinct(order) && e in order
    ensures Bonus(order, taste, tx, e.vid) == WeightOf(taste, tx)(e.meta)
  {
    var n := |order| - 1;
    var k :| 0 <= k < |order| && order[k] == e;
    assert VidOf(order[k]) == e.vid && (k < n ==> VidOf(order[k]) != VidOf(order[n]));
    if k < n {
      assert order[..n][k] == e;
      BonusOf(order[..n], taste, tx, e);
    }
  }

  lemma {:induction false} SlotsParse(groups: seq<Group<Song>>, chosen: seq<Source>, tx: Text, at: Place)
    requires groups == SourceGroups(chosen, tx) && Consensus.Lists(groups, at)
    ensures ItemAt(groups, at).artists != []
  {
    ParseMeans(chosen[at.0].items[at.1], tx);
  }

  /** `score_tracks`, exactly. */
  lemma {:induction false} ScoresAreExact(chosen: seq<Source>, taste: map<string, real>, tx: Text)
    returns (all: seq<Place>)
    ensures IsRanking(SourceGroups(chosen, tx), SongVid, WeightOf(taste, tx), all)
    ensures var score := MixScore(chosen, taste, tx);
            Presents(ToTracks(Ranking(FirstSeen(AllListings(chosen, tx)), score), score), SourceGroups(chosen, tx),
                     WeightOf(taste, tx), all)
  {
    var groups, score, bonus := SourceGroups(chosen, tx), MixScore(chosen, taste, tx), WeightOf(taste, tx);
    AllListingsAreBallots(chosen, tx);
    var es := FirstSeen(Ballots(groups, SongVid));
    FirstSeenDistinct(Ballots(groups, SongVid));
    forall e: Entry<Song> | e in es ensures score(e.vid) == Total(groups, SongVid, e.vid) + bonus(e.meta) {
      ListingsAddUp(chosen, tx, e.vid);
      TotalIsPoints(groups, SongVid, e.vid);
      BonusOf(es, taste, tx, e);
    }
    all := RankingIsExact(groups, SongVid, bonus, score);
    forall k | 0 <= k < |all| ensures ItemAt(groups, all[k]).artists != [] {
      SlotsParse(groups, chosen, tx, all[k]);
    }
  }

  // ----- The choice

  lemma {:induction false} ItemsById(fetched: seq<Fetched>, j: nat)
    requires j < |fetched| && DistinctBy(fetched, FetchedId)
    ensures ItemsOf(fetched, fetched[j].id) == fetched[j].items
  {
    if j > 0 {
      assert FetchedId(fetched[0]) != FetchedId(fetched[j]);
      forall a, b | 0 <= a < b < |fetched[1..]| ensures FetchedId(fetched[1..][a]) != FetchedId(fetched[1..][b]) {
        assert FetchedId(fetched[a + 1]) != FetchedId(fetched[b + 1]);
      }
      ItemsById(fetched[1..], j - 1);
    }
  }

  lemma {:induction false} SameOrder(fetched: seq<Fetched>, taste: map<string, real>, tx: Text, order: seq<nat>)
    requires IsOrder(Scored(fetched, taste, tx), AffinityKey, order)
    ensures IsOrder(fetched, AffinityOf(taste, tx), order)
  {
    var scored := Scored(fetched, taste, tx);
    forall a, b | 0 <= a < b < |order|
      ensures Ahead(fetched, AffinityOf(taste, tx), order[a], order[b])
    {
      assert Ahead(scored, AffinityKey, order[a], order[b]);
    }
  }

  /** The playlists at places `variant * 4` and on of the best `m`. */
  function Taken(order: seq<nat>, variant: int, m: nat): seq<nat>
    requires 0 < m <= |order|
  {
    seq(Min(4, m), i requires 0 <= i < Min(4, m) => order[(variant * 4 + i) % m])
  }

  lemma {:induction false} PicksByPosition(scored: seq<Playlist>, variant: int, order: seq<nat>)
    requires scored != [] && IsOrder(scored, AffinityKey, order) && |SortDesc(scored, AffinityKey)| == |order|
    requires forall k | 0 <= k < |order| :: SortDesc(scored, AffinityKey)[k] == scored[order[k]]
    ensures var js := Taken(order, variant, Min(8, |scored|)); var chosen := PickPlaylists(scored, variant).0;
            && |chosen| == |js| == Min(4, |scored|)
            && forall k | 0 <= k < |js| :: js[k] < |scored| && chosen[k] == scored[js[k]]
  {
    SortDescSize(scored);
    var m := Min(8, |scored|);
    assert |Pool(scored)| == m && forall k | 0 <= k < m :: Pool(scored)[k] == scored[order[k]];
  }

  lemma {:induction false} TakenIsChoice(fetched: seq<Fetched>, taste: map<string, real>, variant: int, tx: Text,
                                         order: seq<nat>)
    requires fetched != [] && IsOrder(fetched, AffinityOf(taste, tx), order)
    ensures IsChoice(Taken(order, variant, Min(8, |fetched|)), fetched, taste, variant, tx)
  {
  }

  lemma {:induction false} SourceOf(fetched: seq<Fetched>, taste: map<string, real>, tx: Text, p: Playlist, j: nat)
    requires DistinctBy(fetched, FetchedId) && j < |fetched| && p == Scored(fetched, taste, tx)[j]
    ensures Source(p.affinity, ItemsOf(fetched, p.id))
            == Source(Affinity(fetched[j].items, taste, tx), fetched[j].items)
  {
    ItemsById(fetched, j);
  }

  /** The sources of a mix are those of the playlists chosen, each with its own items and affinity. */
  lemma {:induction false} SourcesAreChosen(fetched: seq<Fetched>, taste: map<string, real>, variant: int, tx: Text)
    returns (js: seq<nat>)
    requires DistinctBy(fetched, FetchedId)
    ensures IsChoice(js, fetched, taste, variant, tx)
    ensures var sources := MixSources(fetched, taste, variant, tx);
            && |sources| == |js|
            && forall k | 0 <= k < |js| ::
                 sources[k] == Source(Affinity(fetched[js[k]].items, taste, tx), fetched[js[k]].items)
  {
    var scored := Scored(fetched, taste, tx);
    var order := SortDescByPosition(scored, AffinityKey);
    SameOrder(fetched, taste, tx, order);
    if fetched == [] {
      js := [];
    } else {
      PicksByPosition(scored, variant, order);
      TakenIsChoice(fetched, taste, variant, tx, order);
      js := Taken(order, variant, Min(8, |fetched|));
      var chosen := PickPlaylists(scored, variant).0;
      forall k | 0 <= k < |js|
        ensures Source(chosen[k].affinity, ItemsOf(fetched, chosen[k].id))
                == Source(Affinity(fetched[js[k]].items, taste, tx), fetched[js[k]].items)
      {
        SourceOf(fetched, taste, tx, chosen[k], js[k]);
      }
    }
  }

  lemma {:induction false} BuiltIsMix(fetched: seq<Fetched>, taste: map<string, real>, variant: int, tx: Text)
    requires DistinctBy(fetched, FetchedId)
    ensures var sources := MixSources(fetched, taste, variant, tx);
            var score := MixScore(sources, taste, tx);
            IsMix(ToTracks(Ranking(FirstSeen(AllListings(sources, tx)), score), score), fetched, taste, variant, tx)
  {
    var js := SourcesAreChosen(fetched, taste, variant, tx);
    var sources := MixSources(fetched, taste, variant, tx);
    var all := ScoresAreExact(sources, taste, tx);
    assert SourceGroups(sources, tx) == GroupsOf(js, fetched, taste, tx);
  }

  /** `MixBuilder.build` once the playlists are fetched, exactly; they come from a dictionary, so no id repeats. */
  method Build(fetched: seq<Fetched>, seeds: seq<Seed>, variant: int, tx: Text)
    returns (tracks: seq<Rerank.Track>, personalized: bool, taste: map<string, real>)
    ensures IsProfile(taste, seeds, tx)
    ensures personalized <==> exists p :: p in fetched && Affinity(p.items, taste, tx) > 0.0
    ensures DistinctBy(fetched, FetchedId) ==> IsMix(tracks, fetched, taste, variant, tx)
    ensures var sources := MixSources(fetched, taste, variant, tx);
            var score := MixScore(sources, taste, tx);
            tracks == ToTracks(Ranking(FirstSeen(AllListings(sources, tx)), score), score)
  {
    taste := TasteProfile(seeds, tx);
    var scored := Scored(fetched, taste, tx);
    var (chosen, isPersonal) := PickPlaylists(scored, variant);
    personalized := isPersonal;
    PersonalizedIff(fetched, seeds, taste, variant, tx);
    if DistinctBy(fetched, FetchedId) {
      BuiltIsMix(fetched, taste, variant, tx);
    }
    tracks := ScoreTracks(Sources(chosen, fetched), taste, tx);
  }

  lemma {:induction false} WeightBound(seeds: seq<Seed>) returns (hi: real)
    ensures 0.0 <= hi && forall s | s in seeds :: s.weight <= hi
  {
    if seeds == [] {
      hi := 0.0;
    } else {
      hi := WeightBound(seeds[..|seeds| - 1]);
      assert seeds == seeds[..|seeds| - 1] + [seeds[|seeds| - 1]];
      hi := if seeds[|seeds| - 1].weight > hi then seeds[|seeds| - 1].weight else hi;
    }
  }

  lemma ScoredNonNegative(fetched: seq<Fetched>, seeds: seq<Seed>, taste: map<string, real>, tx: Text)
    requires IsProfile(taste, seeds, tx)
    ensures forall p | p in Scored(fetched, taste, tx) :: p.affinity >= 0.0
  {
    var hi := WeightBound(seeds);
    forall p | p in Scored(fetched, taste, tx) ensures p.affinity >= 0.0 {
      var i :| 0 <= i < |fetched| && Scored(fetched, taste, tx)[i] == p;
      AffinityWithin(fetched[i].items, seeds, taste, tx, hi);
    }
  }

  lemma PersonalizedIff(fetched: seq<Fetched>, seeds: seq<Seed>, taste: map<string, real>, variant: int, tx: Text)
    requires IsProfile(taste, seeds, tx)
    ensures PickPlaylists(Scored(fetched, taste, tx), variant).1 <==>
            exists p :: p in fetched && Affinity(p.items, taste, tx) > 0.0
  {
    var scored := Scored(fetched, taste, tx);
    if scored != [] {
      ScoredNonNegative(fetched, seeds, taste, tx);
      Fallback(scored);
      assert PickPlaylists(scored, variant).1 == PickPlaylists(scored, 0).1;
      forall p | p in scored
        ensures exists i :: 0 <= i < |fetched|
                            && p == Playlist(fetched[i].id, Affinity(fetched[i].items, taste, tx))
      {
        var i :| 0 <= i < |scored| && scored[i] == p;
      }
      forall q | q in fetched ensures Playlist(q.id, Affinity(q.items, taste, tx)) in scored {
        var i :| 0 <= i < |fetched| && fetched[i] == q;
        assert scored[i] == Playlist(q.id, Affinity(q.items, taste, tx));
      }
    }
  }
}
