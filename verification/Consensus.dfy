/** What a ranking by points over several lists is, exactly: each listed thing once, best total first, ties by where
    it was listed first. */
module Consensus {
  import opened Wrappers
  import opened StableSort
  import opened Sums
  import opened Tally

  /** A list some of whose entries do not count; `points` is what its entries that do are worth, by rank. */
  datatype Group<!M> = Group(slots: seq<Option<M>>, points: nat -> real)

  /** Where something is listed: which list, and which entry. */
  type Place = (nat, nat)

  /** Of the first `p` entries those that count. */
  function Counting<M>(slots: seq<Option<M>>, p: nat): set<nat>
    requires p <= |slots|
  {
    set q | 0 <= q < p && slots[q].Some?
  }

  /** The rank of an entry among those that count. */
  function Rank<M>(slots: seq<Option<M>>, p: nat): nat
    requires p <= |slots|
  {
    |Counting(slots, p)|
  }

  lemma {:induction false} RankStep<M>(slots: seq<Option<M>>, n: nat)
    requires 0 < n <= |slots|
    ensures Rank(slots, 0) == 0 && Rank(slots, n) == Rank(slots, n - 1) + if slots[n - 1].Some? then 1 else 0
  {
    var before := Counting(slots, n - 1);
    assert Counting(slots, n) == if slots[n - 1].Some? then before + {n - 1} else before;
    assert Counting(slots, 0) == {};
  }

  predicate Lists<M>(groups: seq<Group<M>>, at: Place) {
    at.0 < |groups| && at.1 < |groups[at.0].slots| && groups[at.0].slots[at.1].Some?
  }

  function ItemAt<M>(groups: seq<Group<M>>, at: Place): M
    requires Lists(groups, at)
  {
    groups[at.0].slots[at.1].value
  }

  predicate Earlier(a: Place, b: Place) { a.0 < b.0 || (a.0 == b.0 && a.1 < b.1) }

  /** The first place its thing is listed. */
  ghost predicate IsFirst<M>(groups: seq<Group<M>>, id: M -> string, at: Place) {
    Lists(groups, at)
    && forall b | Lists(groups, b) && Earlier(b, at) :: id(ItemAt(groups, b)) != id(ItemAt(groups, at))
  }

  /** What the first `n` entries of a list give to `v`. */
  function Given<M>(g: Group<M>, id: M -> string, v: string, n: nat): real
    requires n <= |g.slots|
  {
    if n == 0 then 0.0 else
      Given(g, id, v, n - 1)
      + if g.slots[n - 1].Some? && id(g.slots[n - 1].value) == v then g.points(Rank(g.slots, n - 1)) else 0.0
  }

  /** What all lists give to `v`. */
  function Total<M>(groups: seq<Group<M>>, id: M -> string, v: string): real {
    if groups == [] then 0.0 else
      var g := groups[|groups| - 1];
      Total(groups[..|groups| - 1], id, v) + Given(g, id, v, |g.slots|)
  }

  /** The score of what is listed at a place: its total and what its description there earns. */
  function ScoreAt<M>(groups: seq<Group<M>>, id: M -> string, bonus: M -> real, at: Place): real
    requires Lists(groups, at)
  {
    Total(groups, id, id(ItemAt(groups, at))) + bonus(ItemAt(groups, at))
  }

  predicate Outranks<M>(groups: seq<Group<M>>, id: M -> string, bonus: M -> real, a: Place, b: Place)
    requires Lists(groups, a) && Lists(groups, b)
  {
    ScoreAt(groups, id, bonus, a) > ScoreAt(groups, id, bonus, b)
    || (ScoreAt(groups, id, bonus, a) == ScoreAt(groups, id, bonus, b) && Earlier(a, b))
  }

  /** `all` are the first places of everything listed, in the order of the scores. */
  ghost predicate IsRanking<M>(groups: seq<Group<M>>, id: M -> string, bonus: M -> real, all: seq<Place>) {
    && (forall k | 0 <= k < |all| :: IsFirst(groups, id, all[k]))
    && (forall i, j | 0 <= i < j < |all| :: Outranks(groups, id, bonus, all[i], all[j]))
    && (forall at | IsFirst(groups, id, at) :: at in all)
  }

  /** Python's `s[:n]` of a list of length `size`. */
  function Cut(size: nat, n: int): nat { if n >= 0 then Min(n, size) else if size + n >= 0 then size + n else 0 }

  // ----- The ballots of the nested loops

  function BallotsTo<M>(g: Group<M>, id: M -> string, n: nat): seq<Ballot<M>>
    requires n <= |g.slots|
  {
    if n == 0 then [] else
      BallotsTo(g, id, n - 1)
      + if g.slots[n - 1].Some?
        then [Ballot(id(g.slots[n - 1].value), g.slots[n - 1].value, g.points(Rank(g.slots, n - 1)))] else []
  }

  function Ballots<M>(groups: seq<Group<M>>, id: M -> string): seq<Ballot<M>> {
    if groups == [] then [] else
      var g := groups[|groups| - 1];
      Ballots(groups[..|groups| - 1], id) + BallotsTo(g, id, |g.slots|)
  }

  lemma {:induction false} BallotsStep<M>(g: Group<M>, id: M -> string, n: nat, worth: real)
    requires n < |g.slots| && worth == g.points(Rank(g.slots, n))
    ensures BallotsTo(g, id, n + 1)
            == BallotsTo(g, id, n)
               + if g.slots[n].Some? then [Ballot(id(g.slots[n].value), g.slots[n].value, worth)] else []
    ensures Rank(g.slots, n + 1) == Rank(g.slots, n) + if g.slots[n].Some? then 1 else 0
  {
    RankStep(g.slots, n + 1);
  }

  lemma {:induction false} GivenIsPoints<M>(g: Group<M>, id: M -> string, v: string, n: nat)
    requires n <= |g.slots|
    ensures Points(BallotsTo(g, id, n), v) == Given(g, id, v, n)
  {
    if n > 0 {
      GivenIsPoints(g, id, v, n - 1);
      var last := if g.slots[n - 1].Some?
        then [Ballot(id(g.slots[n - 1].value), g.slots[n - 1].value, g.points(Rank(g.slots, n - 1)))] else [];
      PointsConcat(BallotsTo(g, id, n - 1), last, v);
      if last != [] {
        SumSnoc([], last[0], PointsFor(v));
        assert [] + [last[0]] == last;
      }
    }
  }

  lemma {:induction false} TotalIsPoints<M>(groups: seq<Group<M>>, id: M -> string, v: string)
    ensures Points(Ballots(groups, id), v) == Total(groups, id, v)
  {
    if groups != [] {
      var r, g := groups[..|groups| - 1], groups[|groups| - 1];
      TotalIsPoints(r, id, v);
      GivenIsPoints(g, id, v, |g.slots|);
      PointsConcat(Ballots(r, id), BallotsTo(g, id, |g.slots|), v);
    }
  }

  /** The places of the first `n` entries of list `s` that count. */
  function PlacesTo<M>(s: nat, g: Group<M>, n: nat): seq<Place>
    requires n <= |g.slots|
  {
    if n == 0 then [] else PlacesTo(s, g, n - 1) + if g.slots[n - 1].Some? then [(s, n - 1)] else []
  }

  function Places<M>(groups: seq<Group<M>>): seq<Place> {
    if groups == [] then [] else
      var n := |groups| - 1;
      Places(groups[..n]) + PlacesTo(n, groups[n], |groups[n].slots|)
  }

  lemma {:induction false} PlacesToAre<M>(s: nat, g: Group<M>, id: M -> string, n: nat)
    requires n <= |g.slots|
    ensures var ps, bs := PlacesTo(s, g, n), BallotsTo(g, id, n);
            && |ps| == |bs|
            && (forall k | 0 <= k < |ps| ::
                  ps[k].0 == s && ps[k].1 < n && g.slots[ps[k].1].Some?
                  && bs[k].meta == g.slots[ps[k].1].value && bs[k].vid == id(bs[k].meta))
            && (forall i, j | 0 <= i < j < |ps| :: Earlier(ps[i], ps[j]))
            && (forall p: nat | p < n && g.slots[p].Some? :: (s, p) in ps)
  {
    if n > 0 {
      PlacesToAre(s, g, id, n - 1);
    }
  }

  /** The ballots come from the places, in order. */
  ghost predicate Match<M>(groups: seq<Group<M>>, id: M -> string, ps: seq<Place>, bs: seq<Ballot<M>>) {
    && |ps| == |bs|
    && (forall k | 0 <= k < |ps| ::
          Lists(groups, ps[k]) && bs[k].meta == ItemAt(groups, ps[k]) && bs[k].vid == id(bs[k].meta))
    && (forall i, j | 0 <= i < j < |ps| :: Earlier(ps[i], ps[j]))
    && (forall at | Lists(groups, at) :: at in ps)
  }

  lemma {:induction false} ListsMore<M>(r: seq<Group<M>>, g: Group<M>, at: Place)
    ensures Lists(r + [g], at) <==> Lists(r, at) || (at.0 == |r| && at.1 < |g.slots| && g.slots[at.1].Some?)
    ensures Lists(r, at) ==> ItemAt(r + [g], at) == ItemAt(r, at)
  {
  }

  lemma {:induction false} AllPlaces<M>(r: seq<Group<M>>, g: Group<M>, a: seq<Place>, b: seq<Place>)
    requires forall at | Lists(r, at) :: at in a
    requires forall p: nat | p < |g.slots| && g.slots[p].Some? :: (|r|, p) in b
    ensures forall at | Lists(r + [g], at) :: at in a + b
  {
    forall at: Place | Lists(r + [g], at) ensures at in a + b {
      ListsMore(r, g, at);
      var here: Place := (|r|, at.1);
      assert at.0 == |r| ==> at == here;
    }
  }

  lemma {:induction false} MatchStep<M>(r: seq<Group<M>>, g: Group<M>, id: M -> string)
    requires Match(r, id, Places(r), Ballots(r, id))
    ensures Match(r + [g], id, Places(r) + PlacesTo(|r|, g, |g.slots|), Ballots(r, id) + BallotsTo(g, id, |g.slots|))
  {
    var a, b := Places(r), PlacesTo(|r|, g, |g.slots|);
    var bs := Ballots(r, id) + BallotsTo(g, id, |g.slots|);
    PlacesToAre(|r|, g, id, |g.slots|);
    AllPlaces(r, g, a, b);
    forall k | 0 <= k < |a + b|
      ensures Lists(r + [g], (a + b)[k]) && bs[k].meta == ItemAt(r + [g], (a + b)[k]) && bs[k].vid == id(bs[k].meta)
    {
      ListsMore(r, g, (a + b)[k]);
    }
    forall i, j | 0 <= i < j < |a + b| ensures Earlier((a + b)[i], (a + b)[j]) {
      assert i < |a| ==> Lists(r, a[i]);
    }
  }

  lemma {:induction false} PlacesMatch<M>(groups: seq<Group<M>>, id: M -> string)
    ensures Match(groups, id, Places(groups), Ballots(groups, id))
  {
    if groups != [] {
      var n := |groups| - 1;
      PlacesMatch(groups[..n], id);
      MatchStep(groups[..n], groups[n], id);
      assert groups[..n] + [groups[n]] == groups;
    }
  }

  // ----- First places

  /** No earlier ballot is for the same thing. */
  ghost predicate FreshAt<M>(bs: seq<Ballot<M>>, m: nat) {
    m < |bs| && bs[m].vid !in Vids(bs[..m])
  }

  /** `firsts` are the positions of the ballots that a description was taken from. */
  ghost predicate AreFirsts<M>(bs: seq<Ballot<M>>, es: seq<Entry<M>>, firsts: seq<nat>) {
    && |firsts| == |es|
    && (forall k | 0 <= k < |es| :: FreshAt(bs, firsts[k]) && es[k] == Entry(bs[firsts[k]].vid, bs[firsts[k]].meta))
    && (forall i, j | 0 <= i < j < |firsts| :: firsts[i] < firsts[j])
    && Listed(es) == Vids(bs)
  }

  lemma {:induction false} FreshMeans<M>(bs: seq<Ballot<M>>, m: nat)
    requires FreshAt(bs, m)
    ensures forall b | 0 <= b < m :: bs[b].vid != bs[m].vid
  {
    forall b | 0 <= b < m ensures bs[b].vid != bs[m].vid {
      assert bs[b] in bs[..m];
    }
  }

  lemma {:induction false} FreshStays<M>(r: seq<Ballot<M>>, b: Ballot<M>, m: nat)
    requires FreshAt(r, m)
    ensures FreshAt(r + [b], m) && (r + [b])[m] == r[m]
  {
    assert (r + [b])[..m] == r[..m];
  }

  lemma {:induction false} FirstsStep<M>(r: seq<Ballot<M>>, b: Ballot<M>, es: seq<Entry<M>>, firsts: seq<nat>)
    requires AreFirsts(r, es, firsts)
    ensures b.vid in Vids(r) ==> AreFirsts(r + [b], es, firsts)
    ensures b.vid !in Vids(r) ==> AreFirsts(r + [b], es + [Entry(b.vid, b.meta)], firsts + [|r|])
  {
    forall k | 0 <= k < |es| ensures FreshAt(r + [b], firsts[k]) && (r + [b])[firsts[k]] == r[firsts[k]] {
      FreshStays(r, b, firsts[k]);
    }
    assert Vids(r + [b]) == Vids(r) + {b.vid};
    assert Listed(es + [Entry(b.vid, b.meta)]) == Listed(es) + {b.vid};
    assert (r + [b])[..|r|] == r;
  }

  lemma {:induction false} FirstsOf<M>(bs: seq<Ballot<M>>) returns (firsts: seq<nat>)
    ensures AreFirsts(bs, FirstSeen(bs), firsts)
  {
    if bs == [] {
      firsts := [];
    } else {
      var r, b := bs[..|bs| - 1], bs[|bs| - 1];
      firsts := FirstsOf(r);
      FirstSeenStep(r, b);
      assert r + [b] == bs;
      FirstsStep(r, b, FirstSeen(r), firsts);
      firsts := if b.vid in Vids(r) then firsts else firsts + [|r|];
    }
  }

  lemma {:induction false} FirstPlace<M>(groups: seq<Group<M>>, id: M -> string, ps: seq<Place>, bs: seq<Ballot<M>>,
                                         m: nat)
    requires Match(groups, id, ps, bs) && FreshAt(bs, m)
    ensures IsFirst(groups, id, ps[m])
  {
    forall at | Lists(groups, at) && Earlier(at, ps[m]) ensures id(ItemAt(groups, at)) != id(ItemAt(groups, ps[m])) {
      var b :| 0 <= b < |ps| && ps[b] == at;
      assert m < b ==> Earlier(ps[m], ps[b]);
      assert bs[b] in bs[..m];
    }
  }

  /** The entries of the dictionary, as first places. */
  ghost predicate Entries<M>(groups: seq<Group<M>>, id: M -> string, es: seq<Entry<M>>, at: seq<Place>) {
    && |at| == |es|
    && (forall k | 0 <= k < |es| ::
          IsFirst(groups, id, at[k]) && es[k] == Entry(id(ItemAt(groups, at[k])), ItemAt(groups, at[k])))
    && (forall i, j | 0 <= i < j < |at| :: Earlier(at[i], at[j]))
    && (forall a | IsFirst(groups, id, a) :: a in at)
  }

  lemma {:induction false} SameBallot<M>(groups: seq<Group<M>>, id: M -> string, ps: seq<Place>, bs: seq<Ballot<M>>,
                                         b: nat, m: nat)
    requires Match(groups, id, ps, bs) && b < |bs| && IsFirst(groups, id, ps[b])
    requires FreshAt(bs, m) && bs[m].vid == bs[b].vid
    ensures b == m
  {
    FreshMeans(bs, m);
    assert Lists(groups, ps[m]) && !Earlier(ps[m], ps[b]);
  }

  lemma {:induction false} EntriesFrom<M>(groups: seq<Group<M>>, id: M -> string, ps: seq<Place>, bs: seq<Ballot<M>>,
                                          es: seq<Entry<M>>, firsts: seq<nat>, at: seq<Place>)
    requires Match(groups, id, ps, bs) && AreFirsts(bs, es, firsts)
    requires |at| == |firsts| && forall k | 0 <= k < |firsts| :: at[k] == ps[firsts[k]]
    ensures Entries(groups, id, es, at)
  {
    forall k | 0 <= k < |es| ensures IsFirst(groups, id, at[k]) {
      FirstPlace(groups, id, ps, bs, firsts[k]);
    }
    forall a | IsFirst(groups, id, a) ensures a in at {
      var b :| 0 <= b < |ps| && ps[b] == a;
      assert bs[b] in bs && bs[b].vid in Listed(es);
      var e :| e in es && e.vid == bs[b].vid;
      var k :| 0 <= k < |es| && es[k] == e;
      SameBallot(groups, id, ps, bs, b, firsts[k]);
      assert at[k] == a;
    }
  }

  lemma {:induction false} EntriesOf<M>(groups: seq<Group<M>>, id: M -> string) returns (at: seq<Place>)
    ensures Entries(groups, id, FirstSeen(Ballots(groups, id)), at)
  {
    var bs, ps := Ballots(groups, id), Places(groups);
    PlacesMatch(groups, id);
    var firsts := FirstsOf(bs);
    at := seq(|firsts|, k requires 0 <= k < |firsts| => ps[firsts[k]]);
    EntriesFrom(groups, id, ps, bs, FirstSeen(bs), firsts, at);
  }

  lemma {:induction false} SortedEntries<M>(groups: seq<Group<M>>, id: M -> string, bonus: M -> real,
                                            score: string -> real, es: seq<Entry<M>>, at: seq<Place>,
                                            order: seq<nat>, all: seq<Place>)
    requires Entries(groups, id, es, at) && IsOrder(es, (e: Entry<M>) => score(e.vid), order)
    requires forall i | 0 <= i < |es| :: score(es[i].vid) == ScoreAt(groups, id, bonus, at[i])
    requires |all| == |order| && forall k | 0 <= k < |order| :: all[k] == at[order[k]]
    ensures IsRanking(groups, id, bonus, all)
  {
    forall k | 0 <= k < |all| ensures IsFirst(groups, id, all[k]) {
      assert all[k] == at[order[k]];
    }
    forall i, j | 0 <= i < j < |all| ensures Outranks(groups, id, bonus, all[i], all[j]) {
      assert Ahead(es, (e: Entry<M>) => score(e.vid), order[i], order[j]);
    }
    forall a | IsFirst(groups, id, a) ensures a in all {
      var i :| 0 <= i < |at| && at[i] == a;
      assert i in order;
      var k :| 0 <= k < |order| && order[k] == i;
      assert all[k] == a;
    }
  }

  /** Sorting the dictionary by any score that agrees with the totals on its entries gives the ranking. */
  lemma {:induction false} RankingIsExact<M>(groups: seq<Group<M>>, id: M -> string, bonus: M -> real,
                                             score: string -> real)
    returns (all: seq<Place>)
    requires forall e: Entry<M> | e in FirstSeen(Ballots(groups, id)) ::
               score(e.vid) == Total(groups, id, e.vid) + bonus(e.meta)
    ensures IsRanking(groups, id, bonus, all)
    ensures var r := Ranking(FirstSeen(Ballots(groups, id)), score);
            && |r| == |all|
            && forall k | 0 <= k < |r| ::
                 r[k] == Entry(id(ItemAt(groups, all[k])), ItemAt(groups, all[k]))
                 && score(r[k].vid) == ScoreAt(groups, id, bonus, all[k])
  {
    var es := FirstSeen(Ballots(groups, id));
    var at := EntriesOf(groups, id);
    var order := SortDescByPosition(es, (e: Entry<M>) => score(e.vid));
    all := seq(|order|, k requires 0 <= k < |order| => at[order[k]]);
    forall i | 0 <= i < |es| ensures score(es[i].vid) == ScoreAt(groups, id, bonus, at[i]) {
      assert es[i] in es;
    }
    SortedEntries(groups, id, bonus, score, es, at, order, all);
  }
}
