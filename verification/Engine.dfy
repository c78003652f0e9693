/** Consensus scoring of the YouTube Music engine.

    Searches and playlist fetches are foreign: each seed arrives already expanded, as the video it
    resolved to (if any) and its candidate list. Python dictionaries iterate in insertion order, so
    `scores` is a map together with the sequence of its keys.
 */
module Engine {
  import opened Wrappers
  import opened StableSort
  import opened Sums
  import opened Tally
  import opened Consensus
  import Rerank

  datatype Candidate = Candidate(vid: string, title: string, artist: string)

  /** One seed after `_expand`: its own video, its candidates, its weight. */
  datatype Expansion = Expansion(seedVid: Option<string>, cands: seq<Candidate>, weight: real)

  const DECAY := 0.1

  // ----- Interleaving radio and related shelf

  ghost function VidsOf(s: seq<Candidate>): set<string> { set c | c in s :: c.vid }

  function CandidateVid(c: Candidate): string { c.vid }

  ghost predicate DistinctVids(s: seq<Candidate>) { DistinctBy(s, CandidateVid) }

  /** Video `vid` is listed at position `at` or before. */
  ghost predicate ListedBy(s: seq<Candidate>, vid: string, at: int) {
    exists p :: 0 <= p < |s| && p <= at && s[p].vid == vid
  }

  lemma ListedByGrows(s: seq<Candidate>, t: seq<Candidate>, vid: string, at: int)
    requires ListedBy(s, vid, at) && s <= t
    ensures ListedBy(t, vid, at)
  {
    var p :| 0 <= p < |s| && p <= at && s[p].vid == vid;
    assert t[p] == s[p];
  }

  lemma ListedSomewhere(s: seq<Candidate>, vid: string)
    requires vid in VidsOf(s)
    ensures ListedBy(s, vid, |s| - 1)
  {
    var c :| c in s && c.vid == vid;
    var p :| 0 <= p < |s| && s[p] == c;
  }

  /** `out` so far, with the shelves `radio[..i]` and `related[..j]` walked. */
  ghost predicate Interleaved(out: seq<Candidate>, radio: seq<Candidate>, i: nat, related: seq<Candidate>, j: nat)
    requires i <= |radio| && j <= |related|
  {
    && DistinctVids(out)
    && (forall c | c in out :: c in radio || c in related)
    && (forall k | 0 <= k < i :: ListedBy(out, radio[k].vid, 2 * k))
    && (forall k | 0 <= k < j :: ListedBy(out, related[k].vid, 2 * k + 1))
  }

  function Push(out: seq<Candidate>, c: Candidate): seq<Candidate> {
    if exists d :: d in out && d.vid == c.vid then out else out + [c]
  }

  lemma PushKeeps(out: seq<Candidate>, c: Candidate, radio: seq<Candidate>, i: nat, related: seq<Candidate>, j: nat)
    requires i <= |radio| && j <= |related| && Interleaved(out, radio, i, related, j)
    requires c in radio || c in related
    ensures Interleaved(Push(out, c), radio, i, related, j)
    ensures out <= Push(out, c) && |Push(out, c)| <= |out| + 1
    ensures VidsOf(Push(out, c)) == VidsOf(out) + {c.vid}
    ensures Push(out, c) == if c.vid in VidsOf(out) then out else out + [c]
  {
    var next := Push(out, c);
    assert VidsOf(next) == VidsOf(out) + {c.vid};
    forall k | 0 <= k < i ensures ListedBy(next, radio[k].vid, 2 * k) {
      ListedByGrows(out, next, radio[k].vid, 2 * k);
    }
    forall k | 0 <= k < j ensures ListedBy(next, related[k].vid, 2 * k + 1) {
      ListedByGrows(out, next, related[k].vid, 2 * k + 1);
    }
    forall p, q | 0 <= p < q < |next| ensures next[p].vid != next[q].vid {
      assert next[p] in out;
    }
  }

  lemma RadioStep(out: seq<Candidate>, radio: seq<Candidate>, i: nat, related: seq<Candidate>, j: nat)
    requires i < |radio| && j <= |related| && Interleaved(out, radio, i, related, j) && |out| <= 2 * i
    ensures Interleaved(Push(out, radio[i]), radio, i + 1, related, j)
  {
    PushKeeps(out, radio[i], radio, i, related, j);
    ListedSomewhere(Push(out, radio[i]), radio[i].vid);
  }

  lemma RelatedStep(out: seq<Candidate>, radio: seq<Candidate>, i: nat, related: seq<Candidate>, j: nat)
    requires i <= |radio| && j < |related| && Interleaved(out, radio, i, related, j) && |out| <= 2 * j + 1
    ensures Interleaved(Push(out, related[j]), radio, i, related, j + 1)
  {
    PushKeeps(out, related[j], radio, i, related, j);
    ListedSomewhere(Push(out, related[j]), related[j].vid);
  }

  lemma InterleavedAll(out: seq<Candidate>, radio: seq<Candidate>, related: seq<Candidate>)
    requires Interleaved(out, radio, |radio|, related, |related|)
    ensures VidsOf(out) == VidsOf(radio) + VidsOf(related)
  {
    forall k | 0 <= k < |radio| ensures radio[k].vid in VidsOf(out) {
      assert ListedBy(out, radio[k].vid, 2 * k);
    }
    forall k | 0 <= k < |related| ensures related[k].vid in VidsOf(out) {
      assert ListedBy(out, related[k].vid, 2 * k + 1);
    }
  }

  /** `radio` and `related` walked for `i` rounds. */
  ghost predicate AfterRounds(out: seq<Candidate>, radio: seq<Candidate>, related: seq<Candidate>, i: nat) {
    && |out| <= 2 * i
    && Interleaved(out, radio, Min(i, |radio|), related, Min(i, |related|))
  }

  function At(s: seq<Candidate>, i: nat): Option<Candidate> { if i < |s| then Some(s[i]) else None }

  function PushSome(out: seq<Candidate>, c: Option<Candidate>): seq<Candidate> {
    if c.Some? then Push(out, c.value) else out
  }

  lemma Round(out: seq<Candidate>, radio: seq<Candidate>, related: seq<Candidate>, i: nat)
    requires AfterRounds(out, radio, related, i)
    ensures AfterRounds(PushSome(PushSome(out, At(radio, i)), At(related, i)), radio, related, i + 1)
  {
    var mid := PushSome(out, At(radio, i));
    if i < |radio| {
      RadioStep(out, radio, i, related, Min(i, |related|));
    }
    if i < |related| {
      RelatedStep(mid, radio, Min(i + 1, |radio|), related, i);
    }
  }

  // ----- The interleaving, exactly

  /** The shelves side by side: the `i`-th of the radio, then the `i`-th of the related shelf. */
  function Shelves(radio: seq<Candidate>, related: seq<Candidate>, n: nat): seq<Group<Candidate>> {
    seq(n, i requires 0 <= i < n => Group([At(radio, i), At(related, i)], (rank: nat) => 0.0))
  }

  /** `out` is what the shelves list, read side by side, each video once, where it comes first. */
  ghost predicate Interleaves(out: seq<Candidate>, radio: seq<Candidate>, related: seq<Candidate>) {
    var shelves := Shelves(radio, related, if |radio| < |related| then |related| else |radio|);
    exists at :: Entries(shelves, CandidateVid, Described(out), at)
  }

  function Described(out: seq<Candidate>): seq<Entry<Candidate>> {
    seq(|out|, k requires 0 <= k < |out| => Entry(out[k].vid, out[k]))
  }

  lemma {:induction false} DescribedLists(out: seq<Candidate>)
    ensures Listed(Described(out)) == VidsOf(out)
  {
    var es := Described(out);
    forall v ensures v in Listed(es) <==> v in VidsOf(out) {
      if v in VidsOf(out) {
        var c :| c in out && c.vid == v;
        var k :| 0 <= k < |out| && out[k] == c;
        assert es[k] in es && es[k].vid == v;
      }
      if v in Listed(es) {
        var e :| e in es && e.vid == v;
        var k :| 0 <= k < |es| && es[k] == e;
        assert out[k] in out;
      }
    }
  }

  lemma {:induction false} PushIsSeen(out: seq<Candidate>, bs: seq<Ballot<Candidate>>, c: Candidate, x: real)
    requires Described(out) == FirstSeen(bs)
    ensures Described(Push(out, c)) == FirstSeen(bs + [Ballot(c.vid, c, x)])
  {
    FirstSeenStep(bs, Ballot(c.vid, c, x));
    FirstSeenListed(bs);
    DescribedLists(out);
    assert c.vid in VidsOf(out) <==> exists d :: d in out && d.vid == c.vid;
  }

  lemma {:induction false} PushSomeIsSeen(out: seq<Candidate>, bs: seq<Ballot<Candidate>>, c: Option<Candidate>,
                                          x: real, more: seq<Ballot<Candidate>>)
    requires Described(out) == FirstSeen(bs)
    requires more == if c.Some? then [Ballot(CandidateVid(c.value), c.value, x)] else []
    ensures Described(PushSome(out, c)) == FirstSeen(bs + more)
  {
    if c.Some? {
      PushIsSeen(out, bs, c.value, x);
    } else {
      assert bs + more == bs;
    }
  }

  lemma {:induction false} RoundIsSeen(out: seq<Candidate>, bs: seq<Ballot<Candidate>>, g: Group<Candidate>,
                                       a: Option<Candidate>, b: Option<Candidate>)
    requires Described(out) == FirstSeen(bs) && g.slots == [a, b]
    ensures Described(PushSome(PushSome(out, a), b)) == FirstSeen(bs + BallotsTo(g, CandidateVid, 2))
  {
    var x, y := g.points(Rank(g.slots, 0)), g.points(Rank(g.slots, 1));
    BallotsStep(g, CandidateVid, 0, x);
    BallotsStep(g, CandidateVid, 1, y);
    var one := BallotsTo(g, CandidateVid, 1);
    var two := if b.Some? then [Ballot(CandidateVid(b.value), b.value, y)] else [];
    PushSomeIsSeen(out, bs, a, x, one);
    PushSomeIsSeen(PushSome(out, a), bs + one, b, y, two);
    assert bs + one + two == bs + BallotsTo(g, CandidateVid, 2);
  }

  /** `out` is right for the first `i` rounds. */
  ghost predicate SeenAfter(out: seq<Candidate>, shelves: seq<Group<Candidate>>, i: nat)
    requires i <= |shelves|
  {
    Described(out) == FirstSeen(Ballots(shelves[..i], CandidateVid))
  }

  lemma {:induction false} SeenRound(out: seq<Candidate>, radio: seq<Candidate>, related: seq<Candidate>, n: nat,
                                     i: nat)
    requires i < n && SeenAfter(out, Shelves(radio, related, n), i)
    ensures SeenAfter(PushSome(PushSome(out, At(radio, i)), At(related, i)), Shelves(radio, related, n), i + 1)
  {
    var shelves := Shelves(radio, related, n);
    RoundIsSeen(out, Ballots(shelves[..i], CandidateVid), shelves[i], At(radio, i), At(related, i));
    assert shelves[..i + 1][..i] == shelves[..i];
  }

  lemma {:induction false} SeenAll(out: seq<Candidate>, radio: seq<Candidate>, related: seq<Candidate>, n: nat)
    requires n == (if |radio| < |related| then |related| else |radio|) && SeenAfter(out, Shelves(radio, related, n), n)
    ensures Interleaves(out, radio, related)
  {
    var shelves := Shelves(radio, related, n);
    assert shelves[..n] == shelves;
    var at := EntriesOf(shelves, CandidateVid);
  }

  lemma {:induction false} SeenNone(radio: seq<Candidate>, related: seq<Candidate>, n: nat)
    ensures SeenAfter([], Shelves(radio, related, n), 0)
  {
  }

  method Visit(out: seq<Candidate>, seen: set<string>, c: Option<Candidate>)
    returns (out': seq<Candidate>, seen': set<string>)
    requires seen == VidsOf(out)
    ensures out' == PushSome(out, c) && seen' == VidsOf(out')
  {
    out', seen' := out, seen;
    if c.Some? && c.value.vid !in seen {
      out', seen' := out + [c.value], seen + {c.value.vid};
    }
  }

  /** The tail of `_song_neighbours`: interleave, dropping repeats. */
  method SongNeighbours(radio: seq<Candidate>, related: seq<Candidate>) returns (out: seq<Candidate>)
    ensures DistinctVids(out)
    ensures VidsOf(out) == VidsOf(radio) + VidsOf(related)
    ensures forall c | c in out :: c in radio || c in related
    ensures forall i | 0 <= i < |radio| :: ListedBy(out, radio[i].vid, 2 * i)
    ensures forall j | 0 <= j < |related| :: ListedBy(out, related[j].vid, 2 * j + 1)
    ensures Interleaves(out, radio, related)
  {
    out := [];
    var seen: set<string> := {};
    var n := if |radio| < |related| then |related| else |radio|;
    SeenNone(radio, related, n);
    for i := 0 to n
      invariant seen == VidsOf(out)
      invariant SeenAfter(out, Shelves(radio, related, n), i)
      invariant AfterRounds(out, radio, related, i)
    {
      Round(out, radio, related, i);
      SeenRound(out, radio, related, n, i);
      out, seen := Visit(out, seen, At(radio, i));
      out, seen := Visit(out, seen, At(related, i));
    }
    InterleavedAll(out, radio, related);
    SeenAll(out, radio, related, n);
  }

  // ----- What a seed contributes

  /** The candidates that are no seed's own video, in order. */
  function NotSeeds(cands: seq<Candidate>, seedVids: set<string>): seq<Candidate> {
    if cands == [] then [] else
      var c := cands[|cands| - 1];
      NotSeeds(cands[..|cands| - 1], seedVids) + if c.vid in seedVids then [] else [c]
  }

  function SeedVids(exps: seq<Expansion>): set<string> {
    set e | e in exps && e.seedVid.Some? && e.seedVid.value != "" :: e.seedVid.value
  }

  /** A seed's vote at a rank of its own list. */
  function VoteAt(weight: real, rank: nat): real { weight / (1.0 + DECAY * rank as real) }

  /** The votes of one list, rank by rank. */
  function Votes(kept: seq<Candidate>, weight: real): seq<Ballot<Candidate>> {
    if kept == [] then [] else
      var n := |kept| - 1;
      Votes(kept[..n], weight) + [Ballot(kept[n].vid, kept[n], VoteAt(weight, n))]
  }

  function VotesOf(e: Expansion, seedVids: set<string>): seq<Ballot<Candidate>> {
    Votes(NotSeeds(e.cands, seedVids), e.weight)
  }

  /** Every vote, in the order the nested loops cast them. */
  function AllVotes(exps: seq<Expansion>, seedVids: set<string>): seq<Ballot<Candidate>> {
    if exps == [] then [] else
      var n := |exps| - 1;
      AllVotes(exps[..n], seedVids) + VotesOf(exps[n], seedVids)
  }

  /** What one seed gives to `vid`. */
  function FromSeed(seedVids: set<string>, vid: string): Expansion -> real {
    (e: Expansion) => Points(VotesOf(e, seedVids), vid)
  }

  /** The consensus score: what each seed occurrence gives, added up. */
  function Score(exps: seq<Expansion>, vid: string): real { Sum(exps, FromSeed(SeedVids(exps), vid)) }

  function ToTrack(e: Entry<Candidate>, score: real): Rerank.Track {
    Rerank.Track(e.meta.title, e.meta.artist, Rerank.WATCH_URL + e.vid, Some(score))
  }

  // ----- What the answer is, from the candidate lists alone

  /** An entry of a seed's list, unless it is some seed's own video. */
  function Counted(c: Candidate, seedVids: set<string>): Option<Candidate> {
    if c.vid in seedVids then None else Some(c)
  }

  /** A seed's list: each candidate that counts is worth the seed's weight, less a tenth per rank. */
  function GroupOf(e: Expansion, seedVids: set<string>): Group<Candidate> {
    Group(seq(|e.cands|, p requires 0 <= p < |e.cands| => Counted(e.cands[p], seedVids)),
          (rank: nat) => e.weight / (1.0 + 0.1 * rank as real))
  }

  function Groups(exps: seq<Expansion>, seedVids: set<string>): seq<Group<Candidate>> {
    seq(|exps|, s requires 0 <= s < |exps| => GroupOf(exps[s], seedVids))
  }

  function NoBonus(c: Candidate): real { 0.0 }

  /** The first `limit` of the ranking, each with the title and artist it was first listed with. */
  ghost predicate Presents(tracks: seq<Rerank.Track>, groups: seq<Group<Candidate>>, all: seq<Place>, limit: int) {
    && |tracks| == Cut(|all|, limit)
    && forall k | 0 <= k < |tracks| ::
         && Consensus.Lists(groups, all[k])
         && var c := ItemAt(groups, all[k]);
            tracks[k] == Rerank.Track(c.title, c.artist, "https://music.youtube.com/watch?v=" + c.vid,
                                      Some(ScoreAt(groups, CandidateVid, NoBonus, all[k])))
  }

  /** `recommend`'s answer: the videos listed by the seeds and no seed's own, by their summed votes, ties in the
      order they were first listed. */
  ghost predicate IsAnswer(tracks: seq<Rerank.Track>, exps: seq<Expansion>, limit: int) {
    var own := set e | e in exps && e.seedVid.Some? && e.seedVid.value != "" :: e.seedVid.value;
    exists all :: IsRanking(Groups(exps, own), CandidateVid, NoBonus, all)
                  && Presents(tracks, Groups(exps, own), all, limit)
  }

  lemma {:induction false} NotSeedsSnoc(cands: seq<Candidate>, n: nat, seedVids: set<string>)
    requires n < |cands|
    ensures NotSeeds(cands[..n + 1], seedVids)
            == NotSeeds(cands[..n], seedVids) + if cands[n].vid in seedVids then [] else [cands[n]]
  {
    assert cands[..n + 1][..n] == cands[..n];
  }

  lemma {:induction false} OneMoreVote(kept: seq<Candidate>, c: Candidate, weight: real)
    ensures Votes(kept + [c], weight) == Votes(kept, weight) + [Ballot(c.vid, c, VoteAt(weight, |kept|))]
  {
    assert (kept + [c])[..|kept|] == kept;
  }

  lemma {:induction false} SlotsAre(e: Expansion, seedVids: set<string>)
    ensures var g := GroupOf(e, seedVids); Fits(g, e, seedVids)
  {
  }

  /** `g` is the list of `e`, entry by entry. */
  ghost predicate Fits(g: Group<Candidate>, e: Expansion, seedVids: set<string>) {
    && |g.slots| == |e.cands|
    && (forall p | 0 <= p < |e.cands| :: g.slots[p] == Counted(e.cands[p], seedVids))
    && forall rank: nat :: g.points(rank) == VoteAt(e.weight, rank)
  }

  lemma {:induction false} NextVote(e: Expansion, seedVids: set<string>, n: nat, kept: seq<Candidate>, worth: real)
    requires n < |e.cands| && kept == NotSeeds(e.cands[..n], seedVids) && worth == VoteAt(e.weight, |kept|)
    ensures var c := e.cands[n]; var more := NotSeeds(e.cands[..n + 1], seedVids);
            if c.vid in seedVids then more == kept
            else |more| == |kept| + 1 && Votes(more, e.weight) == Votes(kept, e.weight) + [Ballot(c.vid, c, worth)]
  {
    NotSeedsSnoc(e.cands, n, seedVids);
    OneMoreVote(kept, e.cands[n], e.weight);
  }

  lemma {:induction false} NextBallot(g: Group<Candidate>, e: Expansion, seedVids: set<string>, n: nat,
                                      kept: seq<Candidate>, worth: real)
    requires n < |e.cands| == |g.slots| && g.slots[n] == Counted(e.cands[n], seedVids)
    requires kept == NotSeeds(e.cands[..n], seedVids)
    requires worth == VoteAt(e.weight, |kept|) && worth == g.points(|kept|)
    requires |kept| == Rank(g.slots, n) && Votes(kept, e.weight) == BallotsTo(g, CandidateVid, n)
    ensures Votes(NotSeeds(e.cands[..n + 1], seedVids), e.weight) == BallotsTo(g, CandidateVid, n + 1)
    ensures |NotSeeds(e.cands[..n + 1], seedVids)| == Rank(g.slots, n + 1)
  {
    NextVote(e, seedVids, n, kept, worth);
    BallotsStep(g, CandidateVid, n, worth);
  }

  lemma {:induction false} VotesAreBallots(g: Group<Candidate>, e: Expansion, seedVids: set<string>, n: nat)
    requires Fits(g, e, seedVids) && n <= |e.cands|
    ensures Votes(NotSeeds(e.cands[..n], seedVids), e.weight) == BallotsTo(g, CandidateVid, n)
    ensures |NotSeeds(e.cands[..n], seedVids)| == Rank(g.slots, n)
  {
    if n == 0 {
      assert e.cands[..0] == [] && Counting(g.slots, 0) == {};
    } else {
      VotesAreBallots(g, e, seedVids, n - 1);
      var kept := NotSeeds(e.cands[..n - 1], seedVids);
      NextBallot(g, e, seedVids, n - 1, kept, g.points(|kept|));
    }
  }

  lemma {:induction false} AllVotesAreBallots(exps: seq<Expansion>, seedVids: set<string>)
    ensures AllVotes(exps, seedVids) == Ballots(Groups(exps, seedVids), CandidateVid)
  {
    if exps != [] {
      var n := |exps| - 1;
      AllVotesAreBallots(exps[..n], seedVids);
      SlotsAre(exps[n], seedVids);
      VotesAreBallots(GroupOf(exps[n], seedVids), exps[n], seedVids, |exps[n].cands|);
      assert exps[n].cands[..|exps[n].cands|] == exps[n].cands;
      assert Groups(exps, seedVids)[..n] == Groups(exps[..n], seedVids);
    }
  }

  // ----- The code: two dictionaries filled by nested loops

  lemma VotesStep(kept: seq<Candidate>, rank: nat, weight: real)
    requires rank < |kept|
    ensures Votes(kept[..rank + 1], weight) ==
            Votes(kept[..rank], weight) + [Ballot(kept[rank].vid, kept[rank], VoteAt(weight, rank))]
  {
    assert kept[..rank + 1][..rank] == kept[..rank];
  }

  lemma AllVotesStep(exps: seq<Expansion>, i: nat, seedVids: set<string>)
    requires i < |exps|
    ensures AllVotes(exps[..i + 1], seedVids) == AllVotes(exps[..i], seedVids) + VotesOf(exps[i], seedVids)
  {
    assert exps[..i + 1][..i] == exps[..i];
  }

  method CastVotes(exps: seq<Expansion>, seedVids: set<string>)
    returns (scores: map<string, real>, order: seq<Entry<Candidate>>)
    ensures Filled(scores, order, AllVotes(exps, seedVids))
  {
    scores, order := map[], [];
    for i := 0 to |exps|
      invariant Filled(scores, order, AllVotes(exps[..i], seedVids))
    {
      ghost var cast := AllVotes(exps[..i], seedVids);
      var kept, weight := NotSeeds(exps[i].cands, seedVids), exps[i].weight;
      assert cast + Votes(kept[..0], weight) == cast;
      for rank := 0 to |kept|
        invariant Filled(scores, order, cast + Votes(kept[..rank], weight))
      {
        var c := kept[rank];
        scores, order := Cast(scores, order, c.vid, c, VoteAt(weight, rank), cast + Votes(kept[..rank], weight));
        VotesStep(kept, rank, weight);
        assert cast + Votes(kept[..rank + 1], weight) ==
               cast + Votes(kept[..rank], weight) + [Ballot(c.vid, c, VoteAt(weight, rank))];
      }
      AllVotesStep(exps, i, seedVids);
      assert kept[..|kept|] == kept;
    }
    assert exps[..|exps|] == exps;
  }

  lemma {:induction false} PointsAreScore(exps: seq<Expansion>, seedVids: set<string>, vid: string)
    ensures Points(AllVotes(exps, seedVids), vid) == Sum(exps, FromSeed(seedVids, vid))
  {
    if exps != [] {
      var n := |exps| - 1;
      PointsAreScore(exps[..n], seedVids, vid);
      PointsConcat(AllVotes(exps[..n], seedVids), VotesOf(exps[n], seedVids), vid);
    }
  }

  function ScoreOf(exps: seq<Expansion>): string -> real { (v: string) => Score(exps, v) }

  /** The videos `recommend` answers with, best first. */
  ghost function Chosen(exps: seq<Expansion>, limit: int): seq<Entry<Candidate>> {
    Head(Ranking(FirstSeen(AllVotes(exps, SeedVids(exps))), ScoreOf(exps)), limit)
  }

  function ToTracks(es: seq<Entry<Candidate>>, score: string -> real): seq<Rerank.Track> {
    seq(|es|, i requires 0 <= i < |es| => ToTrack(es[i], score(es[i].vid)))
  }

  /** Scoring entries from the dictionary and from the definition comes to the same. */
  lemma SameTracks(order: seq<Entry<Candidate>>, f: string -> real, g: string -> real, limit: int)
    requires Distinct(order) && forall e: Entry<Candidate> | e in order :: f(e.vid) == g(e.vid)
    ensures ToTracks(Head(Ranking(order, f), limit), f) == ToTracks(Head(Ranking(order, g), limit), g)
  {
    RankingAgrees(order, f, g);
    RankingRearranges(order, f);
    var r := Ranking(order, f);
    forall i | 0 <= i < |Head(r, limit)| ensures Head(r, limit)[i] in order {
      assert Head(r, limit)[i] == r[i] && r[i] in r;
    }
  }

  /** The cut ranking by the consensus score is the answer. */
  lemma {:induction false} ChosenIsAnswer(exps: seq<Expansion>, limit: int)
    ensures IsAnswer(ToTracks(Chosen(exps, limit), ScoreOf(exps)), exps, limit)
  {
    var own, score := SeedVids(exps), ScoreOf(exps);
    var groups := Groups(exps, own);
    AllVotesAreBallots(exps, own);
    forall e: Entry<Candidate> | e in FirstSeen(Ballots(groups, CandidateVid))
      ensures score(e.vid) == Total(groups, CandidateVid, e.vid) + NoBonus(e.meta)
    {
      PointsAreScore(exps, own, e.vid);
      TotalIsPoints(groups, CandidateVid, e.vid);
    }
    var all := RankingIsExact(groups, CandidateVid, NoBonus, score);
    CutIsPresented(groups, all, Ranking(FirstSeen(Ballots(groups, CandidateVid)), score), score, limit);
  }

  lemma {:induction false} CutIsPresented(groups: seq<Group<Candidate>>, all: seq<Place>, r: seq<Entry<Candidate>>,
                                          score: string -> real, limit: int)
    requires |r| == |all|
    requires forall k | 0 <= k < |r| ::
               Consensus.Lists(groups, all[k])
               && r[k] == Entry(CandidateVid(ItemAt(groups, all[k])), ItemAt(groups, all[k]))
               && score(r[k].vid) == ScoreAt(groups, CandidateVid, NoBonus, all[k])
    ensures Presents(ToTracks(Head(r, limit), score), groups, all, limit)
  {
  }

  /** `recommend`, exactly. */
  method Recommend(exps: seq<Expansion>, limit: int) returns (tracks: seq<Rerank.Track>)
    ensures IsAnswer(tracks, exps, limit)
    ensures tracks == ToTracks(Chosen(exps, limit), ScoreOf(exps))
  {
    ChosenIsAnswer(exps, limit);
    if exps == [] {
      return [];
    }
    ghost var votes := AllVotes(exps, SeedVids(exps));
    var scores, order := CastVotes(exps, SeedVids(exps));
    var score := (v: string) => Get(scores, v);
    FirstSeenListed(votes);
    FirstSeenDistinct(votes);
    forall e: Entry<Candidate> | e in order ensures score(e.vid) == ScoreOf(exps)(e.vid) {
      assert e.vid in Listed(order);
      PointsAreScore(exps, SeedVids(exps), e.vid);
    }
    SameTracks(order, score, ScoreOf(exps), limit);
    tracks := ToTracks(Head(Ranking(order, score), limit), score);
  }

  // ----- Main results

  lemma {:induction false} NotSeedsMembers(cands: seq<Candidate>, seedVids: set<string>)
    ensures forall c :: c in NotSeeds(cands, seedVids) <==> c in cands && c.vid !in seedVids
  {
    if cands != [] {
      NotSeedsMembers(cands[..|cands| - 1], seedVids);
      assert cands == cands[..|cands| - 1] + [cands[|cands| - 1]];
    }
  }

  lemma NotSeedsVids(cands: seq<Candidate>, seedVids: set<string>)
    ensures VidsOf(NotSeeds(cands, seedVids)) == VidsOf(cands) - seedVids
  {
    NotSeedsMembers(cands, seedVids);
  }

  lemma DistinctVidsSplit(r: seq<Candidate>, c: Candidate)
    requires DistinctVids(r + [c])
    ensures DistinctVids(r) && c.vid !in VidsOf(r)
  {
    forall i, j | 0 <= i < j < |r| ensures r[i].vid != r[j].vid {
      assert (r + [c])[i].vid != (r + [c])[j].vid;
    }
    forall i | 0 <= i < |r| ensures r[i].vid != c.vid {
      assert (r + [c])[i].vid != (r + [c])[|r|].vid;
    }
  }

  lemma {:induction false} NotSeedsDistinct(cands: seq<Candidate>, seedVids: set<string>)
    requires DistinctVids(cands)
    ensures DistinctVids(NotSeeds(cands, seedVids))
  {
    if cands != [] {
      var r, c := cands[..|cands| - 1], cands[|cands| - 1];
      assert cands == r + [c];
      DistinctVidsSplit(r, c);
      NotSeedsDistinct(r, seedVids);
      NotSeedsVids(r, seedVids);
      var kept := NotSeeds(r, seedVids);
      forall i | 0 <= i < |kept| ensures kept[i].vid != c.vid {
        assert kept[i].vid in VidsOf(kept);
      }
    }
  }

  lemma {:induction false} VotesListed(kept: seq<Candidate>, weight: real)
    ensures Vids(Votes(kept, weight)) == VidsOf(kept)
    ensures forall b | b in Votes(kept, weight) :: b.vid == b.meta.vid && b.meta in kept
  {
    if kept != [] {
      var n := |kept| - 1;
      VotesListed(kept[..n], weight);
      assert kept == kept[..n] + [kept[n]];
      var b := Ballot(kept[n].vid, kept[n], VoteAt(weight, n));
      assert Vids(Votes(kept[..n], weight) + [b]) == Vids(Votes(kept[..n], weight)) + {kept[n].vid};
    }
  }

  /** Some seed listed `v`, and `v` is no seed's own video. */
  ghost predicate Eligible(exps: seq<Expansion>, seedVids: set<string>, v: string) {
    v !in seedVids && exists e :: e in exps && v in VidsOf(e.cands)
  }

  lemma {:induction false} AllVotesListed(exps: seq<Expansion>, seedVids: set<string>, v: string)
    ensures v in Vids(AllVotes(exps, seedVids)) <==> Eligible(exps, seedVids, v)
    ensures forall b | b in AllVotes(exps, seedVids) :: b.vid == b.meta.vid
  {
    if exps != [] {
      var n := |exps| - 1;
      AllVotesListed(exps[..n], seedVids, v);
      var kept := NotSeeds(exps[n].cands, seedVids);
      NotSeedsVids(exps[n].cands, seedVids);
      VotesListed(kept, exps[n].weight);
      assert exps == exps[..n] + [exps[n]];
      assert Vids(AllVotes(exps, seedVids)) == Vids(AllVotes(exps[..n], seedVids)) + Vids(VotesOf(exps[n], seedVids));
    }
  }

  /** `recommend` answers each eligible video at most once, never a seed's own, best score first. */
  lemma OnlyEligible(exps: seq<Expansion>, limit: int)
    ensures var out := Chosen(exps, limit);
            && Distinct(out)
            && (forall e: Entry<Candidate> | e in out :: e.meta.vid == e.vid && Eligible(exps, SeedVids(exps), e.vid))
            && (forall i, j | 0 <= i < j < |out| :: Score(exps, out[i].vid) >= Score(exps, out[j].vid))
  {
    var votes := AllVotes(exps, SeedVids(exps));
    var out := Chosen(exps, limit);
    FirstSeenDistinct(votes);
    TopMembers(FirstSeen(votes), ScoreOf(exps), limit);
    forall e: Entry<Candidate> | e in out ensures e.meta.vid == e.vid && Eligible(exps, SeedVids(exps), e.vid) {
      var i := FirstSeenMeta(votes, e);
      assert votes[i] in votes;
      AllVotesListed(exps, SeedVids(exps), e.vid);
    }
    forall i, j | 0 <= i < j < |out| ensures Score(exps, out[i].vid) >= Score(exps, out[j].vid) {
      assert ScoreOf(exps)(out[i].vid) >= ScoreOf(exps)(out[j].vid);
    }
  }

  /** It is a best choice of its size: an eligible video left out scores no more than one returned,
      and is left out only when the limit is met. */
  lemma BestByConsensus(exps: seq<Expansion>, limit: int, v: string)
    requires Eligible(exps, SeedVids(exps), v) && v !in Listed(Chosen(exps, limit))
    ensures 0 <= limit ==> |Chosen(exps, limit)| == limit
    ensures forall e: Entry<Candidate> | e in Chosen(exps, limit) :: Score(exps, v) <= Score(exps, e.vid)
  {
    var votes := AllVotes(exps, SeedVids(exps));
    var order := FirstSeen(votes);
    FirstSeenDistinct(votes);
    FirstSeenListed(votes);
    AllVotesListed(exps, SeedVids(exps), v);
    assert v in Listed(order);
    var left: Entry<Candidate> :| left in order && left.vid == v;
    if |order| <= limit {
      TopIsAll(order, ScoreOf(exps), limit, left);
    }
    TopMembers(order, ScoreOf(exps), limit);
    forall e: Entry<Candidate> | e in Chosen(exps, limit) ensures Score(exps, v) <= Score(exps, e.vid) {
      TopIsBest(order, ScoreOf(exps), limit, left, e);
    }
  }

  /** Reordering the seeds leaves every score unchanged. */
  lemma SeedOrderIrrelevant(a: seq<Expansion>, b: seq<Expansion>, v: string)
    requires multiset(a) == multiset(b)
    ensures Score(a, v) == Score(b, v)
    ensures Eligible(a, SeedVids(a), v) == Eligible(b, SeedVids(b), v)
  {
    forall e ensures e in a <==> e in b {
      assert e in multiset(a) <==> e in multiset(b);
    }
    assert SeedVids(a) == SeedVids(b);
    SumIgnoresOrder(a, b, FromSeed(SeedVids(a), v));
  }

  lemma {:induction false} OneVote(kept: seq<Candidate>, weight: real, rank: nat)
    requires rank < |kept| && DistinctVids(kept)
    ensures Points(Votes(kept, weight), kept[rank].vid) == VoteAt(weight, rank)
  {
    var n, v := |kept| - 1, kept[rank].vid;
    assert kept == kept[..n] + [kept[n]];
    SumSnoc(Votes(kept[..n], weight), Ballot(kept[n].vid, kept[n], VoteAt(weight, n)), PointsFor(v));
    DistinctVidsSplit(kept[..n], kept[n]);
    if rank < n {
      OneVote(kept[..n], weight, rank);
    } else {
      VotesListed(kept[..n], weight);
      NoPointsUnlisted(Votes(kept[..n], weight), v);
    }
  }

  lemma VotePositive(weight: real, rank: nat)
    requires weight > 0.0
    ensures VoteAt(weight, rank) > 0.0
  {
  }

  /** The first rank gives the whole weight and each later one less. */
  lemma VoteDecays(weight: real, i: nat, j: nat)
    requires weight > 0.0 && i < j
    ensures VoteAt(weight, 0) == weight && VoteAt(weight, i) > VoteAt(weight, j) > 0.0
  {
    DividedMore(weight, 1.0 + DECAY * i as real, 1.0 + DECAY * j as real);
  }

  lemma VotesSnoc(kept: seq<Candidate>, weight: real, v: string)
    requires kept != []
    ensures var n := |kept| - 1;
            Points(Votes(kept, weight), v) ==
            Points(Votes(kept[..n], weight), v) + if kept[n].vid == v then VoteAt(weight, n) else 0.0
  {
    var n := |kept| - 1;
    SumSnoc(Votes(kept[..n], weight), Ballot(kept[n].vid, kept[n], VoteAt(weight, n)), PointsFor(v));
  }

  lemma {:induction false} VotesAtLeast(kept: seq<Candidate>, weight: real, rank: nat)
    requires rank < |kept| && weight > 0.0
    ensures Points(Votes(kept, weight), kept[rank].vid) >= VoteAt(weight, rank)
  {
    var n, v := |kept| - 1, kept[rank].vid;
    VotePositive(weight, n);
    VotesSnoc(kept, weight, v);
    if rank < n {
      assert kept[..n][rank] == kept[rank];
      VotesAtLeast(kept[..n], weight, rank);
    } else {
      PointsNonNegative(kept[..n], weight, v);
    }
  }

  lemma {:induction false} PointsNonNegative(kept: seq<Candidate>, weight: real, v: string)
    requires weight > 0.0
    ensures Points(Votes(kept, weight), v) >= 0.0
  {
    if kept != [] {
      var n := |kept| - 1;
      PointsNonNegative(kept[..n], weight, v);
      VotePositive(weight, n);
      VotesSnoc(kept, weight, v);
    }
  }

  lemma {:induction false} RepeatsVoteAgain(kept: seq<Candidate>, weight: real, i: nat, j: nat)
    requires i < j < |kept| && kept[i].vid == kept[j].vid && weight > 0.0
    ensures Points(Votes(kept, weight), kept[i].vid) > VoteAt(weight, i)
  {
    var n, v := |kept| - 1, kept[i].vid;
    VotePositive(weight, n);
    VotesSnoc(kept, weight, v);
    if j < n {
      RepeatsVoteAgain(kept[..n], weight, i, j);
    } else {
      VotesAtLeast(kept[..n], weight, i);
    }
  }

  /** A seed gives each track a single vote exactly when its list repeats no track. A song seed's list
      never does (`SongNeighbours`); an artist seed's list is not deduplicated and may. */
  lemma VotesOnceIffDistinct(kept: seq<Candidate>, weight: real)
    requires weight > 0.0
    ensures DistinctVids(kept) <==>
            forall r | 0 <= r < |kept| :: Points(Votes(kept, weight), kept[r].vid) == VoteAt(weight, r)
  {
    if DistinctVids(kept) {
      forall r | 0 <= r < |kept| ensures Points(Votes(kept, weight), kept[r].vid) == VoteAt(weight, r) {
        OneVote(kept, weight, r);
      }
    } else {
      var i, j :| 0 <= i < j < |kept| && kept[i].vid == kept[j].vid;
      RepeatsVoteAgain(kept, weight, i, j);
    }
  }

  /** An artist seed whose songs list one track twice gives it two votes. */
  lemma ArtistSeedVotesTwice(c: Candidate, weight: real)
    requires weight > 0.0
    ensures var seed := Expansion(None, [c, c], weight);
            && Score([seed], c.vid) == VoteAt(weight, 0) + VoteAt(weight, 1)
            && Score([seed], c.vid) > weight
  {
    var seed := Expansion(None, [c, c], weight);
    assert SeedVids([seed]) == {};
    assert [c, c][..1] == [c] && [c][..0] == [];
    assert NotSeeds([c], {}) == [c] && NotSeeds([c, c], {}) == [c, c];
    assert Votes([c], weight) == [Ballot(c.vid, c, VoteAt(weight, 0))];
    VotesSnoc([c, c], weight, c.vid);
    VotesSnoc([c], weight, c.vid);
    VoteDecays(weight, 0, 1);
    SumSnoc([], seed, FromSeed({}, c.vid));
    assert [] + [seed] == [seed];
  }

  /** One song seed votes at most once per track. */
  lemma SongSeedVotesOnce(e: Expansion, seedVids: set<string>, rank: nat)
    requires DistinctVids(e.cands) && rank < |NotSeeds(e.cands, seedVids)|
    ensures FromSeed(seedVids, NotSeeds(e.cands, seedVids)[rank].vid)(e) == VoteAt(e.weight, rank)
  {
    NotSeedsDistinct(e.cands, seedVids);
    OneVote(NotSeeds(e.cands, seedVids), e.weight, rank);
  }
}
