/** The recommendation pipelines end to end: what feeds the re-rank meets its hypothesis. */
module Pipelines {
  import opened Tally
  import Rerank
  import Engine
  import Mixes

  lemma PrefixInjective(a: string, b: string)
    requires a != b
    ensures Rerank.WATCH_URL + a != Rerank.WATCH_URL + b
  {
    var n := |Rerank.WATCH_URL|;
    assert (Rerank.WATCH_URL + a)[n..] == a && (Rerank.WATCH_URL + b)[n..] == b;
  }

  /** What the engine hands to the re-rank. */
  ghost function EngineTracks(exps: seq<Engine.Expansion>, limit: int): seq<Rerank.Track> {
    Engine.ToTracks(Engine.Chosen(exps, limit), Engine.ScoreOf(exps))
  }

  /** What the mix builder hands to it. */
  ghost function MixTracks(chosen: seq<Mixes.Source>, taste: map<string, real>, tx: Mixes.Text): seq<Rerank.Track> {
    var score := Mixes.MixScore(chosen, taste, tx);
    Mixes.ToTracks(Ranking(FirstSeen(Mixes.AllListings(chosen, tx)), score), score)
  }

  /** They are the engine's answer and the scored tracks of a mix. */
  lemma TracksAreExact(exps: seq<Engine.Expansion>, limit: int, chosen: seq<Mixes.Source>, taste: map<string, real>,
                       tx: Mixes.Text)
    ensures Engine.IsAnswer(EngineTracks(exps, limit), exps, limit)
    ensures Mixes.IsScored(MixTracks(chosen, taste, tx), Mixes.SourceGroups(chosen, tx), Mixes.WeightOf(taste, tx))
  {
    Engine.ChosenIsAnswer(exps, limit);
    var all := Mixes.ScoresAreExact(chosen, taste, tx);
  }

  lemma EngineRepeatsNoUrl(exps: seq<Engine.Expansion>, limit: int)
    ensures Rerank.DistinctUrls(EngineTracks(exps, limit))
  {
    var es := Engine.Chosen(exps, limit);
    var tracks := EngineTracks(exps, limit);
    Engine.OnlyEligible(exps, limit);
    forall i, j | 0 <= i < j < |tracks| ensures Rerank.UrlOf(tracks[i]) != Rerank.UrlOf(tracks[j]) {
      assert VidOf(es[i]) != VidOf(es[j]);
      PrefixInjective(es[i].vid, es[j].vid);
    }
  }

  lemma MixRepeatsNoUrl(chosen: seq<Mixes.Source>, taste: map<string, real>, tx: Mixes.Text)
    ensures Rerank.DistinctUrls(MixTracks(chosen, taste, tx))
  {
    var score := Mixes.MixScore(chosen, taste, tx);
    var es := Ranking(FirstSeen(Mixes.AllListings(chosen, tx)), score);
    var tracks := MixTracks(chosen, taste, tx);
    Mixes.EachTrackOnce(chosen, taste, tx);
    forall i, j | 0 <= i < j < |tracks| ensures Rerank.UrlOf(tracks[i]) != Rerank.UrlOf(tracks[j]) {
      assert VidOf(es[i]) != VidOf(es[j]);
      PrefixInjective(es[i].vid, es[j].vid);
    }
  }

  lemma OptimalWithoutRepeats(cands: seq<Rerank.Track>, f: Rerank.Filter, c: Rerank.Caps, choice: seq<Rerank.Track>)
    requires Rerank.DistinctUrls(cands) && Rerank.CouldReturn(choice, cands, f, c)
    ensures Rerank.Dominates(Rerank.Reranked(cands, f, c), choice)
  {
    Rerank.NoRepeatsMeetHypothesis(cands, f, c);
    Rerank.OneArtistPerUrlIsRoom(Rerank.Kept(cands, f), c);
    Rerank.GreedyDominates(cands, f, c, choice);
  }

  /** For You with the YouTube Music engine: the greedy re-rank is optimal with no side condition. */
  lemma ForYouIsOptimal(exps: seq<Engine.Expansion>, overfetch: int, f: Rerank.Filter, c: Rerank.Caps,
                        choice: seq<Rerank.Track>)
    requires Rerank.CouldReturn(choice, EngineTracks(exps, overfetch), f, c)
    ensures Rerank.Dominates(Rerank.Reranked(EngineTracks(exps, overfetch), f, c), choice)
  {
    EngineRepeatsNoUrl(exps, overfetch);
    OptimalWithoutRepeats(EngineTracks(exps, overfetch), f, c, choice);
  }

  /** The same for a mix. */
  lemma MixIsOptimal(chosen: seq<Mixes.Source>, taste: map<string, real>, tx: Mixes.Text, f: Rerank.Filter,
                     c: Rerank.Caps, choice: seq<Rerank.Track>)
    requires Rerank.CouldReturn(choice, MixTracks(chosen, taste, tx), f, c)
    ensures Rerank.Dominates(Rerank.Reranked(MixTracks(chosen, taste, tx), f, c), choice)
  {
    MixRepeatsNoUrl(chosen, taste, tx);
    OptimalWithoutRepeats(MixTracks(chosen, taste, tx), f, c, choice);
  }
}
