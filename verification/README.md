# Music server backend: a verified model

A Dafny 4.11 model of four parts of the backend, with proofs about them. `dafny verify dfyconfig.toml`
checks everything.

**Recommendation selection.** `StableSort`, `Sums`, `SetSums` and `Tally` hold the shared mathematics.
`Rerank` is the per-user re-rank: filter, demotion, stable sort, and a greedy pick under a total limit, a
per-artist cap and a no-repeat rule. Its result is compared with every feasible choice, not only with the
loop; `RerankExact` says position by position what it is, and `SharedUrls` exactly when one URL under several
artists spoils optimality. `Consensus` is the ranking by points over several lists. `Engine` and `Mixes` are the two
sources of candidates, `Pipelines` joins them to the re-rank, and `Feedback` is the table that excludes and
demotes, with runs of requests by many users that may overlap.

**Download jobs.** `Jobs` is the jobs table and its statements, as a class and as functions. `Protocol` is a
step system: any number of request handlers and background workers over the jobs table, the downloads table
and the slot pool, with retries, deletions, crashes and boots in between. Each action is one committed
database step, one semaphore operation or one return of a foreign call. `Workers` is the code of the two
background jobs over those tables, proved to take the protocol's steps. `ProtocolInvariant`, `HandlerSteps`,
`WorkerSteps` and `EventSteps` prove one invariant; `ProtocolResults`, `ProtocolOrigins`, `ProtocolTermination`,
`Requests` and `Stranding` draw the conclusions.

**Jam relay.** `Jam` has the sessions, the command log and the endpoints, as a class; `JamDelivery` has runs
in which a command gets its id when it is flushed and becomes readable only when it commits.

**Byte ranges.** `Decimal` reads and prints the range header, `RangeFile` serves a local file and `Preview`
stitches bounded upstream fetches together. Ranges are those of section 14.1.2 of RFC 9110.

Scores are exact reals. Clocks, ids, random codes and everything foreign (YouTube Music, spotDL, the file
system's read sizes, the upstream's replies) are parameters. `strip`, `lower` and `is_alt_version` are
function parameters, so the results hold whatever they compute.

## Assumptions of the download protocol

There is one process, as `backend/app/services/workers.py:32-33` says. The read, check and write of `retry_job`
are one step, its commit, because they are not a compare-and-set; its dispatch is a step of its own, which may
come before. `run_job` may be dispatched any number of times for a job that
`/download` or a retry has scheduled since the last boot, and for a failed job, which a retry enqueues before
it commits; no other code dispatches it. `run_podcast_episode_job` is dispatched once, by the request that
created the job. The database may fail while a download is being recorded and not elsewhere. Episodes may be
deleted at any time; no endpoint of the backend does so (`backend/app/api/v1/podcasts.py:162-178` deletes a
subscription only), so such a deletion comes from outside, for instance with its channel, which cascades.

## Where the code and its documentation disagree

The model follows the code.

- `_expand` says its candidates are deduplicated (`backend/app/services/recommenders/ytmusic_engine.py:130`);
  those of an artist seed are not, so such a seed can vote twice for a track (`Engine.ArtistSeedVotesTwice`).
  `Engine.VotesOnceIffDistinct` has the exact condition.
- `rerank` says duplicate URLs keep their best-scored copy. `SharedUrls.BestCopiesIff` says exactly when; at
  both call sites there are inputs on which the better copy is dropped because its own artist is full
  (`SharedUrls.BetterCopyDropped`), and inputs on which the pick is shorter than it need be
  (`SharedUrls.SharedUrlBreaksOptimality`). `SharedUrls.GreedyOptimalIff` has the same condition, `Rerank.Room`:
  room for copies. A URL that determines its artist is always enough (`Rerank.OneArtistPerUrlIsRoom`), and the
  two engines modelled here never repeat a URL.
- "Demotes, never excludes" (`backend/app/services/recommenders/rerank.py:6-8`) holds with room for copies
  (`Rerank.SizeIgnoresScoresAndHistory`). Without it a track that was shown can cost a result
  (`SharedUrls.ShownCanCostAResult`).
- The seven days of a demotion count from `func.now()`, the start of the transaction, of the request that was
  answered last. Of two overlapping requests the one that began first may be answered last and move the time
  back (`Feedback.RowCanMoveBack`); `Feedback.WindowIff` says exactly when that changes what is demoted.
- `create_job_idempotent` treats every IntegrityError as a lost race. The foreign key of a deleted episode
  raises one too, and then it escapes (`ProtocolResults.GoneEpisodeEscapes`; `ProtocolResults.InsertRejectedIff`
  and `ProtocolResults.EscapeOnlyIfLeft` say exactly when).
- `retry_job` enqueues its worker before its transaction commits
  (`backend/app/api/v1/admin.py:295-296`), and background tasks run before that commit
  (`backend/app/api/v1/download.py:43-45`). A worker that gets to its job by then finds it failed and leaves;
  the commit then queues a job that no worker takes (`Stranding.RetryCanStrand`). `Stranding.RetryStrandsIff`
  says exactly when that happens, and `Stranding.RetryStrands` that it is for good, since nothing else
  dispatches the job.
- Recovery at boot is about running jobs only. A job still queued at a crash has no worker left, blocks its
  key, and can be neither retried nor created again (`Stranding.QueuedIsStranded`,
  `ProtocolResults.KeyFreedIff`).
- The jam relay promises the commands after a cursor. A command whose id was assigned before the cursor's but
  which commits after the poll is skipped for good (`JamDelivery.OvertakenIsLost`, `JamDelivery.LostForever`);
  with commits in id order nothing is (`JamDelivery.InOrderIsComplete`).
- A reversed range such as `bytes=5-3` is refused for a local file, although RFC 9110 lets a server ignore
  it. The preview proxy passes it on: an upstream that answers 206 all the same makes it start a response with
  a Content-Length below 1, any other answer makes it refuse (`Preview.BadLengthIff`, `Preview.ReversedRange`).

## Model

| member | source | states |
|---|---|---|
| Rerank.ScoreCandidates | backend/app/services/recommenders/rerank.py:44-51 | The scoring loop gives exactly the candidates that are neither excluded nor alternate versions, in input order, with the position fallback for a missing score and the shown penalty |
| Rerank.PickGreedily | backend/app/services/recommenders/rerank.py:56-70 | The loop with its dictionary, its set and its early exit computes the greedy pick, including the one track that gets through when `limit` is below 1 |
| Rerank.Rerank | backend/app/services/recommenders/rerank.py:28-70 | Filter, stable sort and pick in sequence are the function the theorems below are about |
| RerankExact.RerankIsGreedy | backend/app/services/recommenders/rerank.py:44-70 | The output, exactly: the survivors are looked at by final score, ties in input order; each is taken iff its URL is new, its artist is below the cap and the limit is not reached; its score is the engine's, or 1 / (1 + 0.1 position), times 0.3 iff recently shown |
| RerankExact.OnlyOne | backend/app/services/recommenders/rerank.py:44-70 | No other list fits that description |
| RerankExact.UnscoredInOrder | backend/app/services/recommenders/rerank.py:47-48 | Candidates without scores come back in their own order when nothing is shown or dropped and there is room for all |
| RerankExact.BetterOfTwo | backend/app/services/recommenders/rerank.py:47-70 | At a limit of one the better of two survivors is returned, the first if they score the same |
| StableSort.SortDescIsStableSort | backend/app/services/recommenders/rerank.py:53-54 | The sort is descending, a permutation, and keeps equal scores in input order |
| StableSort.Unique | backend/app/services/recommenders/rerank.py:53-54 | Those three facts leave only one possible result |
| StableSort.SortDescByPosition | backend/app/services/recommenders/rerank.py:53-54 | Position by position: a greater score first, and of equal scores the earlier candidate |
| Rerank.PickIsFeasible | backend/app/services/recommenders/rerank.py:56-70 | A pick has no URL twice, at most `per_artist` per artist key, at most `limit` in all, and only given tracks |
| Rerank.PickIsMaximal | backend/app/services/recommenders/rerank.py:59-69 | Whatever was left out was barred by its own URL, by its artist's cap or by the limit |
| Rerank.FeasibleWithinQuota | backend/app/services/recommenders/rerank.py:59-69 | No feasible choice is longer than min(limit, sum of artist quotas), whatever the URLs |
| Rerank.PickFillsQuota | backend/app/services/recommenders/rerank.py:59-69 | When a URL determines its artist the greedy pick is exactly that long |
| Rerank.OutputIsFeasible | backend/app/services/recommenders/rerank.py:36-70 | The output is feasible, best first, and contains nothing excluded and no alternate version |
| Rerank.PrefixSize | backend/app/services/recommenders/rerank.py:53-70 | When a URL determines its artist the size formula holds on every prefix of the sorted list |
| Rerank.OutputSize | backend/app/services/recommenders/rerank.py:53-70 | When a URL determines its artist the output size is min(limit, sum over artists of min(per_artist, distinct kept URLs)) |
| Rerank.SizeIgnoresScoresAndHistory | backend/app/services/recommenders/rerank.py:6-8 | Demotes, never excludes, when there is room for copies: two inputs that differ in any scores and in what was recently shown give equally many results |
| Rerank.GreedyDominates | backend/app/services/recommenders/rerank.py:43-70 | When there is room for copies: for every feasible choice of the kept candidates the output is at least as long and its i-th score is at least the choice's i-th best |
| Rerank.GreedyMaximisesTotal | backend/app/services/recommenders/rerank.py:43-70 | When there is room for copies and scores are non-negative the output has the greatest total of all feasible choices, in whatever order the choice is given |
| Rerank.PickIsLongest | backend/app/services/recommenders/rerank.py:59-69 | When there is room for copies no feasible choice is longer than the greedy pick |
| SharedUrls.GreedyOptimalIff | backend/app/services/recommenders/rerank.py:53-70 | For given kept URLs, artists and caps the output dominates every feasible choice, whatever the scores, iff there is room for copies: nothing fits, the limit is at most the cap, or no artist of a URL shared between artists has enough other URLs to fill its cap |
| SharedUrls.LosesSlot | backend/app/services/recommenders/rerank.py:59-69 | Given such a URL and artist, scores and a feasible choice that the output does not dominate |
| SharedUrls.ShownCanCostAResult | backend/app/services/recommenders/rerank.py:6-8 | At every cap from 1 up and every limit above it, an input on which having been shown some tracks makes the output shorter |
| SharedUrls.BestCopiesIff | backend/app/services/recommenders/rerank.py:40 | Duplicate URLs keep their best-scored copy, whatever the scores, iff there is room for copies |
| SharedUrls.LosesCopy | backend/app/services/recommenders/rerank.py:59-66 | Given a shared URL and an artist that can fill its cap without it, the scores under which the worse copy is returned |
| SharedUrls.BetterCopyDropped | backend/app/services/recommenders/rerank.py:59-66 | At every cap from 1 up and every limit above it, an input on which a returned copy has a better one that was kept and passed over |
| SharedUrls.SharedUrlBreaksOptimality | backend/app/services/recommenders/rerank.py:59-66 | At every cap from 1 up and every limit above it, an input with one URL under two artists on which the pick is shorter than a feasible choice |
| Rerank.NoRepeatsMeetHypothesis | backend/app/services/recommenders/rerank.py:59-61 | An engine that repeats no URL meets the hypothesis under any filter |
| Tally.Cast | backend/app/services/recommenders/ytmusic_engine.py:113-115 | One pass of an accumulation loop keeps score and first-seen description right for one more ballot |
| Tally.FirstSeenMeta | backend/app/services/recommenders/ytmusic_engine.py:115 | Each entry carries the description of the first ballot for its video |
| Tally.TopIsBest | backend/app/services/recommenders/ytmusic_engine.py:118 | Nothing cut off a ranking scores more than something kept |
| Consensus.RankingIsExact | backend/app/services/recommenders/ytmusic_engine.py:108-118 | Sorting the dictionary gives exactly the first places of everything listed, by total points over all lists, ties by where it was listed first |
| Engine.VoteDecays | backend/app/services/recommenders/ytmusic_engine.py:112-114 | The first rank gives the whole seed weight and every later one strictly less, never nothing |
| Engine.SongNeighbours | backend/app/services/recommenders/ytmusic_engine.py:158-167 | Interleaving reads the shelves side by side, radio first, and keeps each video where it comes first; radio[i] ends at index 2i or before, related[j] at 2j+1 or before |
| Engine.CastVotes | backend/app/services/recommenders/ytmusic_engine.py:108-115 | After the nested loops the dictionaries hold each video's total of all votes and its first description, in first-seen order |
| Engine.PointsAreScore | backend/app/services/recommenders/ytmusic_engine.py:110-115 | The votes cast add up, seed by seed, to the consensus score |
| Engine.Recommend | backend/app/services/recommenders/ytmusic_engine.py:96-127 | The answer, exactly: the videos the seeds list and that are no seed's own, each once with the title and artist it was first listed with, by the votes weight / (1 + 0.1 rank) added up, ties in first-listed order, cut as Python's slice does |
| Engine.OnlyEligible | backend/app/services/recommenders/ytmusic_engine.py:107-127 | No seed's own video is returned, no video twice, everything was listed by some seed, best score first |
| Engine.BestByConsensus | backend/app/services/recommenders/ytmusic_engine.py:117-118 | An eligible video left out scores no more than any returned, and is left out only when the limit is met |
| Engine.SeedOrderIrrelevant | backend/app/services/recommenders/ytmusic_engine.py:110-115 | Reordering the seeds changes no score and no eligibility |
| Engine.VotesOnceIffDistinct | backend/app/services/recommenders/ytmusic_engine.py:129-142 | A seed votes once per track exactly when its list repeats no track, which `_expand` promises but an artist seed's list does not ensure |
| Engine.ArtistSeedVotesTwice | backend/app/services/recommenders/ytmusic_engine.py:169-175 | An artist seed whose songs list a track twice gives it two votes, more than its weight |
| Engine.SongSeedVotesOnce | backend/app/services/recommenders/ytmusic_engine.py:158-167 | One song seed votes at most once per track |
| Mixes.TasteProfile | backend/app/services/recommenders/mixes.py:91-98 | Every named artist maps to its strongest seed weight, never below 0, and no other artist appears |
| Mixes.ProfileUnique | backend/app/services/recommenders/mixes.py:91-98 | The seeds determine that profile |
| Mixes.AffinityWithin | backend/app/services/recommenders/mixes.py:101-106 | Affinity lies between 0 and the greatest seed weight |
| Mixes.TasteWeightIsMax | backend/app/services/recommenders/mixes.py:87-88 | A track's taste weight is that of its best listed artist |
| Mixes.ParseMeans | backend/app/services/recommenders/mixes.py:71-84 | An item counts iff it has a video, a title and a named artist, and carries its named artists, the first one first |
| Mixes.AffinityIsMean | backend/app/services/recommenders/mixes.py:101-106 | Affinity is the mean taste weight of the well-formed items, 0 if there are none |
| Mixes.AffinityPositiveIff | backend/app/services/recommenders/mixes.py:101-106 | Affinity is positive iff a well-formed track has an artist of positive taste |
| Mixes.PoolIsBest | backend/app/services/recommenders/mixes.py:120 | No playlist outside the pool has a higher affinity than one inside |
| Mixes.ChosenDistinct | backend/app/services/recommenders/mixes.py:120-123 | For every variant the choice is min(PICK, n) distinct members of the pool |
| Mixes.RotationCovers | backend/app/services/recommenders/mixes.py:120-123 | Any ceil(m / PICK) consecutive variants choose every one of the m pool members |
| Mixes.SourcesAreChosen | backend/app/services/recommenders/mixes.py:228-230 | Each chosen playlist comes with its own items and its own affinity |
| Mixes.Fallback | backend/app/services/recommenders/mixes.py:112-124 | Personalised iff some affinity is positive; if not, variant 0 is the first min(PICK, n) in the given order |
| Mixes.ListingDecays | backend/app/services/recommenders/mixes.py:28-31 | Earlier positions are worth strictly more, and a playlist without affinity still ranks its tracks |
| Mixes.ListPlaylist | backend/app/services/recommenders/mixes.py:137-146 | One playlist's pass adds one listing per well-formed item, at positions that count only those |
| Mixes.AddListings | backend/app/services/recommenders/mixes.py:135-146 | After all playlists the dictionaries hold every listing's worth and each track's first description |
| Mixes.AddTaste | backend/app/services/recommenders/mixes.py:147-148 | The second loop adds each track's taste weight exactly once |
| Mixes.ScoreTracks | backend/app/services/recommenders/mixes.py:127-159 | The tracks come out ranked by the sum over all listings plus the taste weight once |
| Mixes.ListingsAddUp | backend/app/services/recommenders/mixes.py:132-146 | The accumulated part of a score is the sum over playlists of what each gives |
| Mixes.MalformedIgnored | backend/app/services/recommenders/mixes.py:138-146 | A malformed item changes no track's points and no affinity |
| Mixes.EachTrackOnce | backend/app/services/recommenders/mixes.py:150-159 | Each listed track comes out exactly once and only listed ones do |
| Mixes.PlaylistOrderIrrelevant | backend/app/services/recommenders/mixes.py:137-146 | The order of the playlists does not change what the listings give a track |
| Mixes.Build | backend/app/services/recommenders/mixes.py:227-231 | The mix, exactly: four of the best eight fetched playlists by affinity, from the one the variant starts at; their own items' tracks, each once with its first title and first named artist, by its listings (0.5 + affinity) / (1 + 0.02 rank) added up plus its taste weight once; `personalized` iff some playlist has positive affinity |
| Mixes.PersonalizedIff | backend/app/services/recommenders/mixes.py:228-229 | The flag of the chosen playlists says whether any fetched playlist matches the taste |
| Pipelines.EngineRepeatsNoUrl | backend/app/services/recommenders/ytmusic_engine.py:118-127 | The engine never returns a URL twice |
| Pipelines.MixRepeatsNoUrl | backend/app/services/recommenders/mixes.py:150-159 | Nor does a mix |
| Pipelines.TracksAreExact | backend/app/services/recommenders/ytmusic_engine.py:105-127 | What the two results below re-rank is the engine's exact answer and the exactly scored tracks of a mix |
| Pipelines.ForYouIsOptimal | backend/app/services/recommenders/ytmusic_engine.py:105-127 | With the YouTube Music engine For You is optimal among all feasible choices with no side condition |
| Pipelines.MixIsOptimal | backend/app/api/v1/recommend.py:150-162 | And so is a mix |
| Feedback.Store.UserHistory | backend/app/services/recommenders/history.py:14-40 | A candidate is excluded iff some job of the user for it has not failed or the user dismissed it, and recently shown iff it was shown to the user less than seven days ago |
| Feedback.Store.Recommend | backend/app/api/v1/recommend.py:53-81 | The response is the exact re-rank of the candidates under the user's history as the tables have it, two per artist, and exactly the rows of its URLs are counted once more and dated |
| Feedback.Store.BuildMix | backend/app/api/v1/recommend.py:157-162 | A mix is the exact re-rank with the exclusions only, three per artist, and marks nothing |
| Feedback.Store.DismissUrl | backend/app/api/v1/recommend.py:84-98 | The upsert sets the dismissal on one row and leaves its counts and all other rows alone |
| Feedback.PicksAreFresh | backend/app/services/recommenders/history.py:19-39 | Nothing picked is dismissed, or requested in a job that has not failed; everything picked is a candidate |
| Feedback.ShownIsDemoted | backend/app/api/v1/recommend.py:64-68 | In every run For You at a limit of one gives the better of two fresh tracks, where 0.3 of the engine's score counts for one that the user's last response with it showed less than seven days ago |
| Feedback.DismissalIsForever | backend/app/api/v1/recommend.py:90-98 | From any state in which it is dismissed, no request of that user that reads its history later contains the URL, For You or mix |
| Feedback.DislikedNeverReturns | backend/app/api/v1/recommend.py:84-98 | In any run from an empty table, no request of the user read after the step that dismisses a URL ever contains it |
| Feedback.DismissedIff | backend/app/api/v1/recommend.py:90-98 | A URL is dismissed for a user iff that user dismissed it at some step of the run |
| Feedback.OwnRowsDecide | backend/app/services/recommenders/history.py:22-39 | What a user is offered depends on no other user's rows |
| Feedback.OthersChangeNothing | backend/app/api/v1/recommend.py:36-98 | Whatever other users do in a run, this user is offered the same |
| Feedback.MixIgnoresShown | backend/app/api/v1/recommend.py:158-162 | Being shown moves no mix: two tables with the same dismissals give the same mix at any time |
| Feedback.CountIsResponses | backend/app/api/v1/recommend.py:36-50 | In every run shown_count is the number of For You responses, never mixes, that contained the URL |
| Feedback.RecentIffShown | backend/app/services/recommenders/history.py:33-37 | In every run, requests overlapping in any way: a URL is demoted for a request iff the last For You response that contained it belongs to a request that began less than seven days earlier |
| Feedback.WindowIff | backend/app/api/v1/recommend.py:39-49 | That means seven days since any showing, at all times, iff no request that showed the URL began after the one that was answered last |
| Feedback.MovedBackByOverlap | backend/app/api/v1/recommend.py:46-49 | Only a request that began before another and was answered after it can be answered out of that order |
| Feedback.RowCanMoveBack | backend/app/api/v1/recommend.py:46-49 | A run in which two overlapping requests move a row's time back |
| Jobs.JobTable.FindActive | backend/app/services/jobs.py:16-33 | Answers none, the one row, or the error of several, over the rows with that URL, queued or running, of that user or of any |
| Jobs.JobTable.TryInsert | backend/app/services/jobs.py:91-98 | The insert goes through iff no active row has the same user and URL and the episode, if any, still exists |
| Jobs.JobTable.CreateIdempotent | backend/app/services/jobs.py:56-104 | With any other activity at its awaits, each outcome has its exact condition: new iff neither lookup nor insert met an active row and the episode exists; re-raised iff the insert was turned away, by a row or a missing episode, and no active row is there at the second lookup; a returned row is active when read |
| Jobs.JobTable.MarkRunning | backend/app/services/jobs.py:107-117 | Compare-and-set from queued, with the start time; otherwise an error and no change |
| Jobs.JobTable.MarkDone | backend/app/services/jobs.py:120-130 | Compare-and-set from running, with the finish time |
| Jobs.JobTable.MarkFailed | backend/app/services/jobs.py:133-143 | Compare-and-set from queued or running, with the finish time and the message |
| Jobs.JobTable.RecoverOrphaned | backend/app/services/jobs.py:152-177 | Exactly the running rows fail and their number is returned |
| Jobs.JobTable.Retry | backend/app/api/v1/admin.py:273-297 | Requeues a failed job iff no queued or running row has its URL, whoever owns that, and gives its new row; each other case is told apart and changes nothing |
| Jobs.LookupSeesAtMostOne | backend/app/models/job.py:34-40 | Under the partial unique index the user-scoped lookup sees at most one row |
| Jobs.RequeueKeeps | backend/app/api/v1/admin.py:284-295 | A retry keeps the unique index and the row shape |
| Jobs.RecoverFacts | backend/app/services/jobs.py:165-177 | Recovery changes exactly the running rows, to failed with the time and `orphaned at boot`, and a second one changes nothing |
| WorkerSteps.WorkedDelta | backend/app/services/workers.py:64-131 | Every step of a background worker is one of the allowed phase and row-state changes, on its own job only |
| WorkerSteps.WorkKeepsInv | backend/app/services/workers.py:64-253 | Every worker step keeps the whole invariant |
| HandlerSteps.HandleKeepsInv | backend/app/api/v1/download.py:26-49 | Every step of a download request keeps the whole invariant |
| EventSteps.RetryKeepsInv | backend/app/api/v1/admin.py:273-297 | A retry keeps it |
| EventSteps.DeleteSongKeepsInv | backend/app/api/v1/library.py:107-108 | Deleting a song's download rows keeps it |
| EventSteps.CrashKeepsInv | backend/app/services/workers.py:31-36 | Losing every worker and handler at any point keeps it |
| EventSteps.BootKeepsInv | backend/app/main.py:18-27 | Recovery at boot keeps it |
| EventSteps.StepKeepsInv | backend/app/services/workers.py:47-253 | Every enabled step of any interleaving keeps it |
| EventSteps.RunKeepsInv | backend/app/services/workers.py:47-253 | So does every run |
| Workers.Backend.RunJob | backend/app/services/workers.py:47-61 | Run undisturbed, a song, album or playlist job takes exactly a run of the protocol's steps for its worker and gives its slot back on every path; only a queued row is taken, and it ends done or failed with the downloader's, the database's or the missing file's message, a song's first file in the downloads table unless the user has a row for that URL |
| Workers.Backend.Phases | backend/app/services/workers.py:76-131 | Its three phases with their early returns and exception paths, ending with the worker about to leave |
| Workers.Backend.Record | backend/app/services/workers.py:101-132 | The row with the downloader's first file and `mark_done` go through together or the job is marked failed |
| Workers.Backend.RunEpisodeJob | backend/app/services/workers.py:177-253 | The same for an episode job: left alone without its episode, failed if that is gone, and never a download row |
| Workers.Backend.EpisodePhases | backend/app/services/workers.py:205-253 | The phases of an episode job, which writes no download row |
| ProtocolResults.SlotsAreConserved | backend/app/services/workers.py:39-61 | In every run, free slots plus workers inside a slot is the size of the pool |
| ProtocolResults.ExclusiveOwnership | backend/app/services/workers.py:76-131 | In every reachable state, with arbitrary duplicate dispatch, a running job has exactly one worker past `mark_running` |
| ProtocolResults.MarkDoneNeverRaises | backend/app/services/workers.py:101-127 | The final `mark_done` never finds its job in another state |
| ProtocolResults.DownloadsMatchJobs | backend/app/services/workers.py:101-127 | Every download row names a done song job of the same user and URL, and a done song job's key has a row iff `delete_song` did not take it away |
| ProtocolOrigins.RowsHaveTheFile | backend/app/services/workers.py:112-124 | In every run each download row has the file that the downloader returned last for its job, to a song worker |
| ProtocolOrigins.DeletesTheFile | backend/app/api/v1/library.py:107-108 | In every reachable state deleting a file takes exactly the rows of the jobs whose last download brought that file |
| ProtocolOrigins.DoneSongHasRow | backend/app/services/workers.py:106-127 | A done song job has its user's row for its URL, unless a deletion in the run took that row |
| ProtocolResults.DoneAnswersStayTrue | backend/app/api/v1/download.py:26-33 | Every synthetic done answer names a job that is done, in that state and every later one |
| ProtocolResults.NeverTwoActive | backend/app/models/job.py:34-40 | In every run there is at most one active job per user and URL |
| ProtocolResults.JoinedWasActive | backend/app/services/jobs.py:78-80 | Every deduplicated answer of every run was given at a lookup of its own request, and names a job that was active for the request's key at that very step |
| ProtocolResults.OneInsertPerPeriod | backend/app/services/jobs.py:91-104 | When a key's second row is inserted, the first one has finished: one deduped=False per active period |
| ProtocolResults.InsertRejectedIff | backend/app/services/jobs.py:91-99 | An insert is turned away iff a job is active for its key or its episode is gone, and for the episode iff no job is active |
| Requests.RequestAlone | backend/app/api/v1/download.py:26-49 | From any state a request undisturbed is answered done iff it is a song with a row of that user and URL, refused iff its episode is gone, joined to the queued or running job of that user and URL if there is one, and otherwise inserts exactly the new row and schedules one worker of its kind |
| Requests.RetryMeans | backend/app/api/v1/admin.py:290-296 | A retry puts exactly its row back to queued, for one more attempt, and the job can then be dispatched |
| Requests.EventsAreOpen | backend/app/api/v1/admin.py:273-289 | What may happen when: crash always, boot when down, a retry iff the row failed and no queued or running row has its URL, the rest when up |
| ProtocolResults.EscapeOnlyIfLeft | backend/app/services/jobs.py:99-103 | At the second lookup the error escapes iff no job is active; in every run its cause turned this same request's insert away at an earlier step, since which the handler has waited, and a job that did so is active no longer |
| ProtocolResults.GoneEpisodeEscapes | backend/app/services/jobs.py:99-103 | A reachable run in which an episode deleted between lookup and insert makes the error escape |
| ProtocolResults.RowsPersist | backend/app/services/jobs.py:107-177 | No step deletes a job, changes its user or URL, or undoes done |
| ProtocolResults.AttemptsAndShape | backend/app/services/jobs.py:107-149 | The downloader starts at most attempt_count times, plus one unless queued; error, finish and start fields are set exactly in the states they belong to |
| ProtocolOrigins.OneStartPerAttempt | backend/app/services/jobs.py:107-117 | Counted over the run's steps: a job goes from queued to running at most once per attempt |
| ProtocolOrigins.AttemptsAreRetries | backend/app/api/v1/admin.py:294 | attempt_count is the number of retries in the run |
| ProtocolOrigins.GoneIff | backend/app/services/workers.py:211-215 | The episodes a worker does not find are those deleted in the run |
| ProtocolResults.CrashThenBoot | backend/app/main.py:18-27 | Crash and boot at any point keep the invariant, fail exactly the running jobs, report their number, and report 0 when repeated |
| ProtocolResults.KeyFreedIff | backend/app/services/jobs.py:155-160 | After crash and boot at any point a request inserts a new job iff none of its key was queued at the crash, it is no downloaded song, and its episode exists |
| ProtocolResults.FreedKeyCanBeCreated | backend/app/services/jobs.py:155-160 | So the key a crashed download held can be requested again and gets a new row |
| Stranding.QueuedIsStranded | backend/app/services/jobs.py:165-170 | A job still queued at a crash stays queued in every later run: no worker takes it, it cannot be retried, and every lookup and insert for its key is turned away with it |
| Stranding.QueuedIsReachable | backend/app/services/workers.py:55-61 | Such a job is reachable: one whose worker waits for its slot |
| Stranding.RetryForsakesIff | backend/app/api/v1/admin.py:290-296 | A retry's commit leaves a queued job with nobody to take it iff no worker is on its way to the job at that moment |
| Stranding.RetryStrands | backend/app/api/v1/admin.py:290-296 | Such a job stays queued in every run without a further dispatch of it, crashes included; it cannot be retried, and every lookup and insert for its key is turned away with it |
| Stranding.RetryStrandsIff | backend/app/api/v1/admin.py:290-296 | In every reachable state with a slot: once workers and handlers have come to rest after a retry, however interleaved, the job is still queued iff no worker was coming for it at the commit |
| Stranding.RetryCanBeOvertaken | backend/app/api/v1/download.py:43-45 | Wherever a retry is possible and a slot is free, its worker can come, find the row failed and leave before the commit, which ends as a retry that dispatched nothing would |
| Stranding.RetryCanStrand | backend/app/api/v1/admin.py:290-296 | A run from the empty database that ends so |
| ProtocolTermination.InternalDecreases | backend/app/services/workers.py:60-142 | Every step that is not a new request lowers the measure |
| ProtocolTermination.InternalRunsEnd | backend/app/services/workers.py:60-142 | So no run without new requests is longer than the measure |
| ProtocolTermination.Progress | backend/app/services/workers.py:39-61 | Until all workers and handlers are finished some step is enabled: the slots cannot deadlock |
| ProtocolTermination.RestIsClean | backend/app/services/workers.py:76-253 | At rest all slots are free, nothing is running, and every job an endpoint dispatched is done or failed, except an episode job whose episode was deleted |
| ProtocolTermination.RunsToRest | backend/app/services/workers.py:47-253 | From every good state the system can run to rest on its own |
| ProtocolTermination.QuietRunsSettle | backend/app/services/workers.py:47-253 | From every reachable state with a slot, every internal run is bounded, and one that no internal step can extend has ended with all slots free, nothing running and every endpoint-dispatched job settled |
| ProtocolTermination.StartedJobFinishes | backend/app/api/v1/download.py:46-49 | A job answered with deduped=False is done or failed, or has lost its episode, once everything has come to rest, after any run in which the process did not crash and the job was not retried |
| Jam.RowsAreTheQuery | backend/app/api/v1/jam.py:204-208 | The rows are ascending in id and are exactly the session's commands above the cursor |
| Jam.CursorIsMax | backend/app/api/v1/jam.py:219-222 | The returned cursor is the greatest id in the batch, or the old one, and no row lies beyond it |
| Jam.CreateKeeps | backend/app/api/v1/jam.py:93-106 | Creating a session keeps codes unique and leaves it the host's only live one |
| Jam.CreateMeans | backend/app/api/v1/jam.py:93-106 | A new session ends the host's sessions that were not over, at that time, and leaves every other row as it was; a code is refused iff another host's session that has not ended holds it |
| Jam.AnswerShape | backend/app/api/v1/jam.py:213-223 | An ended answer carries no command and leaves the cursor alone; a live one carries the whole query; the cursor moves iff there are commands |
| Jam.Relay.CreateSession | backend/app/api/v1/jam.py:93-107 | The first drawn code that no other host's session holds wins, and exactly the host's own sessions end; it fails iff all five are held, and then nothing changes |
| Jam.Relay.EndSession | backend/app/api/v1/jam.py:110-120 | Only the host ends a session, and the first end time is kept |
| Jam.Relay.JoinSession | backend/app/api/v1/jam.py:129-144 | Finds the active session with the code iff there is one, and refuses its own host |
| Jam.Relay.SendCommand | backend/app/api/v1/jam.py:159-167 | Assigns the next id iff the session is active; the row is not yet readable |
| Jam.Relay.PushState | backend/app/api/v1/jam.py:235-240 | Stores the snapshot only for the host and only while active |
| Jam.Relay.HostSync | backend/app/api/v1/jam.py:177-223 | With the database changing between re-checks: stops at the first one that shows the session over or a command beyond the cursor, or at the deadline, and answers with all of that re-check's commands beyond the cursor, in order, and the last id |
| JamDelivery.Accounting | backend/app/api/v1/jam.py:187-223 | In every run, whatever the commit order: delivered ids strictly increase, bodies are those sent, and every readable command is exactly one of stale at bootstrap, delivered, late or beyond the cursor |
| JamDelivery.CompleteIff | backend/app/api/v1/jam.py:201-222 | Nothing is missing between bootstrap and cursor iff no command above the bootstrap committed late |
| JamDelivery.InOrderIsComplete | backend/app/api/v1/jam.py:201-222 | When commands commit in id order the batches together are exactly the session's commands with bootstrap < id <= cursor, in order |
| JamDelivery.PollCatchesUp | backend/app/api/v1/jam.py:213-223 | A poll answered while active leaves nothing readable beyond the cursor |
| JamDelivery.LostForever | backend/app/api/v1/jam.py:201-222 | A command that committed late is never delivered unless the host starts over |
| JamDelivery.OvertakenIsLost | backend/app/api/v1/jam.py:162-167 | Two commands in flight, the higher id commits first, the host polls, the lower one commits: the lower one is late |
| JamDelivery.TwoInFlight | backend/app/api/v1/jam.py:162-167 | Such a state is reachable |
| JamDelivery.OverIsOver | backend/app/api/v1/jam.py:179-215 | Once ended or expired a session stays so, its snapshot is frozen and its host is told nothing more |
| JamDelivery.SentWhileActive | backend/app/api/v1/jam.py:159-167 | Every readable command was sent before its session ended and before it expired |
| JamDelivery.OneLiveSession | backend/app/api/v1/jam.py:93-106 | In every run no two live sessions share a code or a host |
| JamDelivery.OnlyTheHostEnds | backend/app/api/v1/jam.py:93-120 | In every run a session is ended only by a step that ends it or by its own host opening another, and carries the time of that step |
| JamDelivery.EndTakesEffect | backend/app/api/v1/jam.py:93-120 | Both take effect at once |
| JamDelivery.EveryCommandWasSent | backend/app/api/v1/jam.py:147-167 | Every command in the relay is one a guest sent to that session, unchanged |
| JamDelivery.BootstrapSkips | backend/app/api/v1/jam.py:187-191 | A bootstrap delivers nothing and its cursor is the greatest id readable |
| JamDelivery.CommitOrAbort | backend/app/api/v1/jam.py:162-167 | A flushed command is out of sight until its commit, which makes exactly it readable; an abort forgets it |
| JamDelivery.SnapshotIsLastPush | backend/app/api/v1/jam.py:227-241 | A session's snapshot is the one its host pushed last |
| JamDelivery.SessionsStep | backend/app/api/v1/jam.py:93-120 | The steps of a run change the sessions as the endpoints do and nothing else does |
| JamDelivery.ActionsAreOpen | backend/app/api/v1/jam.py:154-182 | What may happen when: commands, pushes, bootstraps only while the session is neither ended nor expired, a creation unless another host's session holds the code |
| Decimal.MatchMeans | backend/app/services/range_file.py:14 | The match succeeds exactly on texts of the pattern's form and the groups are the only ones that fit |
| Decimal.ParsePrint | backend/app/services/range_file.py:39-44 | Reading back a printed number gives the number |
| Decimal.ReadDigit | backend/app/services/range_file.py:39-44 | A number is read digit by digit from the left, leading zeros and all |
| RangeFile.RangeIsTheRequest | backend/app/services/range_file.py:28-49 | A range is exactly the requested or suffix positions the file has, and is refused iff it has none of them |
| RangeFile.WholeIff | backend/app/services/range_file.py:28-35 | The whole file is served iff there is no header or it does not, after white space, have the form `bytes=` digits `-` digits with a digit on one side at least |
| RangeFile.RangeMeans | backend/app/services/range_file.py:37-49 | The positions a header of that form gets, from its two numbers and the size, for suffix, open and closed ranges |
| RangeFile.ParseRoundTrip | backend/app/services/range_file.py:28-49 | A printed `bytes=s-e`, with any white space around it, gives (s, min(e, size-1)) iff s <= e and s < size |
| RangeFile.IterFileRange | backend/app/services/range_file.py:52-62 | The chunks put together are data[start..end], however short the reads, also for the empty (0, -1) range and a file that shrank |
| RangeFile.HeadersAre | backend/app/api/v1/podcasts.py:383-399 | The Content-Range of an answer and of a refusal, as text |
| RangeFile.StreamEpisode | backend/app/api/v1/podcasts.py:354-406 | Without a range 200 and the whole file; otherwise status, Content-Range and Content-Length agree with the parsed range and the size found; the body is exactly that range, and of the announced length, iff the file still reaches that far when it is read; the error cases are told apart |
| RangeFile.ResumeIsTheRest | backend/app/services/range_file.py:43-49 | `bytes=k-` gets exactly the rest of the file |
| Preview.Body | backend/app/api/v1/preview.py:137-153 | The loop computes the stream: received bytes, later fetches, and whether it ended normally |
| Preview.ServeRange | backend/app/api/v1/preview.py:119-163 | From the first fetch to the response, with its two error answers |
| Preview.PreviewStream | backend/app/api/v1/preview.py:95-163 | Each refusal has its status; otherwise the proxied answer for the header's range |
| Preview.MatchRangeMeans | backend/app/api/v1/preview.py:44 | The header matches iff it reads `bytes=` digits `-` digits, with a digit before the dash and nothing but a line feed after |
| Preview.FirstReplyDecides | backend/app/api/v1/preview.py:115-136 | For every upstream the reply to the first fetch, of a mebibyte at most from the named start, decides: 502 unless it is a 206 with a total, 416 when that is at or below the start, else 206 or, without a range, 200 |
| Preview.RangeIsServed | backend/app/api/v1/preview.py:115-163 | With an honest upstream a header naming a start inside the file, open-ended or not, gets exactly the named bytes the file has, with 206 |
| Preview.NoRangeIsWhole | backend/app/api/v1/preview.py:115-163 | Any other header gets the whole file with 200 |
| Preview.StreamIsPrefix | backend/app/api/v1/preview.py:137-153 | However the upstream fails, what was streamed is a prefix of the bytes asked for, and all of them if the stream ends normally |
| Preview.StitchingIsSlicing | backend/app/api/v1/preview.py:115-163 | A forward range inside the file is refused with 502 or announces file[start..end] in status, Content-Range and Content-Length and carries a prefix of it |
| Preview.FetchesAreBounded | backend/app/api/v1/preview.py:119-153 | Whatever the upstream answers, the first fetch asks for 1 to _CHUNK bytes iff the range is not reversed; if it is not, so does every fetch of a response, and a completed one took exactly ceil(length / _CHUNK) of them |
| Preview.FetchesAreAll | backend/app/api/v1/preview.py:119-153 | Those are all the fetches: two upstreams that agree on the first one and on those the response lists give the same answer |
| Preview.HonestIsWhole | backend/app/api/v1/preview.py:115-163 | An upstream that never fails gives the whole slice, as long as its Content-Length |
| Preview.BadLengthIff | backend/app/api/v1/preview.py:119-155 | A response with a Content-Length below 1 starts iff the range is reversed and the upstream answers the reversed fetch with 206 and a total beyond its start |
| Preview.ReversedRange | backend/app/api/v1/preview.py:88-155 | For `bytes=5-3` an upstream that answers 206 of ten gives Content-Length -1, one that answers anything else gives 502 |
| Preview.PrintedRange | backend/app/api/v1/preview.py:115-163 | A client that asks for `bytes=s-e` is served exactly those bytes with 206 |

## Left out

- HTTP clients, yt-dlp, ytmusicapi, feed parsing, spotDL subprocesses: foreign calls, taken as arbitrary results or failures.
- Authentication, tokens, settings, profiles, middleware, logging: thin lookups with one-branch claims.
- Floating-point rounding of scores: exact reals are used, so a tie or a comparison that only rounding decides is not captured.
- Title matching in `is_alt_version`, `strip` and `lower`, error classification: parameters.
- Caches and playlist fetching of the mix builder; the expansion of a seed up to its candidate list.
- Download jobs: the cut of an error text to its last 2000 characters; database failures in `mark_running` and `_safe_mark_failed`; the token and display-name columns; the episode row's path, size and time fields.
- Download jobs: overlapping retries of one job and several processes, where the invariants are not claimed.
- Rerank.SizeIgnoresScoresAndHistory: assumes room for copies, which is sufficient and not necessary for the number of results alone. Whether that number can vary at a given limit is whether a maximal assignment of URLs to artists can be shorter than the limit and the longest one, an NP-hard question, so no condition is given that a caller could check.
- Workers.Backend.RunJob: one worker undisturbed, with a slot free on entry; interleavings and waiting are those of `Protocol`, whose steps it takes.
- Workers.Backend.RunEpisodeJob: one worker undisturbed, with a slot free on entry, as for `Workers.Backend.RunJob`.
- Pipelines.ForYouIsOptimal: the Last.fm and ListenBrainz engines and the fallback chain, which may repeat a URL; for those `SharedUrls.GreedyOptimalIff` says exactly when.
- JobEnqueuer and background scheduling: a dispatched worker is simply there, and starts when a slot is free.
- Jam: overlapping session creates by one host, command payload validation, user names, `get_state`; sleeping between re-checks and the pool connection.
- JamDelivery: the code's strip-and-upper is the parameter `norm` of `Jam.Relay.JoinSession`; a lost HTTP response is a poll that did not happen.
- Feedback: deletion of a user, which cascades to the rows; the cover URLs of a response.
- Ranges: the interpreter's limit on the number of digits it converts; media types; the opening and closing of upstream connections.
- RangeFile.StreamEpisode: the file may change between taking its size and reading it, but not from one read to the next.
- Preview.StitchingIsSlicing: says nothing for a reversed range, where the upstream's answer to a reversed fetch is arbitrary; `Preview.BadLengthIff` says what is announced then.
- Kotlin widgets, image and wave generation, migrations, feed ingest, URL canonicalisation, duration parsing: they would only add easier members.
