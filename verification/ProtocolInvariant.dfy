/** What every step of the download protocol keeps. */
module ProtocolInvariant {
  import opened Wrappers
  import opened Jobs
  import opened Protocol

  // ----- The invariant, part by part

  /** Workers holding a slot: all but the waiting ones. */
  ghost function Holding(ws: map<WorkerId, Worker>): set<WorkerId> { set w | w in ws && !ws[w].phase.Waiting? }

  ghost predicate SlotsConserved(s: Sys) { s.free + |Holding(s.workers)| == s.slots }

  ghost predicate Owns(s: Sys, w: WorkerId, j: JobId) {
    w in s.workers && s.workers[w].job == j && s.workers[w].phase.Claimed()
  }

  /** A worker past `mark_running` has its job running and shares it with no other such worker; while the
      process is up every running job has such a worker. */
  ghost predicate Ownership(s: Sys) {
    && (forall w | w in s.workers && s.workers[w].phase.Claimed() :: CanFinish(s.jobs, s.workers[w].job))
    && (forall v, w, j | Owns(s, v, j) && Owns(s, w, j) :: v == w)
    && (s.up ==> forall j | j in s.jobs && s.jobs[j].state == Running :: exists w :: Owns(s, w, j))
  }

  /** An episode worker that is not leaving has a never-retried episode job, still queued until the
      worker claims it. */
  ghost predicate PodcastTasks(s: Sys) {
    forall w | w in s.workers && s.workers[w].podcast && !s.workers[w].phase.Leaving? ::
      var j := s.workers[w].job;
      && j in s.jobs && s.jobs[j].kind == Episode && s.jobs[j].attempts == 0
      && (s.workers[w].phase.Pending() ==> s.jobs[j].state == Queued)
  }

  /** A song worker works on an episode job only after a retry, or finds it failed. */
  ghost predicate SongTasks(s: Sys) {
    forall w | w in s.workers && !s.workers[w].podcast ::
      var j := s.workers[w].job;
      && !s.workers[w].phase.Looking? && !s.workers[w].phase.EpisodeMissing?
      && (j in s.jobs && s.jobs[j].kind == Episode ==> s.jobs[j].attempts > 0 || s.jobs[j].state == Failed)
  }

  /** No two episode workers have the same job. */
  ghost predicate OnePodcastTask(s: Sys) {
    forall v, w | v in s.workers && w in s.workers && s.workers[v].podcast && s.workers[w].podcast
                  && s.workers[v].job == s.workers[w].job && !s.workers[v].phase.Leaving?
                  && !s.workers[w].phase.Leaving? :: v == w
  }

  ghost predicate EpisodeTasks(s: Sys) { PodcastTasks(s) && SongTasks(s) && OnePodcastTask(s) }

  /** A handler about to schedule its job: the row is there, and an episode job is untouched so far. */
  ghost predicate EnqueueReady(s: Sys) {
    && (forall h | h in s.handlers && s.handlers[h].Enqueuing? ::
          var req, j := s.handlers[h].req, s.handlers[h].job;
          && j in s.jobs && s.jobs[j].Key() == req.Key() && s.jobs[j].kind == req.kind
          && (req.kind == Episode ==>
                && s.jobs[j].state == Queued && s.jobs[j].attempts == 0
                && forall w | w in s.workers :: s.workers[w].job != j))
    && (forall g, h | g in s.handlers && h in s.handlers && s.handlers[g].Enqueuing? && s.handlers[h].Enqueuing?
                      && s.handlers[g].job == s.handlers[h].job :: g == h)
  }

  /** Only songs, albums, playlists and retried jobs are scheduled on `run_job`. */
  ghost predicate Dispatchable(s: Sys) {
    forall j | j in s.enqueued :: j in s.jobs && (s.jobs[j].kind == Episode ==> s.jobs[j].attempts > 0)
  }

  ghost predicate DownKeepsNothing(s: Sys) {
    !s.up ==> s.workers == map[] && s.handlers == map[] && s.pledged == {} && s.enqueued == {}
  }

  /** Download rows point at done song jobs of their key; a done song job's key has a row unless
      `delete_song` took it. */
  ghost predicate DownloadsAgree(s: Sys) {
    && (forall k | k in s.downloads ::
          var j := s.downloads[k].job;
          j in s.jobs && s.jobs[j].kind == Song && s.jobs[j].state == Done && s.jobs[j].Key() == k)
    && (forall j | j in s.jobs && s.jobs[j].kind == Song && s.jobs[j].state == Done ::
          s.jobs[j].Key() in s.downloads || s.jobs[j].Key() in s.removed)
    && s.removed !! s.downloads.Keys
  }

  ghost predicate RunsBounded(s: Sys) {
    && s.runs.Keys <= s.jobs.Keys
    && forall j | j in s.jobs :: Runs(s, j) <= s.jobs[j].attempts + if s.jobs[j].state == Queued then 0 else 1
  }

  ghost predicate KeyOf(s: Sys, j: JobId, key: DownloadKey) { j in s.jobs && s.jobs[j].Key() == key }

  /** What was answered stays true of the rows it names. */
  ghost predicate AnswersTrue(s: Sys) {
    && (forall i | 0 <= i < |s.log| ::
          match s.log[i].outcome
          case WasDone(j) => KeyOf(s, j, s.log[i].req.Key()) && s.jobs[j].kind == Song && s.jobs[j].state == Done
          case Joined(j) => KeyOf(s, j, s.log[i].req.Key())
          case Started(j) => KeyOf(s, j, s.log[i].req.Key()) && s.jobs[j].kind == s.log[i].req.kind
          case Escaped(Blocked(j)) => KeyOf(s, j, s.log[i].req.Key())
          case Escaped(EpisodeGone(ep)) => ep in s.gone
          case NoEpisode => true)
    && (forall h | h in s.handlers && s.handlers[h].Rejected? ::
          match s.handlers[h].cause
          case Blocked(j) => KeyOf(s, j, s.handlers[h].req.Key())
          case EpisodeGone(ep) => ep in s.gone)
  }

  /** Each new row is announced by one handler only. */
  ghost predicate StartedOnce(s: Sys) {
    && (forall i, k | 0 <= i < k < |s.log| && s.log[i].outcome.Started? && s.log[k].outcome.Started? ::
          s.log[i].outcome.job != s.log[k].outcome.job)
    && (forall i, h | 0 <= i < |s.log| && s.log[i].outcome.Started? && h in s.handlers && s.handlers[h].Enqueuing? ::
          s.log[i].outcome.job != s.handlers[h].job)
  }

  /** Episode jobs: one that never lost its episode still has it, and requests are well formed. */
  ghost predicate EpisodeRows(s: Sys) {
    && (forall j, ep | j in s.jobs && s.jobs[j].episode == Some(ep) :: ep !in s.gone)
    && (forall h | h in s.handlers :: s.handlers[h].req.WellFormed())
  }

  ghost predicate Nulled(s: Sys, j: JobId) { j in s.jobs && s.jobs[j].kind == Episode && s.jobs[j].episode.None? }

  ghost predicate OnItsWay(s: Sys, w: WorkerId, j: JobId) {
    w in s.workers && s.workers[w].job == j && s.workers[w].phase.Pending()
  }

  /** A pledged job that is still queued has a worker on its way to it, or lost its episode. */
  ghost predicate PledgesKept(s: Sys) {
    forall j | j in s.pledged ::
      j in s.jobs && (s.jobs[j].state == Queued ==> Nulled(s, j) || exists w :: OnItsWay(s, w, j))
  }

  /** The tables, the slots and the workers. */
  ghost predicate BackGood(s: Sys) {
    && GoodTable(s.jobs)
    && SlotsConserved(s)
    && Ownership(s)
    && EpisodeTasks(s)
    && Dispatchable(s)
    && DownloadsAgree(s)
    && RunsBounded(s)
    && PledgesKept(s)
  }

  /** The handlers and the answers. */
  ghost predicate FrontGood(s: Sys) { EnqueueReady(s) && AnswersTrue(s) && StartedOnce(s) && EpisodeRows(s) }

  ghost predicate Inv(s: Sys) { BackGood(s) && FrontGood(s) && DownKeepsNothing(s) }
}
