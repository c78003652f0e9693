/** The steps of background workers keep the invariant. */
module WorkerSteps {
  import opened Wrappers
  import opened Jobs
  import opened Protocol
  import opened ProtocolInvariant

  // ----- What a step does, seen from the job's row

  ghost function StateOf(t: Table, j: JobId): Option<JobState> { if j in t then Some(t[j].state) else None }

  /** The phase and row-state changes a step can make. */
  ghost predicate Moves(p: Phase, podcast: bool, nulled: bool, st: Option<JobState>, p': Phase, st': Option<JobState>) {
    || (p.Waiting? && p'.Loading? && st' == st)
    || (p.Loading? && podcast && p'.Looking? && st' == st)
    || ((p.Loading? || p.Looking?) && p'.Fetching? && st == Some(Queued) && st' == Some(Running))
    || ((p.Loading? || p.Looking?) && p'.Leaving? && st' == st && (st != Some(Queued) || (podcast && nulled)))
    || (p.Looking? && p'.EpisodeMissing? && st' == st)
    || ((p.EpisodeMissing? || p.Failing?) && p'.Leaving?
        && st' == if st == Some(Queued) || st == Some(Running) then Some(Failed) else st)
    || ((p.Fetching? || p.Fetched?) && p'.Failing? && st' == st)
    || (p.Fetching? && p'.Fetched? && st' == st)
    || (p.Fetched? && p'.Leaving? && st == Some(Running) && st' == Some(Done))
  }

  /** The rows agree on everything but progress. */
  ghost predicate SameRequest(a: Job, b: Job) {
    a.user == b.user && a.url == b.url && a.kind == b.kind && a.attempts == b.attempts && a.episode == b.episode
  }

  ghost predicate OnlyRow(s: Sys, t: Sys, j: JobId) {
    && t.jobs.Keys == s.jobs.Keys
    && (forall i | i in s.jobs && i != j :: t.jobs[i] == s.jobs[i])
    && (j in s.jobs ==> SameRequest(s.jobs[j], t.jobs[j]))
  }

  ghost predicate Untouched(s: Sys, t: Sys) {
    && t.handlers == s.handlers && t.log == s.log && t.pledged == s.pledged && t.enqueued == s.enqueued
    && t.gone == s.gone
    && t.slots == s.slots && t.up == s.up && t.recovered == s.recovered
  }

  /** The worker moves on to phase `q`. */
  ghost predicate Stays(s: Sys, t: Sys, w: WorkerId, q: Phase)
    requires w in s.workers
  {
    && t.workers == s.workers[w := s.workers[w].(phase := q)]
    && t.free == s.free - (if s.workers[w].phase.Waiting? then 1 else 0)
    && var j := s.workers[w].job;
       Moves(s.workers[w].phase, s.workers[w].podcast, j in s.jobs && s.jobs[j].episode.None?,
             StateOf(s.jobs, j), q, StateOf(t.jobs, j))
  }

  /** The worker is over. */
  ghost predicate Goes(s: Sys, t: Sys, w: WorkerId)
    requires w in s.workers
  {
    s.workers[w].phase.Leaving? && t.workers == s.workers - {w} && t.jobs == s.jobs && t.free == s.free + 1
  }

  ghost predicate Delta(s: Sys, t: Sys, w: WorkerId, q: Option<Phase>) {
    && w in s.workers
    && Untouched(s, t)
    && OnlyRow(s, t, s.workers[w].job)
    && if q.Some? then Stays(s, t, w, q.value) else Goes(s, t, w)
  }

  lemma ClaimsDelta(s: Sys, w: WorkerId, now: int) returns (q: Option<Phase>)
    requires w in s.workers && (s.workers[w].phase.Loading? || s.workers[w].phase.Looking?)
    ensures Delta(s, Claims(s, w, now), w, q)
  {
    q := Some(if CanClaim(s.jobs, s.workers[w].job) then Fetching else Leaving);
  }

  lemma LoadsDelta(s: Sys, w: WorkerId, now: int) returns (q: Option<Phase>)
    requires w in s.workers && s.workers[w].phase.Loading?
    ensures Delta(s, Loads(s, w, now), w, q)
  {
    var k := s.workers[w];
    if k.job in s.jobs && !k.podcast {
      q := ClaimsDelta(s, w, now);
    } else if k.job in s.jobs && s.jobs[k.job].episode.Some? {
      q := Some(Looking(s.jobs[k.job].episode.value));
    } else {
      q := Some(Leaving);
    }
  }

  lemma FailsDelta(s: Sys, w: WorkerId, now: int, msg: string)
    requires w in s.workers && (s.workers[w].phase.EpisodeMissing? || s.workers[w].phase.Failing?)
    ensures Delta(s, Fails(s, w, now, msg), w, Some(Leaving))
  {
  }

  lemma BookedDelta(s: Sys, t: Sys, w: WorkerId, now: int)
    requires w in s.workers && s.workers[w].phase.Fetched? && CanFinish(s.jobs, s.workers[w].job)
    requires t.jobs == Finish(s.jobs, s.workers[w].job, now)
    requires t.workers == s.workers[w := s.workers[w].(phase := Leaving)] && t.free == s.free && Untouched(s, t)
    ensures Delta(s, t, w, Some(Leaving))
  {
  }

  lemma BooksDelta(s: Sys, w: WorkerId, now: int) returns (q: Option<Phase>)
    requires w in s.workers && s.workers[w].phase.Fetched?
    ensures Delta(s, Books(s, w, now), w, q)
  {
    var t := Books(s, w, now);
    if Records(s, w) && s.workers[w].phase.path.None? {
      q := Some(Failing(NO_AUDIO));
      assert t == Moved(s, w, q.value);
    } else if !CanFinish(s.jobs, s.workers[w].job) {
      q := Some(Failing(WRONG_STATE));
      assert t == Moved(s, w, q.value);
    } else {
      q := Some(Leaving);
      BookedDelta(s, t, w, now);
    }
  }

  lemma WorkedDelta(s: Sys, w: WorkerId, ws: WorkerStep) returns (q: Option<Phase>)
    requires CanWork(s, w, ws)
    ensures Delta(s, Worked(s, w, ws), w, q)
  {
    match ws {
      case Acquire => q := Some(Loading);
      case Load(now) => q := LoadsDelta(s, w, now);
      case LookEpisode(now) =>
        if s.workers[w].phase.ep in s.gone {
          q := Some(EpisodeMissing);
        } else {
          q := ClaimsDelta(s, w, now);
        }
      case FailMissing(now) => FailsDelta(s, w, now, NO_EPISODE); q := Some(Leaving);
      case RunnerReturns(file) => q := Some(Fetched(file));
      case RunnerFails(msg) => q := Some(Failing(msg));
      case Book(now) => q := BooksDelta(s, w, now);
      case BookFault(msg) => q := Some(Failing(msg));
      case MarkFailed(now) => FailsDelta(s, w, now, s.workers[w].phase.msg); q := Some(Leaving);
      case Leave => q := None;
    }
  }

  // ----- What follows from the change

  lemma HoldingMoves(s: Sys, t: Sys, w: WorkerId, q: Option<Phase>)
    requires Delta(s, t, w, q)
    ensures Holding(t.workers) == if q.None? then Holding(s.workers) - {w} else Holding(s.workers) + {w}
    ensures w in Holding(s.workers) <==> !s.workers[w].phase.Waiting?
  {
  }

  lemma SizeWith(a: set<WorkerId>, w: WorkerId)
    ensures |a + {w}| == |a| + if w in a then 0 else 1
    ensures |a - {w}| == |a| - if w in a then 1 else 0
  {
    if w in a {
      assert a + {w} == a;
    } else {
      assert a - {w} == a;
    }
  }

  lemma SlotsKept(s: Sys, t: Sys, w: WorkerId, q: Option<Phase>)
    requires Delta(s, t, w, q) && SlotsConserved(s)
    ensures SlotsConserved(t)
  {
    HoldingMoves(s, t, w, q);
    SizeWith(Holding(s.workers), w);
  }

  /** A step leaves a job alone while another worker owns it. */
  lemma OwnedElsewhere(s: Sys, t: Sys, w: WorkerId, q: Option<Phase>, v: WorkerId)
    requires Delta(s, t, w, q) && Ownership(s) && EpisodeTasks(s)
    requires v != w && Owns(s, v, s.workers[w].job)
    ensures StateOf(t.jobs, s.workers[w].job) == StateOf(s.jobs, s.workers[w].job) == Some(Running)
  {
    var j := s.workers[w].job;
    assert !Owns(s, w, j);
    assert CanFinish(s.jobs, s.workers[v].job);
  }

  lemma ClaimedStillRuns(s: Sys, t: Sys, w: WorkerId, q: Option<Phase>, v: WorkerId)
    requires Delta(s, t, w, q) && Ownership(s) && EpisodeTasks(s)
    requires v in t.workers && t.workers[v].phase.Claimed()
    ensures CanFinish(t.jobs, t.workers[v].job)
  {
    var j := s.workers[w].job;
    if v == w {
      assert s.workers[w].phase.Claimed() ==> CanFinish(s.jobs, j);
    } else {
      assert s.workers[v] == t.workers[v];
      assert CanFinish(s.jobs, s.workers[v].job);
      if s.workers[v].job == j {
        OwnedElsewhere(s, t, w, q, v);
      }
    }
  }

  lemma OneOwner(s: Sys, t: Sys, w: WorkerId, q: Option<Phase>, v: WorkerId, u: WorkerId, i: JobId)
    requires Delta(s, t, w, q) && Ownership(s) && Owns(t, v, i) && Owns(t, u, i) && v != w
    ensures v == u
  {
    assert Owns(s, v, i);
    assert CanFinish(s.jobs, i);
    if u != w || s.workers[w].phase.Claimed() {
      assert Owns(s, u, i);
    }
  }

  lemma RunningOwned(s: Sys, t: Sys, w: WorkerId, q: Option<Phase>, i: JobId)
    requires Delta(s, t, w, q) && Ownership(s) && s.up && i in t.jobs && t.jobs[i].state == Running
    ensures exists v :: Owns(t, v, i)
  {
    if s.jobs[i].state == Running {
      var v :| Owns(s, v, i);
      assert Owns(t, v, i);
    } else {
      assert Owns(t, w, i);
    }
  }

  lemma OwnershipKept(s: Sys, t: Sys, w: WorkerId, q: Option<Phase>)
    requires Delta(s, t, w, q) && Ownership(s) && EpisodeTasks(s)
    ensures Ownership(t)
  {
    forall v | v in t.workers && t.workers[v].phase.Claimed() ensures CanFinish(t.jobs, t.workers[v].job) {
      ClaimedStillRuns(s, t, w, q, v);
    }
    forall v, u, i | Owns(t, v, i) && Owns(t, u, i) ensures v == u {
      if v != w {
        OneOwner(s, t, w, q, v, u, i);
      } else if u != w {
        OneOwner(s, t, w, q, u, v, i);
      }
    }
    if t.up {
      forall i | i in t.jobs && t.jobs[i].state == Running ensures exists v :: Owns(t, v, i) {
        RunningOwned(s, t, w, q, i);
      }
    }
  }

  lemma PodcastTaskKept(s: Sys, t: Sys, w: WorkerId, q: Option<Phase>, v: WorkerId)
    requires Delta(s, t, w, q) && Ownership(s) && EpisodeTasks(s)
    requires v in t.workers && t.workers[v].podcast && !t.workers[v].phase.Leaving?
    ensures var j := t.workers[v].job;
            && j in t.jobs && t.jobs[j].kind == Episode && t.jobs[j].attempts == 0
            && (t.workers[v].phase.Pending() ==> t.jobs[j].state == Queued)
  {
    if v != w {
      assert t.workers[v] == s.workers[v];
      assert s.workers[v].job == s.workers[w].job ==> s.workers[w].phase.Leaving?;
    }
  }

  lemma EpisodeTasksKept(s: Sys, t: Sys, w: WorkerId, q: Option<Phase>)
    requires Delta(s, t, w, q) && Ownership(s) && EpisodeTasks(s)
    ensures EpisodeTasks(t)
  {
    forall v | v in t.workers && t.workers[v].podcast && !t.workers[v].phase.Leaving?
      ensures var j := t.workers[v].job;
              && j in t.jobs && t.jobs[j].kind == Episode && t.jobs[j].attempts == 0
              && (t.workers[v].phase.Pending() ==> t.jobs[j].state == Queued)
    {
      PodcastTaskKept(s, t, w, q, v);
    }
    OthersKept(s, t, w, q);
  }

  lemma OthersKept(s: Sys, t: Sys, w: WorkerId, q: Option<Phase>)
    requires Delta(s, t, w, q) && SongTasks(s) && OnePodcastTask(s)
    ensures SongTasks(t) && OnePodcastTask(t)
  {
  }

  lemma EnqueueReadyKept(s: Sys, t: Sys, w: WorkerId, q: Option<Phase>)
    requires Delta(s, t, w, q) && EnqueueReady(s)
    ensures EnqueueReady(t)
  {
  }

  lemma AnswersKept(s: Sys, t: Sys, w: WorkerId, q: Option<Phase>)
    requires Delta(s, t, w, q) && AnswersTrue(s)
    ensures AnswersTrue(t)
  {
  }

  lemma EpisodeRowsKept(s: Sys, t: Sys, w: WorkerId, q: Option<Phase>)
    requires Delta(s, t, w, q) && EpisodeRows(s)
    ensures EpisodeRows(t)
  {
  }

  lemma DispatchableKept(s: Sys, t: Sys, w: WorkerId, q: Option<Phase>)
    requires Delta(s, t, w, q) && Dispatchable(s)
    ensures Dispatchable(t)
  {
  }

  lemma PledgesStillKept(s: Sys, t: Sys, w: WorkerId, q: Option<Phase>)
    requires Delta(s, t, w, q) && PledgesKept(s) && EpisodeTasks(s)
    ensures PledgesKept(t)
  {
    forall i | i in t.pledged && i in t.jobs && t.jobs[i].state == Queued && !Nulled(t, i)
      ensures exists v :: OnItsWay(t, v, i)
    {
      var v :| OnItsWay(s, v, i);
      assert OnItsWay(t, v, i);
    }
  }

  // ----- Runner counts and download rows

  ghost predicate RunsDelta(s: Sys, t: Sys, w: WorkerId)
    requires w in s.workers
  {
    var j := s.workers[w].job;
    || t.runs == s.runs
    || (StateOf(s.jobs, j) == Some(Queued) && StateOf(t.jobs, j) == Some(Running)
        && t.runs == s.runs[j := Runs(s, j) + 1])
  }

  lemma WorkedRuns(s: Sys, w: WorkerId, ws: WorkerStep)
    requires CanWork(s, w, ws)
    ensures RunsDelta(s, Worked(s, w, ws), w)
  {
  }

  lemma RunsKept(s: Sys, t: Sys, w: WorkerId, q: Option<Phase>)
    requires Delta(s, t, w, q) && RunsDelta(s, t, w) && RunsBounded(s)
    ensures RunsBounded(t)
  {
  }

  /** Download rows change only as a song worker finishes its song job. */
  ghost predicate DownloadsDelta(s: Sys, t: Sys, w: WorkerId)
    requires w in s.workers
  {
    var j := s.workers[w].job;
    || (t.downloads == s.downloads && t.removed == s.removed
        && (StateOf(t.jobs, j) == Some(Done) ==>
              StateOf(s.jobs, j) == Some(Done) || (j in s.jobs && s.jobs[j].kind != Song)))
    || (s.workers[w].phase.Fetched? && s.workers[w].phase.path.Some? && Records(s, w)
        && StateOf(t.jobs, j) == Some(Done) && t.downloads == Recorded(s, w)
        && t.removed == s.removed - t.downloads.Keys)
  }

  lemma FailsDownloads(s: Sys, w: WorkerId, now: int, msg: string)
    requires w in s.workers
    ensures DownloadsDelta(s, Fails(s, w, now, msg), w)
  {
  }

  lemma ClaimsDownloads(s: Sys, w: WorkerId, now: int)
    requires w in s.workers
    ensures DownloadsDelta(s, Claims(s, w, now), w)
  {
  }

  lemma BooksDownloads(s: Sys, w: WorkerId, now: int)
    requires w in s.workers && s.workers[w].phase.Fetched? && PodcastTasks(s) && DownloadsAgree(s)
    ensures DownloadsDelta(s, Books(s, w, now), w)
  {
    if CanFinish(s.jobs, s.workers[w].job) && !Records(s, w) {
      assert Recorded(s, w) == s.downloads;
      assert s.removed - s.downloads.Keys == s.removed;
    }
  }

  lemma WorkedDownloads(s: Sys, w: WorkerId, ws: WorkerStep)
    requires CanWork(s, w, ws) && PodcastTasks(s) && DownloadsAgree(s)
    ensures DownloadsDelta(s, Worked(s, w, ws), w)
  {
    match ws
    case Load(now) => ClaimsDownloads(s, w, now);
    case LookEpisode(now) => ClaimsDownloads(s, w, now);
    case FailMissing(now) => FailsDownloads(s, w, now, NO_EPISODE);
    case Book(now) => BooksDownloads(s, w, now);
    case MarkFailed(now) => FailsDownloads(s, w, now, s.workers[w].phase.msg);
    case _ =>
  }

  lemma DownloadRowsKept(s: Sys, t: Sys, w: WorkerId, q: Option<Phase>)
    requires Delta(s, t, w, q) && DownloadsDelta(s, t, w) && DownloadsAgree(s)
    ensures forall k | k in t.downloads ::
              var i := t.downloads[k].job;
              i in t.jobs && t.jobs[i].kind == Song && t.jobs[i].state == Done && t.jobs[i].Key() == k
  {
  }

  lemma DoneSongsKept(s: Sys, t: Sys, w: WorkerId, q: Option<Phase>)
    requires Delta(s, t, w, q) && DownloadsDelta(s, t, w) && DownloadsAgree(s)
    ensures forall i | i in t.jobs && t.jobs[i].kind == Song && t.jobs[i].state == Done ::
              t.jobs[i].Key() in t.downloads || t.jobs[i].Key() in t.removed
    ensures t.removed !! t.downloads.Keys
  {
  }

  lemma DownloadsKept(s: Sys, t: Sys, w: WorkerId, q: Option<Phase>)
    requires Delta(s, t, w, q) && DownloadsDelta(s, t, w) && DownloadsAgree(s)
    ensures DownloadsAgree(t)
  {
    DownloadRowsKept(s, t, w, q);
    DoneSongsKept(s, t, w, q);
  }

  lemma TableKept(s: Sys, w: WorkerId, ws: WorkerStep)
    requires CanWork(s, w, ws) && GoodTable(s.jobs)
    ensures GoodTable(Worked(s, w, ws).jobs)
  {
    var j := s.workers[w].job;
    match ws
    case Load(now) => ClaimKeeps(s.jobs, j, now);
    case LookEpisode(now) => ClaimKeeps(s.jobs, j, now);
    case FailMissing(now) => FailKeeps(s.jobs, j, now, NO_EPISODE);
    case Book(now) => FinishKeeps(s.jobs, j, now);
    case MarkFailed(now) => FailKeeps(s.jobs, j, now, s.workers[w].phase.msg);
    case _ =>
  }

  lemma WorkKeepsInv(s: Sys, w: WorkerId, ws: WorkerStep)
    requires CanWork(s, w, ws) && Inv(s)
    ensures Inv(Worked(s, w, ws))
  {
    var t := Worked(s, w, ws);
    var q := WorkedDelta(s, w, ws);
    TableKept(s, w, ws);
    SlotsKept(s, t, w, q);
    OwnershipKept(s, t, w, q);
    EpisodeTasksKept(s, t, w, q);
    EnqueueReadyKept(s, t, w, q);
    WorkedDownloads(s, w, ws);
    DownloadsKept(s, t, w, q);
    WorkedRuns(s, w, ws);
    RunsKept(s, t, w, q);
    AnswersKept(s, t, w, q);
    EpisodeRowsKept(s, t, w, q);
    PledgesStillKept(s, t, w, q);
    DispatchableKept(s, t, w, q);
  }
}
