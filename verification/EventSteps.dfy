/** Requests, retries, deletions, crash and boot keep the invariant; so every run does. */
module EventSteps {
  import opened Jobs
  import opened Protocol
  import opened ProtocolInvariant
  import opened HandlerSteps
  import WorkerSteps

  // ----- Retry

  lemma RetryTasks(s: Sys, j: JobId)
    requires Ownership(s) && EpisodeTasks(s) && SlotsConserved(s) && CanRequeue(s.jobs, j)
    ensures EpisodeTasks(Retried(s, j)) && SlotsConserved(Retried(s, j))
  {
    forall w | w in s.workers && s.workers[w].podcast && !s.workers[w].phase.Leaving? ensures s.workers[w].job != j {
      assert s.workers[w].phase.Claimed() ==> CanFinish(s.jobs, s.workers[w].job);
    }
  }

  lemma RetryOwnership(s: Sys, j: JobId)
    requires Ownership(s) && CanRequeue(s.jobs, j)
    ensures Ownership(Retried(s, j))
  {
    var t := Retried(s, j);
    forall v, w, i | Owns(t, v, i) && Owns(t, w, i) ensures v == w {
      assert Owns(s, v, i) && Owns(s, w, i);
    }
    if t.up {
      forall i | i in t.jobs && t.jobs[i].state == Running ensures exists w :: Owns(t, w, i) {
        var w :| Owns(s, w, i);
        assert Owns(t, w, i);
      }
    }
  }

  lemma RetryRows(s: Sys, j: JobId)
    requires DownloadsAgree(s) && CanRequeue(s.jobs, j)
    ensures DownloadsAgree(Retried(s, j))
  {
  }

  lemma RetryCounts(s: Sys, j: JobId)
    requires RunsBounded(s) && AnswersTrue(s) && EpisodeRows(s) && CanRequeue(s.jobs, j)
    ensures RunsBounded(Retried(s, j)) && AnswersTrue(Retried(s, j)) && EpisodeRows(Retried(s, j))
  {
  }

  lemma RetryFront(s: Sys, j: JobId)
    requires EnqueueReady(s) && StartedOnce(s) && CanRequeue(s.jobs, j)
    ensures EnqueueReady(Retried(s, j)) && StartedOnce(Retried(s, j))
  {
  }

  lemma RetryDispatchable(s: Sys, j: JobId)
    requires Dispatchable(s) && CanRequeue(s.jobs, j)
    ensures Dispatchable(Retried(s, j))
  {
  }

  lemma RetryPledges(s: Sys, j: JobId)
    requires PledgesKept(s) && CanRequeue(s.jobs, j)
    ensures PledgesKept(Retried(s, j))
  {
    var t := Retried(s, j);
    forall i | i in t.pledged && t.jobs[i].state == Queued && !Nulled(t, i) ensures exists w :: OnItsWay(t, w, i) {
      var w :| OnItsWay(s, w, i);
      assert OnItsWay(t, w, i);
    }
  }

  lemma RetryKeepsInv(s: Sys, j: JobId)
    requires Inv(s) && s.up && CanRequeue(s.jobs, j)
    ensures Inv(Retried(s, j))
  {
    RequeueKeeps(s.jobs, j);
    RetryTasks(s, j);
    RetryOwnership(s, j);
    RetryRows(s, j);
    RetryCounts(s, j);
    RetryFront(s, j);
    RetryPledges(s, j);
    RetryDispatchable(s, j);
  }

  // ----- Another dispatch of run_job

  lemma DispatchSlots(s: Sys, w: WorkerId, j: JobId)
    requires SlotsConserved(s) && CanOccur(s, DispatchSong(w, j))
    ensures SlotsConserved(Dispatched(s, w, j))
  {
    assert Holding(Dispatched(s, w, j).workers) == Holding(s.workers);
  }

  lemma DispatchOwnership(s: Sys, w: WorkerId, j: JobId)
    requires Ownership(s) && CanOccur(s, DispatchSong(w, j))
    ensures Ownership(Dispatched(s, w, j))
  {
    var t := Dispatched(s, w, j);
    forall v, u, i | Owns(t, v, i) && Owns(t, u, i) ensures v == u {
      assert Owns(s, v, i) && Owns(s, u, i);
    }
    forall i | i in t.jobs && t.jobs[i].state == Running ensures exists v :: Owns(t, v, i) {
      var v :| Owns(s, v, i);
      assert Owns(t, v, i);
    }
  }

  lemma DispatchTasks(s: Sys, w: WorkerId, j: JobId)
    requires EpisodeTasks(s) && EnqueueReady(s) && Dispatchable(s) && CanOccur(s, DispatchSong(w, j))
    ensures EpisodeTasks(Dispatched(s, w, j)) && EnqueueReady(Dispatched(s, w, j))
  {
  }

  lemma DispatchPledges(s: Sys, w: WorkerId, j: JobId)
    requires PledgesKept(s) && CanOccur(s, DispatchSong(w, j))
    ensures PledgesKept(Dispatched(s, w, j))
  {
    var t := Dispatched(s, w, j);
    forall i | i in t.pledged && t.jobs[i].state == Queued && !Nulled(t, i) ensures exists v :: OnItsWay(t, v, i) {
      var v :| OnItsWay(s, v, i);
      assert OnItsWay(t, v, i);
    }
  }

  lemma DispatchRest(s: Sys, w: WorkerId, j: JobId)
    requires AnswersTrue(s) && StartedOnce(s) && EpisodeRows(s) && Dispatchable(s)
    ensures var t := Dispatched(s, w, j); AnswersTrue(t) && StartedOnce(t) && EpisodeRows(t) && Dispatchable(t)
  {
  }

  lemma DispatchKeepsInv(s: Sys, w: WorkerId, j: JobId)
    requires Inv(s) && CanOccur(s, DispatchSong(w, j))
    ensures Inv(Dispatched(s, w, j))
  {
    DispatchSlots(s, w, j);
    DispatchOwnership(s, w, j);
    DispatchTasks(s, w, j);
    DispatchPledges(s, w, j);
    DispatchRest(s, w, j);
  }

  // ----- Deletions

  lemma DeleteSongRows(s: Sys, path: string)
    requires DownloadsAgree(s)
    ensures DownloadsAgree(DeletesSong(s, path))
  {
  }

  lemma DeleteSongOwned(s: Sys, path: string)
    requires Ownership(s)
    ensures Ownership(DeletesSong(s, path))
  {
    OwnershipFrame(s, DeletesSong(s, path));
  }

  lemma DeleteSongPledged(s: Sys, path: string)
    requires PledgesKept(s)
    ensures PledgesKept(DeletesSong(s, path))
  {
    PledgesFrame(s, DeletesSong(s, path));
  }

  lemma DeleteSongSlots(s: Sys, path: string)
    requires SlotsConserved(s)
    ensures SlotsConserved(DeletesSong(s, path))
  {
  }

  lemma DeleteSongTasks(s: Sys, path: string)
    requires EpisodeTasks(s) && Dispatchable(s)
    ensures EpisodeTasks(DeletesSong(s, path)) && Dispatchable(DeletesSong(s, path))
  {
  }

  lemma DeleteSongReady(s: Sys, path: string)
    requires EnqueueReady(s)
    ensures EnqueueReady(DeletesSong(s, path))
  {
  }

  lemma DeleteSongAnswers(s: Sys, path: string)
    requires AnswersTrue(s) && StartedOnce(s) && EpisodeRows(s) && RunsBounded(s)
    ensures var t := DeletesSong(s, path); AnswersTrue(t) && StartedOnce(t) && EpisodeRows(t) && RunsBounded(t)
  {
  }

  lemma DeleteSongKeepsInv(s: Sys, path: string)
    requires Inv(s) && s.up
    ensures Inv(DeletesSong(s, path))
  {
    DeleteSongRows(s, path);
    DeleteSongOwned(s, path);
    DeleteSongPledged(s, path);
    DeleteSongSlots(s, path);
    DeleteSongTasks(s, path);
    DeleteSongReady(s, path);
    DeleteSongAnswers(s, path);
  }

  lemma DropOwnership(s: Sys, ep: EpisodeId)
    requires Ownership(s)
    ensures Ownership(EpisodeDropped(s, ep))
  {
    var t := EpisodeDropped(s, ep);
    forall v, w, i | Owns(t, v, i) && Owns(t, w, i) ensures v == w {
      assert Owns(s, v, i) && Owns(s, w, i);
    }
    if t.up {
      forall i | i in t.jobs && t.jobs[i].state == Running ensures exists w :: Owns(t, w, i) {
        var w :| Owns(s, w, i);
        assert Owns(t, w, i);
      }
    }
  }

  lemma DropTasks(s: Sys, ep: EpisodeId)
    requires EpisodeTasks(s) && EnqueueReady(s) && SlotsConserved(s)
    ensures var t := EpisodeDropped(s, ep); EpisodeTasks(t) && EnqueueReady(t) && SlotsConserved(t)
  {
  }

  lemma DropRows(s: Sys, ep: EpisodeId)
    requires DownloadsAgree(s)
    ensures DownloadsAgree(EpisodeDropped(s, ep))
  {
  }

  lemma DropCounts(s: Sys, ep: EpisodeId)
    requires RunsBounded(s) && EpisodeRows(s) && StartedOnce(s) && Dispatchable(s)
    ensures var t := EpisodeDropped(s, ep); RunsBounded(t) && EpisodeRows(t) && StartedOnce(t) && Dispatchable(t)
  {
  }

  lemma DropAnswers(s: Sys, ep: EpisodeId)
    requires AnswersTrue(s)
    ensures AnswersTrue(EpisodeDropped(s, ep))
  {
  }

  lemma DropPledges(s: Sys, ep: EpisodeId)
    requires PledgesKept(s)
    ensures PledgesKept(EpisodeDropped(s, ep))
  {
    var t := EpisodeDropped(s, ep);
    forall i | i in t.pledged && t.jobs[i].state == Queued && !Nulled(t, i) ensures exists w :: OnItsWay(t, w, i) {
      assert !Nulled(s, i);
      var w :| OnItsWay(s, w, i);
      assert OnItsWay(t, w, i);
    }
  }

  lemma DropKeepsInv(s: Sys, ep: EpisodeId)
    requires Inv(s) && s.up
    ensures Inv(EpisodeDropped(s, ep))
  {
    DropEpisodeKeeps(s.jobs, ep);
    DropOwnership(s, ep);
    DropTasks(s, ep);
    DropRows(s, ep);
    DropCounts(s, ep);
    DropAnswers(s, ep);
    DropPledges(s, ep);
  }

  // ----- Crash and boot

  lemma CrashKeepsInv(s: Sys)
    requires Inv(s)
    ensures Inv(Crashed(s))
  {
    assert Holding(map[]) == {};
  }

  lemma BootRows(s: Sys, now: int)
    requires DownloadsAgree(s)
    ensures DownloadsAgree(Booted(s, now))
  {
  }

  lemma BootCounts(s: Sys, now: int)
    requires RunsBounded(s) && EpisodeRows(s) && StartedOnce(s)
    ensures RunsBounded(Booted(s, now)) && EpisodeRows(Booted(s, now)) && StartedOnce(Booted(s, now))
  {
  }

  lemma BootAnswers(s: Sys, now: int)
    requires AnswersTrue(s)
    ensures AnswersTrue(Booted(s, now))
  {
  }

  lemma BootKeepsInv(s: Sys, now: int)
    requires Inv(s) && !s.up
    ensures Inv(Booted(s, now))
  {
    RecoverKeeps(s.jobs, now);
    BootRows(s, now);
    BootCounts(s, now);
    BootAnswers(s, now);
  }

  // ----- Every action, every run

  lemma EventKeepsInv(s: Sys, e: Event)
    requires Inv(s) && CanOccur(s, e)
    ensures Inv(Occurred(s, e))
  {
    match e
    case Request(h, req) => WaitsKeeps(s, h, Arrived(req));
    case Retry(j) => RetryKeepsInv(s, j);
    case DispatchSong(w, j) => DispatchKeepsInv(s, w, j);
    case DeleteSong(path) => DeleteSongKeepsInv(s, path);
    case DeleteEpisode(ep) => DropKeepsInv(s, ep);
    case Crash => CrashKeepsInv(s);
    case Boot(now) => BootKeepsInv(s, now);
  }

  lemma StepKeepsInv(s: Sys, a: Action)
    requires Inv(s) && Enabled(s, a)
    ensures Inv(Apply(s, a))
  {
    match a
    case Env(e) => EventKeepsInv(s, e);
    case Handle(h, hs) => HandleKeepsInv(s, h, hs);
    case Work(w, ws) => WorkerSteps.WorkKeepsInv(s, w, ws);
  }

  lemma InitIsGood(slots: nat)
    ensures Inv(Init(slots))
  {
    assert Holding(map[]) == {};
  }

  /** Every state of every run from the empty database satisfies the invariant. */
  lemma {:induction false} RunKeepsInv(s: Sys, run: seq<Action>)
    requires Inv(s) && Possible(s, run)
    ensures Inv(After(s, run))
  {
    if run != [] {
      RunKeepsInv(s, run[..|run| - 1]);
      StepKeepsInv(After(s, run[..|run| - 1]), run[|run| - 1]);
    }
  }
}
