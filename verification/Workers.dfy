/** `run_job` and `run_podcast_episode_job` as code: phases, early returns and exception paths over the shared
    tables. Undisturbed, each takes exactly a run of the protocol's steps for its worker and leaves the tables
    and the slots as that run does. */
module Workers {
  import opened Wrappers
  import opened Jobs
  import opened Protocol

  /** What the foreign downloader did: returned, with a first file or none, or raised. */
  datatype Ran = Files(path: Option<string>) | Raised(msg: string)

  lemma Take(s: Sys, run: seq<Action>, w: WorkerId, ws: WorkerStep) returns (longer: seq<Action>)
    requires Possible(s, run) && CanWork(After(s, run), w, ws)
    ensures longer == run + [Work(w, ws)]
    ensures Possible(s, longer) && After(s, longer) == Worked(After(s, run), w, ws)
  {
    longer := run + [Work(w, ws)];
    assert longer[..|longer| - 1] == run;
  }

  ghost predicate OnlySteps(run: seq<Action>, w: WorkerId) {
    forall i | 0 <= i < |run| :: run[i].Work? && run[i].w == w
  }

  /** The worker of job `j` stands at `p`. */
  ghost predicate Stands(s: Sys, w: WorkerId, j: JobId, podcast: bool, p: Phase) {
    s.up && w in s.workers && s.workers[w] == Worker(j, podcast, p)
  }

  // ----- What the jobs do to the tables

  /** The row of `j` goes to failed with this message. */
  ghost predicate FailsWith(before: Table, after: Table, j: JobId, now: int, msg: string)
    requires j in before
  {
    after == before[j := before[j].(state := Failed, finishedAt := Some(now), error := Some(msg))]
  }

  ghost predicate FinishesAt(before: Table, after: Table, j: JobId, now: int)
    requires j in before
  {
    after == before[j := before[j].(state := Done, finishedAt := Some(now))]
  }

  /** What became of the running job `j`: the downloader's error or the database's, a song without a file, or done,
      with the song's first file in the downloads table unless the user has a row for that URL. */
  ghost predicate Ended(before: Table, after: Table, had: map<DownloadKey, Download>, has: map<DownloadKey, Download>,
                        j: JobId, ran: Ran, fault: Option<string>, now: int)
    requires j in before
  {
    var key := (before[j].user, before[j].url);
    if ran.Raised? then FailsWith(before, after, j, now, ran.msg) && has == had
    else if fault.Some? then FailsWith(before, after, j, now, fault.value) && has == had
    else if before[j].kind == Song && ran.path.None? then
      FailsWith(before, after, j, now, "bookkeeping failed: RuntimeError: spotdl exited 0 but produced no audio file")
      && has == had
    else
      && FinishesAt(before, after, j, now)
      && has == if before[j].kind == Song && key !in had then had[key := Download(j, ran.path.value)] else had
  }

  function Begun(before: Table, j: JobId, now: int): Table
    requires j in before
  {
    before[j := before[j].(state := Running, startedAt := Some(now))]
  }

  /** A song, album or playlist job: only a queued one is taken, and what became of it. */
  ghost predicate RunsJob(before: Table, after: Table, had: map<DownloadKey, Download>, has: map<DownloadKey, Download>,
                          j: JobId, ran: Ran, fault: Option<string>, now: int, later: int)
  {
    if j in before && before[j].state == Queued then
      Ended(Begun(before, j, now), after, had, has, j, ran, fault, later)
    else after == before && has == had
  }

  /** An episode job: without its episode it is left alone or, if that is gone, failed; no download row is written. */
  ghost predicate RunsEpisode(before: Table, after: Table, gone: set<EpisodeId>, j: JobId, ran: Ran,
                              fault: Option<string>, now: int, later: int)
  {
    if j !in before || before[j].episode == None then after == before
    else if before[j].episode.value in gone then
      if before[j].state == Queued || before[j].state == Running
      then FailsWith(before, after, j, now, "episode no longer exists") else after == before
    else if before[j].state != Queued then after == before
    else if ran.Raised? then FailsWith(Begun(before, j, now), after, j, later, ran.msg)
    else if fault.Some? then FailsWith(Begun(before, j, now), after, j, later, fault.value)
    else FinishesAt(Begun(before, j, now), after, j, later)
  }

  class Backend {
    const table: JobTable
    var downloads: map<DownloadKey, Download>
    var free: nat

    constructor (slots: nat)
      ensures Valid() && fresh(table) && table.rows == map[] && downloads == map[] && free == slots
    {
      table := new JobTable();
      downloads := map[];
      free := slots;
    }

    ghost predicate Valid()
      reads this, table
    {
      table.Valid()
    }

    /** The tables and the slots are those of `s`. */
    ghost predicate Shows(s: Sys)
      reads this, table
    {
      s.jobs == table.rows && s.downloads == downloads && s.free == free
    }

    /** `run` brings the protocol from `s` to a state this object shows, with the worker of `j` at `p`. */
    ghost predicate At(s: Sys, run: seq<Action>, w: WorkerId, j: JobId, podcast: bool, p: Phase)
      reads this, table
    {
      && Valid() && Possible(s, run) && OnlySteps(run, w)
      && Shows(After(s, run)) && Stands(After(s, run), w, j, podcast, p)
    }

    /** `_safe_mark_failed`. */
    method SafeMarkFailed(j: JobId, now: int, msg: string)
      requires Valid()
      modifies table
      ensures Valid() && table.rows == Fail(old(table.rows), j, now, msg)
      ensures table.rows == if j in old(table.rows)
                               && (old(table.rows)[j].state == Queued || old(table.rows)[j].state == Running)
                            then old(table.rows)[j := old(table.rows)[j].(state := Failed, finishedAt := Some(now),
                                                                          error := Some(msg))]
                            else old(table.rows)
    {
      var _ := table.MarkFailed(j, now, msg);
    }

    /** Entering `async with slots`. */
    method TakeSlot(j: JobId, podcast: bool, ghost s: Sys, ghost w: WorkerId) returns (ghost run: seq<Action>)
      requires Valid() && Shows(s) && Stands(s, w, j, podcast, Waiting) && free > 0
      modifies this`free
      ensures At(s, run, w, j, podcast, Loading) && After(s, run).gone == s.gone && free == old(free) - 1
    {
      free := free - 1;
      run := Take(s, [], w, Acquire);
    }

    /** Leaving it, on any path. */
    method GiveSlotBack(j: JobId, podcast: bool, ghost s: Sys, ghost before: seq<Action>, ghost w: WorkerId)
      returns (ghost run: seq<Action>)
      requires At(s, before, w, j, podcast, Leaving)
      modifies this`free
      ensures Possible(s, run) && OnlySteps(run, w) && Shows(After(s, run)) && w !in After(s, run).workers
      ensures free == old(free) + 1
    {
      free := free + 1;
      run := Take(s, before, w, Leave);
    }

    /** `run_job`: take a slot, run the phases, give the slot back on every path. */
    method RunJob(j: JobId, ran: Ran, fault: Option<string>, now: int, later: int, ghost s: Sys, ghost w: WorkerId)
      returns (ghost run: seq<Action>)
      requires Valid() && Shows(s) && Stands(s, w, j, false, Waiting) && free > 0
      modifies this, table
      ensures Valid() && free == old(free)
      ensures RunsJob(old(table.rows), table.rows, old(downloads), downloads, j, ran, fault, now, later)
      ensures Possible(s, run) && OnlySteps(run, w) && Shows(After(s, run)) && w !in After(s, run).workers
    {
      run := TakeSlot(j, false, s, w);
      run := Phases(j, ran, fault, now, later, s, run, w);
      run := GiveSlotBack(j, false, s, run, w);
    }

    /** `_run_job`. `fault` is a database error while the download is recorded. */
    method Phases(j: JobId, ran: Ran, fault: Option<string>, now: int, later: int, ghost s: Sys,
                  ghost before: seq<Action>, ghost w: WorkerId)
      returns (ghost run: seq<Action>)
      requires At(s, before, w, j, false, Loading)
      modifies table, this`downloads
      ensures RunsJob(old(table.rows), table.rows, old(downloads), downloads, j, ran, fault, now, later)
      ensures At(s, run, w, j, false, Leaving)
    {
      run := Take(s, before, w, Load(now));
      if j !in table.rows {
        return;
      }
      var job := table.rows[j];
      var ok := table.MarkRunning(j, now);
      if !ok {
        return;
      }
      run := Download(j, job.kind == Song, job.Key(), ran, fault, later, s, run, w);
    }

    /** Phases 2 and 3. */
    method Download(j: JobId, song: bool, key: DownloadKey, ran: Ran, fault: Option<string>, now: int, ghost s: Sys,
                    ghost before: seq<Action>, ghost w: WorkerId)
      returns (ghost run: seq<Action>)
      requires At(s, before, w, j, false, Fetching)
      requires j in table.rows && (song <==> table.rows[j].kind == Song) && key == table.rows[j].Key()
      requires table.rows[j].state == Running
      modifies table, this`downloads
      ensures Ended(old(table.rows), table.rows, old(downloads), downloads, j, ran, fault, now)
      ensures At(s, run, w, j, false, Leaving)
    {
      if ran.Raised? {
        run := Take(s, before, w, RunnerFails(ran.msg));
        run := GiveUp(j, now, ran.msg, s, run, w, false);
        return;
      }
      run := Take(s, before, w, RunnerReturns(ran.path));
      if fault.Some? {
        run := Take(s, run, w, BookFault(fault.value));
        run := GiveUp(j, now, fault.value, s, run, w, false);
        return;
      }
      run := Record(j, song, key, ran.path, now, s, run, w);
    }

    /** Phase 3: the download row, if the job is a song, and `mark_done`, in one transaction. */
    method Record(j: JobId, song: bool, key: DownloadKey, path: Option<string>, now: int, ghost s: Sys,
                  ghost before: seq<Action>, ghost w: WorkerId)
      returns (ghost run: seq<Action>)
      requires At(s, before, w, j, false, Fetched(path))
      requires j in table.rows && (song <==> table.rows[j].kind == Song) && key == table.rows[j].Key()
      modifies table, this`downloads
      ensures table.rows.Keys == old(table.rows).Keys
      ensures old(table.rows)[j].state == Running ==>
                Ended(old(table.rows), table.rows, old(downloads), downloads, j, Files(path), None, now)
      ensures At(s, run, w, j, false, Leaving)
    {
      run := Take(s, before, w, Book(now));
      if song && path.None? {
        run := GiveUp(j, now, NO_AUDIO, s, run, w, false);
        return;
      }
      var rows := downloads;
      if song && key !in rows {
        rows := rows[key := Protocol.Download(j, path.value)];
      }
      var ok := table.MarkDone(j, now);
      if ok {
        downloads := rows;
      } else {
        run := GiveUp(j, now, WRONG_STATE, s, run, w, false);
      }
    }

    /** The exception paths: mark the job failed and return. */
    method GiveUp(j: JobId, now: int, msg: string, ghost s: Sys, ghost before: seq<Action>, ghost w: WorkerId,
                  ghost podcast: bool)
      returns (ghost run: seq<Action>)
      requires At(s, before, w, j, podcast, Failing(msg))
      modifies table
      ensures table.rows.Keys == old(table.rows).Keys
      ensures j in old(table.rows) && old(table.rows)[j].state == Running ==>
                FailsWith(old(table.rows), table.rows, j, now, msg)
      ensures At(s, run, w, j, podcast, Leaving)
    {
      run := Take(s, before, w, MarkFailed(now));
      SafeMarkFailed(j, now, msg);
    }

    /** `run_podcast_episode_job`; `gone` are the deleted episodes. */
    method RunEpisodeJob(j: JobId, gone: set<EpisodeId>, ran: Ran, fault: Option<string>, now: int, later: int,
                         ghost s: Sys, ghost w: WorkerId)
      returns (ghost run: seq<Action>)
      requires Valid() && Shows(s) && s.gone == gone && Stands(s, w, j, true, Waiting) && free > 0
      modifies this, table
      ensures Valid() && free == old(free)
      ensures RunsEpisode(old(table.rows), table.rows, gone, j, ran, fault, now, later) && downloads == old(downloads)
      ensures Possible(s, run) && OnlySteps(run, w) && Shows(After(s, run)) && w !in After(s, run).workers
    {
      run := TakeSlot(j, true, s, w);
      run := EpisodePhases(j, gone, ran, fault, now, later, s, run, w);
      run := GiveSlotBack(j, true, s, run, w);
    }

    /** `_run_podcast_episode_job`: no download row, but a missing episode fails the job. */
    method EpisodePhases(j: JobId, gone: set<EpisodeId>, ran: Ran, fault: Option<string>, now: int, later: int,
                         ghost s: Sys, ghost before: seq<Action>, ghost w: WorkerId)
      returns (ghost run: seq<Action>)
      requires At(s, before, w, j, true, Loading) && After(s, before).gone == gone
      modifies table
      ensures RunsEpisode(old(table.rows), table.rows, gone, j, ran, fault, now, later)
      ensures At(s, run, w, j, true, Leaving)
    {
      run := Take(s, before, w, Load(now));
      if j !in table.rows || table.rows[j].episode.None? {
        return;
      }
      var ep := table.rows[j].episode.value;
      run := WithEpisode(j, ep, gone, ran, fault, now, later, s, run, w);
    }

    method WithEpisode(j: JobId, ep: EpisodeId, gone: set<EpisodeId>, ran: Ran, fault: Option<string>, now: int,
                       later: int, ghost s: Sys, ghost before: seq<Action>, ghost w: WorkerId)
      returns (ghost run: seq<Action>)
      requires At(s, before, w, j, true, Looking(ep)) && After(s, before).gone == gone
      requires j in table.rows && table.rows[j].episode == Some(ep)
      modifies table
      ensures RunsEpisode(old(table.rows), table.rows, gone, j, ran, fault, now, later)
      ensures At(s, run, w, j, true, Leaving)
    {
      run := Take(s, before, w, LookEpisode(now));
      if ep in gone {
        run := Missing(j, now, s, run, w);
        return;
      }
      var ok := table.MarkRunning(j, now);
      if !ok {
        return;
      }
      run := Fetch(j, ran, fault, later, s, run, w);
    }

    /** The episode went away. */
    method Missing(j: JobId, now: int, ghost s: Sys, ghost before: seq<Action>, ghost w: WorkerId)
      returns (ghost run: seq<Action>)
      requires At(s, before, w, j, true, EpisodeMissing)
      modifies table
      ensures table.rows == if j in old(table.rows)
                               && (old(table.rows)[j].state == Queued || old(table.rows)[j].state == Running)
                            then old(table.rows)[j := old(table.rows)[j].(state := Failed, finishedAt := Some(now),
                                                                          error := Some("episode no longer exists"))]
                            else old(table.rows)
      ensures At(s, run, w, j, true, Leaving)
    {
      run := Take(s, before, w, FailMissing(now));
      SafeMarkFailed(j, now, NO_EPISODE);
    }

    /** Phases 2 and 3 for an episode. */
    method Fetch(j: JobId, ran: Ran, fault: Option<string>, now: int, ghost s: Sys, ghost before: seq<Action>,
                 ghost w: WorkerId)
      returns (ghost run: seq<Action>)
      requires At(s, before, w, j, true, Fetching)
      requires j in table.rows && table.rows[j].state == Running
      modifies table
      ensures if ran.Raised? then FailsWith(old(table.rows), table.rows, j, now, ran.msg)
              else if fault.Some? then FailsWith(old(table.rows), table.rows, j, now, fault.value)
              else FinishesAt(old(table.rows), table.rows, j, now)
      ensures At(s, run, w, j, true, Leaving)
    {
      if ran.Raised? {
        run := Take(s, before, w, RunnerFails(ran.msg));
        run := GiveUp(j, now, ran.msg, s, run, w, true);
        return;
      }
      run := Take(s, before, w, RunnerReturns(ran.path));
      if fault.Some? {
        run := Take(s, run, w, BookFault(fault.value));
        run := GiveUp(j, now, fault.value, s, run, w, true);
        return;
      }
      run := RecordEpisode(j, ran.path, now, s, run, w);
    }

    method RecordEpisode(j: JobId, ghost path: Option<string>, now: int, ghost s: Sys, ghost before: seq<Action>,
                         ghost w: WorkerId)
      returns (ghost run: seq<Action>)
      requires At(s, before, w, j, true, Fetched(path))
      modifies table
      ensures j in old(table.rows) && old(table.rows)[j].state == Running ==>
                FinishesAt(old(table.rows), table.rows, j, now)
      ensures At(s, run, w, j, true, Leaving)
    {
      run := Take(s, before, w, Book(now));
      var ok := table.MarkDone(j, now);
      if !ok {
        run := GiveUp(j, now, WRONG_STATE, s, run, w, true);
      }
    }
  }
}
