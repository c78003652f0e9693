/** Where the download protocol's tables and counters come from: each entry traced to the steps of the run. */
module ProtocolOrigins {
  import opened Wrappers
  import opened Jobs
  import opened Protocol
  import opened ProtocolInvariant
  import opened ProtocolResults
  import WorkerSteps

  // ----- Files

  /** In step `a` the downloader returns to a worker of job `j`. */
  ghost predicate Returns(s: Sys, a: Action, j: JobId) {
    a.Work? && a.ws.RunnerReturns? && a.w in s.workers && s.workers[a.w].job == j
  }

  /** Step `m` of the run is no such step. */
  ghost predicate NoReturn(s: Sys, run: seq<Action>, m: nat, j: JobId) {
    m < |run| && Possible(s, run[..m]) && !Returns(After(s, run[..m]), run[m], j)
  }

  ghost predicate NoneSince(s: Sys, run: seq<Action>, i: nat, j: JobId) {
    forall m | i < m < |run| :: NoReturn(s, run, m, j)
  }

  ghost predicate ReturnedAt(s: Sys, run: seq<Action>, i: nat, j: JobId, path: string) {
    && i < |run| && Possible(s, run[..i]) && Returns(After(s, run[..i]), run[i], j)
    && !After(s, run[..i]).workers[run[i].w].podcast && run[i].ws.file == Some(path)
  }

  /** At step `i` the downloader returned the file `path` to a song worker of job `j`, and it has not returned for
      that job since. */
  ghost predicate Brought(s: Sys, run: seq<Action>, i: nat, j: JobId, path: string) {
    ReturnedAt(s, run, i, j, path) && NoneSince(s, run, i, j)
  }

  ghost predicate WasBrought(s: Sys, run: seq<Action>, j: JobId, path: string) {
    exists i :: Brought(s, run, i, j, path)
  }

  /** Every file in hand, and every file in the downloads table, was brought by the latest return for its job. */
  ghost predicate FilesKnown(s: Sys, run: seq<Action>)
    requires Possible(s, run)
  {
    var t := After(s, run);
    && (forall w | w in t.workers && !t.workers[w].podcast && t.workers[w].phase.Fetched?
                   && t.workers[w].phase.path.Some? ::
          WasBrought(s, run, t.workers[w].job, t.workers[w].phase.path.value))
    && (forall k | k in t.downloads :: WasBrought(s, run, t.downloads[k].job, t.downloads[k].path))
  }

  lemma SameNoReturn(s: Sys, run: seq<Action>, r: seq<Action>, m: nat, j: JobId)
    requires run != [] && r == run[..|run| - 1] && NoReturn(s, r, m, j)
    ensures NoReturn(s, run, m, j)
  {
    assert r[..m] == run[..m];
  }

  lemma SameReturnedAt(s: Sys, run: seq<Action>, r: seq<Action>, i: nat, j: JobId, path: string)
    requires run != [] && r == run[..|run| - 1] && ReturnedAt(s, r, i, j, path)
    ensures ReturnedAt(s, run, i, j, path)
  {
    assert r[..i] == run[..i];
  }

  lemma SameSince(s: Sys, run: seq<Action>, r: seq<Action>, i: nat, j: JobId)
    requires run != [] && r == run[..|run| - 1] && NoneSince(s, r, i, j) && NoReturn(s, run, |r|, j)
    ensures NoneSince(s, run, i, j)
  {
    forall m | i < m < |run| ensures NoReturn(s, run, m, j) {
      if m != |r| {
        SameNoReturn(s, run, r, m, j);
      }
    }
  }

  lemma StillBrought(s: Sys, run: seq<Action>, r: seq<Action>, j: JobId, path: string)
    requires run != [] && r == run[..|run| - 1] && WasBrought(s, r, j, path) && NoReturn(s, run, |r|, j)
    ensures WasBrought(s, run, j, path)
  {
    var i :| Brought(s, r, i, j, path);
    SameReturnedAt(s, run, r, i, j, path);
    SameSince(s, run, r, i, j);
    assert Brought(s, run, i, j, path);
  }

  lemma NowBrought(s: Sys, run: seq<Action>, r: seq<Action>, j: JobId, path: string)
    requires run != [] && Possible(s, run) && r == run[..|run| - 1] && Returns(After(s, r), run[|r|], j)
    requires !After(s, r).workers[run[|r|].w].podcast && run[|r|].ws.file == Some(path)
    ensures WasBrought(s, run, j, path)
  {
    assert run[..|r|] == r;
    assert Brought(s, run, |r|, j, path);
  }

  /** Nothing returns for a job whose file is in hand or which is done. */
  lemma NoneReturns(s: Sys, a: Action, j: JobId)
    requires Inv(s) && Enabled(s, a) && j in s.jobs
    requires s.jobs[j].state == Done || exists w :: Owns(s, w, j) && s.workers[w].phase.Fetched?
    ensures !Returns(s, a, j)
  {
    if Returns(s, a, j) {
      assert CanWork(s, a.w, a.ws);
      assert Owns(s, a.w, j) && CanFinish(s.jobs, j);
      assert false;
    }
  }

  /** The rows after a step are the old ones, or one with the file its worker had in hand. */
  ghost predicate RowFrom(s: Sys, a: Action, k: DownloadKey, d: Download) {
    || (k in s.downloads && s.downloads[k] == d)
    || (a.Work? && a.w in s.workers && !s.workers[a.w].podcast && s.workers[a.w].job == d.job
        && s.workers[a.w].phase == Fetched(Some(d.path)))
  }

  lemma BookRows(s: Sys, w: WorkerId, now: int)
    requires CanWork(s, w, Book(now))
    ensures forall k | k in Books(s, w, now).downloads ::
              RowFrom(s, Work(w, Book(now)), k, Books(s, w, now).downloads[k])
  {
  }

  lemma RowsFrom(s: Sys, a: Action)
    requires Enabled(s, a)
    ensures forall k | k in Apply(s, a).downloads :: RowFrom(s, a, k, Apply(s, a).downloads[k])
  {
    match a
    case Env(e) => EventRows(s, e);
    case Handle(h, hs) => HandlerRows(s, h, hs);
    case Work(w, ws) =>
      if ws.Book? {
        BookRows(s, w, ws.now);
      } else {
        WorkerRows(s, w, ws);
      }
  }

  lemma EventRows(s: Sys, e: Event)
    requires CanOccur(s, e)
    ensures forall k | k in Occurred(s, e).downloads ::
              k in s.downloads && Occurred(s, e).downloads[k] == s.downloads[k]
  {
  }

  lemma HandlerRows(s: Sys, h: HandlerId, hs: HandlerStep)
    requires CanHandle(s, h, hs)
    ensures Handled(s, h, hs).downloads == s.downloads
  {
  }

  lemma WorkerRows(s: Sys, w: WorkerId, ws: WorkerStep)
    requires CanWork(s, w, ws) && !ws.Book?
    ensures Worked(s, w, ws).downloads == s.downloads && Worked(s, w, ws).removed == s.removed
  {
  }

  lemma ClaimsFetchNothing(s: Sys, w: WorkerId, now: int)
    requires w in s.workers
    ensures !Claims(s, w, now).workers[w].phase.Fetched?
  {
  }

  lemma BooksFetchNothing(s: Sys, w: WorkerId, now: int)
    requires w in s.workers && s.workers[w].phase.Fetched?
    ensures !Books(s, w, now).workers[w].phase.Fetched?
  {
  }

  lemma FetchedStep(s: Sys, w: WorkerId, ws: WorkerStep)
    requires CanWork(s, w, ws) && w in Worked(s, w, ws).workers && Worked(s, w, ws).workers[w].phase.Fetched?
    ensures ws == RunnerReturns(Worked(s, w, ws).workers[w].phase.path)
  {
    match ws
    case Load(now) => ClaimsFetchNothing(s, w, now);
    case LookEpisode(now) => ClaimsFetchNothing(s, w, now);
    case Book(now) => BooksFetchNothing(s, w, now);
    case _ =>
  }

  /** `w` has the same worker in both, or step `a` gave it its file. */
  ghost predicate HandFrom(s: Sys, a: Action, w: WorkerId, k: Worker) {
    && w in s.workers && s.workers[w].job == k.job && s.workers[w].podcast == k.podcast
    && (s.workers[w] == k || (k.phase.Fetched? && a == Work(w, RunnerReturns(k.phase.path))))
  }

  /** A file in hand after a step was in hand before, or the step returned it. */
  lemma HandsFrom(s: Sys, a: Action, w: WorkerId)
    requires Enabled(s, a) && w in Apply(s, a).workers && Apply(s, a).workers[w].phase.Fetched?
    ensures HandFrom(s, a, w, Apply(s, a).workers[w])
  {
    match a
    case Env(e) => EventHands(s, e, w);
    case Handle(h, hs) => HandlerHands(s, h, hs, w);
    case Work(v, ws) => WorkerHands(s, v, ws, w);
  }

  lemma EventHands(s: Sys, e: Event, w: WorkerId)
    requires CanOccur(s, e) && w in Occurred(s, e).workers && Occurred(s, e).workers[w].phase.Fetched?
    ensures w in s.workers && s.workers[w] == Occurred(s, e).workers[w]
  {
  }

  lemma WorkerHands(s: Sys, v: WorkerId, ws: WorkerStep, w: WorkerId)
    requires CanWork(s, v, ws) && w in Worked(s, v, ws).workers && Worked(s, v, ws).workers[w].phase.Fetched?
    ensures HandFrom(s, Work(v, ws), w, Worked(s, v, ws).workers[w])
  {
    var q := WorkerSteps.WorkedDelta(s, v, ws);
    if v == w {
      FetchedStep(s, w, ws);
    }
  }

  lemma HandlerHands(s: Sys, h: HandlerId, hs: HandlerStep, w: WorkerId)
    requires CanHandle(s, h, hs) && w in Handled(s, h, hs).workers && Handled(s, h, hs).workers[w].phase.Fetched?
    ensures w in s.workers && s.workers[w] == Handled(s, h, hs).workers[w]
  {
  }

  lemma LastStep(s: Sys, run: seq<Action>, r: seq<Action>)
    requires run != [] && Possible(s, run) && r == run[..|run| - 1]
    ensures Possible(s, r) && Enabled(After(s, r), run[|r|]) && After(s, run) == Apply(After(s, r), run[|r|])
    ensures run[..|r|] == r
  {
  }

  lemma HandKnown(s: Sys, run: seq<Action>, r: seq<Action>, w: WorkerId, k: Worker)
    requires run != [] && Possible(s, run) && r == run[..|run| - 1] && Inv(After(s, r)) && FilesKnown(s, r)
    requires HandFrom(After(s, r), run[|r|], w, k) && !k.podcast && k.phase.Fetched? && k.phase.path.Some?
    ensures WasBrought(s, run, k.job, k.phase.path.value)
  {
    LastStep(s, run, r);
    var p, a := After(s, r), run[|r|];
    if p.workers[w] == k {
      assert Owns(p, w, k.job) && CanFinish(p.jobs, k.job);
      NoneReturns(p, a, k.job);
      StillBrought(s, run, r, k.job, k.phase.path.value);
    } else {
      NowBrought(s, run, r, k.job, k.phase.path.value);
    }
  }

  lemma RowKnown(s: Sys, run: seq<Action>, r: seq<Action>, k: DownloadKey, d: Download)
    requires run != [] && Possible(s, run) && r == run[..|run| - 1] && Inv(After(s, r)) && FilesKnown(s, r)
    requires RowFrom(After(s, r), run[|r|], k, d)
    ensures WasBrought(s, run, d.job, d.path)
  {
    LastStep(s, run, r);
    var p, a := After(s, r), run[|r|];
    if k in p.downloads && p.downloads[k] == d {
      NoneReturns(p, a, d.job);
    } else {
      assert Owns(p, a.w, d.job) && CanFinish(p.jobs, d.job);
      NoneReturns(p, a, d.job);
    }
    StillBrought(s, run, r, d.job, d.path);
  }

  lemma FilesKnownStep(s: Sys, run: seq<Action>, r: seq<Action>)
    requires run != [] && Possible(s, run) && r == run[..|run| - 1] && Inv(After(s, r)) && FilesKnown(s, r)
    ensures FilesKnown(s, run)
  {
    LastStep(s, run, r);
    var t := After(s, run);
    forall w | w in t.workers && !t.workers[w].podcast && t.workers[w].phase.Fetched? && t.workers[w].phase.path.Some?
      ensures WasBrought(s, run, t.workers[w].job, t.workers[w].phase.path.value)
    {
      HandsFrom(After(s, r), run[|r|], w);
      HandKnown(s, run, r, w, t.workers[w]);
    }
    RowsFrom(After(s, r), run[|r|]);
    forall k | k in t.downloads ensures WasBrought(s, run, t.downloads[k].job, t.downloads[k].path) {
      RowKnown(s, run, r, k, t.downloads[k]);
    }
  }

  lemma {:induction false} FilesAreKnown(slots: nat, run: seq<Action>)
    requires Possible(Init(slots), run)
    ensures FilesKnown(Init(slots), run)
  {
    if run != [] {
      var r := run[..|run| - 1];
      LastStep(Init(slots), run, r);
      FilesAreKnown(slots, r);
      ReachedIsGood(slots, r);
      FilesKnownStep(Init(slots), run, r);
    }
  }

  /** Each row of the downloads table has the file that the downloader returned last for its job, to a song worker. */
  lemma RowsHaveTheFile(slots: nat, run: seq<Action>, k: DownloadKey) returns (i: nat)
    requires Possible(Init(slots), run) && k in Reached(slots, run).downloads
    ensures Brought(Init(slots), run, i, Reached(slots, run).downloads[k].job, Reached(slots, run).downloads[k].path)
  {
    FilesAreKnown(slots, run);
    var d := Reached(slots, run).downloads[k];
    i :| Brought(Init(slots), run, i, d.job, d.path);
  }

  // ----- Deleting a song

  lemma OneFile(s: Sys, run: seq<Action>, j: JobId, i: nat, path: string, k: nat, other: string)
    requires Brought(s, run, i, j, path) && Brought(s, run, k, j, other)
    ensures i == k && path == other
  {
    assert i < k ==> NoReturn(s, run, k, j);
    assert k < i ==> NoReturn(s, run, i, j);
  }

  /** Deleting the file `path` takes the rows of exactly those jobs whose last download brought that file. */
  lemma DeletesTheFile(slots: nat, run: seq<Action>, path: string, k: DownloadKey)
    requires Possible(Init(slots), run) && Reached(slots, run).up
    ensures var s := Reached(slots, run);
            && CanOccur(s, DeleteSong(path))
            && var t := Occurred(s, DeleteSong(path));
            && (k in t.downloads <==> k in s.downloads && !WasBrought(Init(slots), run, s.downloads[k].job, path))
            && (k in t.downloads ==> t.downloads[k] == s.downloads[k])
  {
    var s := Reached(slots, run);
    if k in s.downloads {
      var d := s.downloads[k];
      var i := RowsHaveTheFile(slots, run, k);
      if WasBrought(Init(slots), run, d.job, path) {
        var m :| Brought(Init(slots), run, m, d.job, path);
        OneFile(Init(slots), run, d.job, i, d.path, m, path);
      } else {
        assert d.path != path;
      }
    }
  }

  /** Step `a` deletes a song and with it the row of `key`. */
  ghost predicate Unlists(s: Sys, a: Action, key: DownloadKey) {
    && Enabled(s, a) && a.Env? && a.e.DeleteSong? && key in s.downloads && key !in Apply(s, a).downloads
  }

  ghost predicate UnlistedAt(s: Sys, run: seq<Action>, m: nat, key: DownloadKey) {
    m < |run| && Possible(s, run[..m]) && Unlists(After(s, run[..m]), run[m], key)
  }

  lemma UnlistedStep(s: Sys, a: Action, key: DownloadKey)
    requires Enabled(s, a) && key in Apply(s, a).removed
    ensures key in s.removed || Unlists(s, a, key)
  {
    match a
    case Env(e) => EventUnlists(s, e, key);
    case Handle(h, hs) => HandlerRemoves(s, h, hs);
    case Work(w, ws) => WorkerRemoves(s, w, ws);
  }

  lemma EventUnlists(s: Sys, e: Event, key: DownloadKey)
    requires CanOccur(s, e) && key in Occurred(s, e).removed
    ensures key in s.removed || Unlists(s, Env(e), key)
  {
  }

  lemma HandlerRemoves(s: Sys, h: HandlerId, hs: HandlerStep)
    requires CanHandle(s, h, hs)
    ensures Handled(s, h, hs).removed == s.removed
  {
  }

  lemma WorkerRemoves(s: Sys, w: WorkerId, ws: WorkerStep)
    requires CanWork(s, w, ws)
    ensures Worked(s, w, ws).removed <= s.removed
  {
    if !ws.Book? {
      WorkerRows(s, w, ws);
    }
  }

  lemma {:induction false} RemovedKnown(s: Sys, run: seq<Action>, key: DownloadKey) returns (m: nat)
    requires Possible(s, run) && key in After(s, run).removed && key !in s.removed
    ensures UnlistedAt(s, run, m, key)
  {
    assert run != [];
    var r := run[..|run| - 1];
    LastStep(s, run, r);
    UnlistedStep(After(s, r), run[|r|], key);
    if key in After(s, r).removed {
      m := RemovedKnown(s, r, key);
      assert r[..m] == run[..m];
    } else {
      m := |r|;
    }
  }

  /** A song job that is done has its row, unless a deletion in the run took it. */
  lemma DoneSongHasRow(slots: nat, run: seq<Action>, j: JobId) returns (m: nat)
    requires Possible(Init(slots), run) && j in Reached(slots, run).jobs
    requires Reached(slots, run).jobs[j].kind == Song && Reached(slots, run).jobs[j].state == Done
    ensures (Reached(slots, run).jobs[j].user, Reached(slots, run).jobs[j].url) in Reached(slots, run).downloads
            || UnlistedAt(Init(slots), run, m, (Reached(slots, run).jobs[j].user, Reached(slots, run).jobs[j].url))
  {
    DownloadsMatchJobs(slots, run);
    var key := Reached(slots, run).jobs[j].Key();
    m := 0;
    if key !in Reached(slots, run).downloads {
      m := RemovedKnown(Init(slots), run, key);
    }
  }

  // ----- Counting downloads

  /** Step `a` starts the downloader for job `j`: the job goes from queued to running. */
  ghost predicate Starts(s: Sys, a: Action, j: JobId)
    requires Enabled(s, a)
  {
    j in s.jobs && s.jobs[j].state == Queued && j in Apply(s, a).jobs && Apply(s, a).jobs[j].state == Running
  }

  /** How often the run did. */
  ghost function StartCount(s: Sys, run: seq<Action>, j: JobId): nat
    requires Possible(s, run)
  {
    if run == [] then 0 else
      var r := run[..|run| - 1];
      StartCount(s, r, j) + if Starts(After(s, r), run[|r|], j) then 1 else 0
  }

  lemma StartStep(s: Sys, a: Action, j: JobId)
    requires Enabled(s, a)
    ensures Runs(Apply(s, a), j) == Runs(s, j) + if Starts(s, a, j) then 1 else 0
  {
    match a
    case Env(e) =>
    case Handle(h, hs) => HandlerStarts(s, h, hs, j);
    case Work(w, ws) => WorkerStarts(s, w, ws, j);
  }

  lemma HandlerStarts(s: Sys, h: HandlerId, hs: HandlerStep, j: JobId)
    requires CanHandle(s, h, hs)
    ensures Handled(s, h, hs).runs == s.runs && (j in s.jobs ==> Handled(s, h, hs).jobs[j] == s.jobs[j])
  {
  }

  lemma ClaimStarts(s: Sys, w: WorkerId, now: int, j: JobId)
    requires w in s.workers
    ensures Runs(Claims(s, w, now), j) == Runs(s, j)
              + if s.workers[w].job == j && CanClaim(s.jobs, j) then 1 else 0
    ensures j in s.jobs && s.jobs[j].state == Queued ==>
              (Claims(s, w, now).jobs[j].state == Running <==> s.workers[w].job == j)
  {
  }

  lemma WorkerStarts(s: Sys, w: WorkerId, ws: WorkerStep, j: JobId)
    requires CanWork(s, w, ws)
    ensures Runs(Worked(s, w, ws), j) == Runs(s, j) + if Starts(s, Work(w, ws), j) then 1 else 0
  {
    match ws
    case Load(now) => ClaimStarts(s, w, now, j);
    case LookEpisode(now) => ClaimStarts(s, w, now, j);
    case Book(now) => BookStarts(s, w, now, j);
    case FailMissing(now) => FailStarts(s, w, now, NO_EPISODE, j);
    case MarkFailed(now) => FailStarts(s, w, now, s.workers[w].phase.msg, j);
    case _ =>
  }

  lemma FailStarts(s: Sys, w: WorkerId, now: int, msg: string, j: JobId)
    requires w in s.workers
    ensures Fails(s, w, now, msg).runs == s.runs
    ensures j in s.jobs && s.jobs[j].state == Queued ==> Fails(s, w, now, msg).jobs[j].state != Running
  {
  }

  lemma BookStarts(s: Sys, w: WorkerId, now: int, j: JobId)
    requires w in s.workers && s.workers[w].phase.Fetched?
    ensures Books(s, w, now).runs == s.runs
    ensures j in s.jobs && s.jobs[j].state == Queued ==> Books(s, w, now).jobs[j] == s.jobs[j]
  {
  }

  lemma {:induction false} RunsAreStarts(slots: nat, run: seq<Action>, j: JobId)
    requires Possible(Init(slots), run)
    ensures Runs(Reached(slots, run), j) == StartCount(Init(slots), run, j)
  {
    if run != [] {
      var r := run[..|run| - 1];
      RunsAreStarts(slots, r, j);
      StartStep(After(Init(slots), r), run[|r|], j);
    }
  }

  /** In every run the downloader was started for a job at most once per attempt. */
  lemma OneStartPerAttempt(slots: nat, run: seq<Action>, j: JobId)
    requires Possible(Init(slots), run) && j in Reached(slots, run).jobs
    ensures StartCount(Init(slots), run, j)
            <= Reached(slots, run).jobs[j].attempts + (if Reached(slots, run).jobs[j].state == Queued then 0 else 1)
  {
    RunsAreStarts(slots, run, j);
    AttemptsAndShape(slots, run, j);
  }

  /** And attempts count the retries. */
  ghost function RetryCount(run: seq<Action>, j: JobId): nat {
    if run == [] then 0 else RetryCount(run[..|run| - 1], j) + if run[|run| - 1] == Env(Retry(j)) then 1 else 0
  }

  lemma CountRetry(run: seq<Action>, r: seq<Action>, j: JobId)
    requires run != [] && r == run[..|run| - 1]
    ensures RetryCount(run, j) == RetryCount(r, j) + if run[|r|] == Env(Retry(j)) then 1 else 0
  {
  }

  lemma RetryStep(s: Sys, a: Action, j: JobId)
    requires Enabled(s, a) && j in Apply(s, a).jobs
    ensures if j in s.jobs then Apply(s, a).jobs[j].attempts == s.jobs[j].attempts + if a == Env(Retry(j)) then 1 else 0
            else Apply(s, a).jobs[j].attempts == 0 && a != Env(Retry(j))
  {
    match a
    case Env(e) => EventAttempts(s, e, j);
    case Handle(h, hs) => HandlerAttempts(s, h, hs, j);
    case Work(w, ws) => WorkerAttempts(s, w, ws, j);
  }

  lemma EventAttempts(s: Sys, e: Event, j: JobId)
    requires CanOccur(s, e) && j in Occurred(s, e).jobs
    ensures j in s.jobs && Occurred(s, e).jobs[j].attempts == s.jobs[j].attempts + if e == Retry(j) then 1 else 0
  {
  }

  lemma WorkerAttempts(s: Sys, w: WorkerId, ws: WorkerStep, j: JobId)
    requires CanWork(s, w, ws) && j in Worked(s, w, ws).jobs
    ensures j in s.jobs && Worked(s, w, ws).jobs[j].attempts == s.jobs[j].attempts
  {
    var q := WorkerSteps.WorkedDelta(s, w, ws);
  }

  lemma HandlerAttempts(s: Sys, h: HandlerId, hs: HandlerStep, j: JobId)
    requires CanHandle(s, h, hs) && j in Handled(s, h, hs).jobs
    ensures if j in s.jobs then Handled(s, h, hs).jobs[j] == s.jobs[j] else Handled(s, h, hs).jobs[j].attempts == 0
  {
  }

  lemma {:induction false} NoneRetriedYet(slots: nat, run: seq<Action>, j: JobId)
    requires Possible(Init(slots), run) && j !in Reached(slots, run).jobs
    ensures RetryCount(run, j) == 0
  {
    if run != [] {
      var r := run[..|run| - 1];
      LastStep(Init(slots), run, r);
      if j in Reached(slots, r).jobs {
        RowsPersist(Reached(slots, r), run[|r|], j, Reached(slots, r).jobs[j].Key());
        assert false;
      }
      NoneRetriedYet(slots, r, j);
    }
  }

  lemma {:induction false} AttemptsAreRetries(slots: nat, run: seq<Action>, j: JobId)
    requires Possible(Init(slots), run) && j in Reached(slots, run).jobs
    ensures Reached(slots, run).jobs[j].attempts == RetryCount(run, j)
  {
    assert run != [];
    var r := run[..|run| - 1];
    LastStep(Init(slots), run, r);
    RetryStep(After(Init(slots), r), run[|r|], j);
    CountRetry(run, r, j);
    if j in Reached(slots, r).jobs {
      AttemptsAreRetries(slots, r, j);
    } else {
      NoneRetriedYet(slots, r, j);
    }
  }

  // ----- Deleted episodes

  lemma GoneStep(s: Sys, a: Action, ep: EpisodeId)
    requires Enabled(s, a)
    ensures ep in Apply(s, a).gone <==> ep in s.gone || a == Env(DeleteEpisode(ep))
  {
    match a
    case Env(e) =>
    case Handle(h, hs) => HandlerGone(s, h, hs);
    case Work(w, ws) => var q := WorkerSteps.WorkedDelta(s, w, ws);
  }

  lemma HandlerGone(s: Sys, h: HandlerId, hs: HandlerStep)
    requires CanHandle(s, h, hs)
    ensures Handled(s, h, hs).gone == s.gone
  {
  }

  /** The episodes that are gone are those the run deleted. */
  lemma {:induction false} GoneIff(slots: nat, run: seq<Action>, ep: EpisodeId)
    requires Possible(Init(slots), run)
    ensures ep in Reached(slots, run).gone <==> Env(DeleteEpisode(ep)) in run
  {
    if run != [] {
      var r := run[..|run| - 1];
      LastStep(Init(slots), run, r);
      assert run == r + [run[|r|]];
      GoneIff(slots, r, ep);
      GoneStep(After(Init(slots), r), run[|r|], ep);
    }
  }

  // ----- Jobs the endpoints start

  /** The step that answers "started" schedules the job's worker and counts on it; `run_job` may come again. */
  lemma StartPledges(s: Sys, h: HandlerId, w: WorkerId)
    requires CanHandle(s, h, Enqueue(w))
    ensures var t := Handled(s, h, Enqueue(w)); var j := s.handlers[h].job;
            && t.log == s.log + [Answer(s.handlers[h].req, Started(j))]
            && j in t.pledged && (s.handlers[h].req.kind != Episode ==> j in t.enqueued)
            && t.workers == s.workers[w := Worker(j, s.handlers[h].req.kind == Episode, Waiting)]
  {
  }

  lemma PledgeStays(s: Sys, a: Action, j: JobId)
    requires Enabled(s, a) && j in s.pledged && a != Env(Retry(j)) && a != Env(Crash)
    ensures j in Apply(s, a).pledged
  {
    match a
    case Env(e) =>
    case Handle(h, hs) => HandlerPledges(s, h, hs, j);
    case Work(w, ws) => var q := WorkerSteps.WorkedDelta(s, w, ws);
  }

  lemma HandlerPledges(s: Sys, h: HandlerId, hs: HandlerStep, j: JobId)
    requires CanHandle(s, h, hs) && j in s.pledged
    ensures j in Handled(s, h, hs).pledged
  {
  }

  lemma {:induction false} PledgeStaysAlong(s: Sys, run: seq<Action>, j: JobId)
    requires Possible(s, run) && j in s.pledged && Env(Retry(j)) !in run && Env(Crash) !in run
    ensures j in After(s, run).pledged
  {
    if run != [] {
      var r := run[..|run| - 1];
      LastStep(s, run, r);
      assert run == r + [run[|r|]];
      PledgeStaysAlong(s, r, j);
      PledgeStays(After(s, r), run[|r|], j);
    }
  }
}
