/** A download request from arrival to answer, undisturbed, and what may happen at any time. */
module Requests {
  import opened Wrappers
  import opened Jobs
  import opened Protocol
  import opened ProtocolResults

  /** The run starts with the request's arrival and takes only steps of its handler. */
  ghost predicate Serves(run: seq<Action>, h: HandlerId, req: Req) {
    && run != [] && run[0] == Env(Request(h, req))
    && forall i | 0 < i < |run| :: run[i].Handle? && run[i].h == h
  }

  /** Answered `o` from `s`, with these rows and workers, and nothing else changed for anyone. */
  ghost predicate Answered(s: Sys, t: Sys, req: Req, o: Outcome, jobs: Table, workers: map<WorkerId, Worker>) {
    && t.log == s.log + [Answer(req, o)] && t.jobs == jobs && t.workers == workers
    && t.handlers == s.handlers && t.downloads == s.downloads && t.removed == s.removed && t.gone == s.gone
    && t.free == s.free && t.up == s.up
  }

  lemma Arrives(s: Sys, h: HandlerId, req: Req) returns (run: seq<Action>)
    requires CanOccur(s, Request(h, req))
    ensures Possible(s, run) && Serves(run, h, req) && After(s, run) == Waits(s, h, Arrived(req))
  {
    run := Extend(s, [], Env(Request(h, req)));
  }

  lemma Goes(s: Sys, run: seq<Action>, h: HandlerId, hs: HandlerStep, req: Req) returns (longer: seq<Action>)
    requires Possible(s, run) && Serves(run, h, req) && CanHandle(After(s, run), h, hs)
    ensures Possible(s, longer) && Serves(longer, h, req) && After(s, longer) == Handled(After(s, run), h, hs)
  {
    longer := Extend(s, run, Handle(h, hs));
  }

  lemma CheckAnswers(s: Sys, h: HandlerId, req: Req)
    requires CanOccur(s, Request(h, req))
    ensures var t := Waits(s, h, Arrived(req)); var key := (req.user, req.url);
            && CanHandle(t, h, CheckDownload)
            && Checks(t, h) == if req.kind == Song && key in s.downloads
                               then Responds(t, h, req, WasDone(s.downloads[key].job))
                               else if req.episode.Some? && req.episode.value in s.gone
                               then Responds(t, h, req, NoEpisode)
                               else Waits(s, h, LookingUp(req))
  {
  }

  lemma RespondsOnly(s: Sys, h: HandlerId, req: Req, o: Outcome)
    requires h !in s.handlers
    ensures Answered(s, Responds(Waits(s, h, Arrived(req)), h, req, o), req, o, s.jobs, s.workers)
  {
    assert Waits(s, h, Arrived(req)).handlers - {h} == s.handlers;
  }

  lemma FindsNone(s: Sys, h: HandlerId, req: Req)
    requires s.up && h !in s.handlers && forall j :: !Hit(s.jobs, j, req.url, Some(req.user))
    ensures CanHandle(Waits(s, h, LookingUp(req)), h, LookUp)
    ensures LooksUp(Waits(s, h, LookingUp(req)), h) == Waits(s, h, Inserting(req))
  {
    HitMeans(s.jobs, req.url, Some(req.user), ActiveFor(s.jobs, req.Key()));
  }

  lemma FindsJob(s: Sys, h: HandlerId, req: Req, j: JobId)
    requires s.up && h !in s.handlers && UniqueActive(s.jobs) && Hit(s.jobs, j, req.url, Some(req.user))
    ensures CanHandle(Waits(s, h, LookingUp(req)), h, LookUp)
    ensures Answered(s, LooksUp(Waits(s, h, LookingUp(req)), h), req, Joined(j), s.jobs, s.workers)
  {
    HitMeans(s.jobs, req.url, Some(req.user), ActiveFor(s.jobs, req.Key()));
    assert Waits(s, h, LookingUp(req)).handlers - {h} == s.handlers;
    assert TheActive(s.jobs, req.Key()) == j;
  }

  function Created(req: Req): Job {
    Job(req.user, req.url, req.kind, Queued, None, 0, None, None, req.episode)
  }

  lemma InsertAnswers(s: Sys, h: HandlerId, req: Req, id: JobId, w: WorkerId)
    requires s.up && h !in s.handlers && w !in s.workers && id !in s.jobs
    requires forall v | v in s.workers :: s.workers[v].job != id
    requires forall j :: !Hit(s.jobs, j, req.url, Some(req.user))
    requires !(req.episode.Some? && req.episode.value in s.gone)
    ensures var t := Waits(s, h, Inserting(req));
            && CanHandle(t, h, TryInsert(id)) && CanHandle(Inserts(t, h, id), h, Enqueue(w))
            && Answered(s, Enqueues(Inserts(t, h, id), h, w), req, Started(id), s.jobs[id := Created(req)],
                        s.workers[w := Worker(id, req.kind == Episode, Waiting)])
  {
    var t := Waits(s, h, Inserting(req));
    HitMeans(s.jobs, req.url, Some(req.user), ActiveFor(s.jobs, req.Key()));
    assert t.handlers - {h} == s.handlers;
    assert Inserts(t, h, id).handlers - {h} == s.handlers;
  }

  /** A download request undisturbed, whatever the state: a song the user has downloaded is answered "done" with the
      job of its row, a gone episode is refused, a queued or running job of the user on that URL is joined, and
      otherwise the new row goes in and one worker of the right kind is scheduled for it. */
  lemma RequestAlone(s: Sys, h: HandlerId, req: Req, id: JobId, w: WorkerId) returns (run: seq<Action>)
    requires CanOccur(s, Request(h, req)) && UniqueActive(s.jobs) && w !in s.workers && id !in s.jobs
    requires forall v | v in s.workers :: s.workers[v].job != id
    ensures Possible(s, run) && Serves(run, h, req)
    ensures var t := After(s, run); var key := (req.user, req.url);
            if req.kind == Song && key in s.downloads then
              Answered(s, t, req, WasDone(s.downloads[key].job), s.jobs, s.workers)
            else if req.episode.Some? && req.episode.value in s.gone then
              Answered(s, t, req, NoEpisode, s.jobs, s.workers)
            else if exists j :: Hit(s.jobs, j, req.url, Some(req.user)) then
              forall j | Hit(s.jobs, j, req.url, Some(req.user)) :: Answered(s, t, req, Joined(j), s.jobs, s.workers)
            else
              Answered(s, t, req, Started(id), s.jobs[id := Created(req)],
                       s.workers[w := Worker(id, req.kind == Episode, Waiting)])
  {
    run := Arrives(s, h, req);
    CheckAnswers(s, h, req);
    RespondsOnly(s, h, req, NoEpisode);
    if (req.user, req.url) in s.downloads {
      RespondsOnly(s, h, req, WasDone(s.downloads[(req.user, req.url)].job));
    }
    run := Goes(s, run, h, CheckDownload, req);
    if !(req.kind == Song && (req.user, req.url) in s.downloads)
       && !(req.episode.Some? && req.episode.value in s.gone)
    {
      forall j | Hit(s.jobs, j, req.url, Some(req.user))
        ensures Answered(s, LooksUp(Waits(s, h, LookingUp(req)), h), req, Joined(j), s.jobs, s.workers)
      {
        FindsJob(s, h, req, j);
      }
      run := Goes(s, run, h, LookUp, req);
      if forall j :: !Hit(s.jobs, j, req.url, Some(req.user)) {
        FindsNone(s, h, req);
        InsertAnswers(s, h, req, id, w);
        run := Goes(s, run, h, TryInsert(id), req);
        run := Goes(s, run, h, Enqueue(w), req);
      }
    }
  }

  /** A retry puts the row back to queued for one more attempt; `run_job` may then come for it. */
  lemma RetryMeans(s: Sys, j: JobId, w: WorkerId)
    requires CanOccur(s, Retry(j)) && w !in s.workers
    ensures var t := Occurred(s, Retry(j)); var row := s.jobs[j];
            && t.jobs == s.jobs[j := Job(row.user, row.url, row.kind, Queued, None, row.attempts + 1, None, None,
                                         row.episode)]
            && t.workers == s.workers && t.downloads == s.downloads && t.handlers == s.handlers
            && CanOccur(t, DispatchSong(w, j))
            && Occurred(t, DispatchSong(w, j)).workers == s.workers[w := Worker(j, false, Waiting)]
  {
  }

  /** What may happen when: a crash at any time, a boot only when down, and everything else only when up. */
  lemma EventsAreOpen(s: Sys, h: HandlerId, req: Req, j: JobId, w: WorkerId, path: string, ep: EpisodeId, now: int)
    ensures CanOccur(s, Crash) && (CanOccur(s, Boot(now)) <==> !s.up)
    ensures CanOccur(s, DeleteSong(path)) == CanOccur(s, DeleteEpisode(ep)) == s.up
    ensures CanOccur(s, Request(h, req)) <==>
            s.up && h !in s.handlers && (req.kind == Episode <==> req.episode.Some?)
    ensures CanOccur(s, Retry(j)) <==>
            s.up && j in s.jobs && s.jobs[j].state == Failed && forall a :: !Hit(s.jobs, a, s.jobs[j].url, None)
    ensures CanOccur(s, DispatchSong(w, j)) <==>
            s.up && w !in s.workers && j in s.jobs && (j in s.enqueued || s.jobs[j].state == Failed)
  {
    if j in s.jobs {
      HitMeans(s.jobs, s.jobs[j].url, None, ActiveForUrl(s.jobs, s.jobs[j].url));
    }
  }
}
