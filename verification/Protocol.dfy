/** The download protocol as a step system.

    Request handlers and background workers run concurrently; each action below is one committed
    database step, one semaphore operation or one return of a foreign call, so any interleaving of the
    source's coroutines is a sequence of actions.

    Assumptions. One process. The commit of `retry_job` is one atomic step. `run_job` may be dispatched any number of
    times for a job that `/download` or a retry has scheduled since the last boot, and for a failed job,
    because a retry enqueues before it commits; nothing else dispatches it. `run_podcast_episode_job` is
    dispatched once, by the endpoint that created the job. New row ids are unused. The
    database may fail while a download is recorded (`BookFault`), not elsewhere.
 */
module Protocol {
  import opened Wrappers
  import opened Jobs

  type WorkerId = nat
  type HandlerId = nat
  type DownloadKey = (UserId, Url)

  datatype Download = Download(job: JobId, path: string)

  /** Where a background worker stands. */
  datatype Phase =
    | Waiting                       // scheduled, wants a slot
    | Loading                       // holds a slot, about to read its job
    | Looking(ep: EpisodeId)        // episode worker: read the job, about to read the episode
    | EpisodeMissing                // episode worker: no such episode, about to mark the job failed
    | Fetching                      // marked the job running; the download runs
    | Fetched(path: Option<string>) // the download returned, with a file or without
    | Failing(msg: string)          // about to mark the job failed
    | Leaving                       // about to give the slot back
  {
    /** Past `mark_running` and not yet past the final mark. */
    predicate Claimed() { Fetching? || Fetched? || Failing? }

    predicate Pending() { Waiting? || Loading? || Looking? || EpisodeMissing? }
  }

  datatype Worker = Worker(job: JobId, podcast: bool, phase: Phase)

  datatype Req = Req(user: UserId, url: Url, kind: Kind, episode: Option<EpisodeId>) {
    function Key(): DownloadKey { (user, url) }

    predicate WellFormed() { kind == Episode <==> episode.Some? }
  }

  datatype Cause = Blocked(job: JobId) | EpisodeGone(ep: EpisodeId)

  /** Where a `/download` or episode-download request stands. */
  datatype Handler =
    | Arrived(req: Req)
    | LookingUp(req: Req)
    | Inserting(req: Req)
    | Rejected(req: Req, cause: Cause)
    | Enqueuing(req: Req, job: JobId)

  datatype Outcome =
    | WasDone(job: JobId)   // the synthetic "done" answer
    | Joined(job: JobId)    // deduped: an active job was found
    | Started(job: JobId)   // a new job was inserted and scheduled
    | Escaped(cause: Cause) // the IntegrityError was re-raised
    | NoEpisode

  datatype Answer = Answer(req: Req, outcome: Outcome)

  datatype Sys = Sys(
    jobs: Table,
    downloads: map<DownloadKey, Download>,
    removed: set<DownloadKey>,   // keys whose download row `delete_song` removed last
    gone: set<EpisodeId>,        // deleted episodes
    slots: nat,
    free: nat,
    workers: map<WorkerId, Worker>,
    handlers: map<HandlerId, Handler>,
    log: seq<Answer>,
    pledged: set<JobId>,         // dispatched by an endpoint since the last boot, and not retried
    enqueued: set<JobId>,        // `run_job` was scheduled for them since the last boot
    runs: map<JobId, nat>,       // how often the downloader was started for a job
    recovered: nat,              // what the last boot reported
    up: bool)

  /** Requests and outside events. */
  datatype Event =
    | Request(h: HandlerId, req: Req)
    | Retry(j: JobId)
    | DispatchSong(w: WorkerId, j: JobId)
    | DeleteSong(path: string)
    | DeleteEpisode(ep: EpisodeId)
    | Crash
    | Boot(now: int)

  /** The steps of `/download` and the episode-download endpoint. */
  datatype HandlerStep =
    | CheckDownload
    | LookUp
    | TryInsert(id: JobId)
    | Reread
    | Enqueue(w: WorkerId)

  /** The steps of a background worker. */
  datatype WorkerStep =
    | Acquire
    | Load(now: int)
    | LookEpisode(now: int)
    | FailMissing(now: int)
    | RunnerReturns(file: Option<string>)
    | RunnerFails(msg: string)
    | Book(now: int)
    | BookFault(msg: string)
    | MarkFailed(now: int)
    | Leave

  datatype Action = Env(e: Event) | Handle(h: HandlerId, hs: HandlerStep) | Work(w: WorkerId, ws: WorkerStep)

  function Init(slots: nat): Sys {
    Sys(map[], map[], {}, {}, slots, slots, map[], map[], [], {}, {}, map[], 0, true)
  }

  function Runs(s: Sys, j: JobId): nat { if j in s.runs then s.runs[j] else 0 }

  /** The row a lookup finds. */
  ghost function TheActive(t: Table, key: DownloadKey): JobId
    requires ActiveFor(t, key) != {}
    ensures TheActive(t, key) in ActiveFor(t, key)
  {
    var id :| id in ActiveFor(t, key);
    id
  }

  const NO_AUDIO := "bookkeeping failed: RuntimeError: spotdl exited 0 but produced no audio file"
  const WRONG_STATE := "bookkeeping failed: InvalidStateTransition"
  const NO_EPISODE := "episode no longer exists"

  // ----- Background workers

  ghost predicate CanWork(s: Sys, w: WorkerId, ws: WorkerStep) {
    s.up && w in s.workers &&
    var p := s.workers[w].phase;
    match ws
    case Acquire => p.Waiting? && s.free > 0
    case Load(_) => p.Loading?
    case LookEpisode(_) => p.Looking?
    case FailMissing(_) => p.EpisodeMissing?
    case RunnerReturns(_) => p.Fetching?
    case RunnerFails(_) => p.Fetching?
    case Book(_) => p.Fetched?
    case BookFault(_) => p.Fetched?
    case MarkFailed(_) => p.Failing?
    case Leave => p.Leaving?
  }

  function Moved(s: Sys, w: WorkerId, phase: Phase): Sys
    requires w in s.workers
  {
    s.(workers := s.workers[w := s.workers[w].(phase := phase)])
  }

  /** `mark_running`, and the start of the download if it succeeds. */
  function Claims(s: Sys, w: WorkerId, now: int): Sys
    requires w in s.workers
  {
    var j := s.workers[w].job;
    if CanClaim(s.jobs, j) then
      Moved(s.(jobs := Claim(s.jobs, j, now), runs := s.runs[j := Runs(s, j) + 1]), w, Fetching)
    else
      Moved(s, w, Leaving)
  }

  function Loads(s: Sys, w: WorkerId, now: int): Sys
    requires w in s.workers
  {
    var k := s.workers[w];
    if k.job !in s.jobs then Moved(s, w, Leaving)
    else if !k.podcast then Claims(s, w, now)
    else if s.jobs[k.job].episode.None? then Moved(s, w, Leaving)
    else Moved(s, w, Looking(s.jobs[k.job].episode.value))
  }

  /** `mark_failed`, whatever it finds. */
  function Fails(s: Sys, w: WorkerId, now: int, msg: string): Sys
    requires w in s.workers
  {
    Moved(s.(jobs := Fail(s.jobs, s.workers[w].job, now, msg)), w, Leaving)
  }

  /** The job's file goes to the downloads table: a song worker on a song job. */
  predicate Records(s: Sys, w: WorkerId)
    requires w in s.workers
  {
    !s.workers[w].podcast && s.workers[w].job in s.jobs && s.jobs[s.workers[w].job].kind == Song
  }

  /** INSERT ... ON CONFLICT (user_id, source_url) DO NOTHING. */
  function Recorded(s: Sys, w: WorkerId): map<DownloadKey, Download>
    requires w in s.workers && s.workers[w].phase.Fetched? && (Records(s, w) ==> s.workers[w].phase.path.Some?)
  {
    var j := s.workers[w].job;
    if Records(s, w) && s.jobs[j].Key() !in s.downloads then
      s.downloads[s.jobs[j].Key() := Download(j, s.workers[w].phase.path.value)]
    else s.downloads
  }

  /** Phase 3: the download row, unless the key has one, and `mark_done`, in one transaction. */
  function Books(s: Sys, w: WorkerId, now: int): Sys
    requires w in s.workers && s.workers[w].phase.Fetched?
  {
    var j := s.workers[w].job;
    if Records(s, w) && s.workers[w].phase.path.None? then
      Moved(s, w, Failing(NO_AUDIO))
    else if !CanFinish(s.jobs, j) then
      Moved(s, w, Failing(WRONG_STATE))
    else
      var rows := Recorded(s, w);
      Moved(s.(jobs := Finish(s.jobs, j, now), downloads := rows, removed := s.removed - rows.Keys), w, Leaving)
  }

  ghost function Worked(s: Sys, w: WorkerId, ws: WorkerStep): Sys
    requires CanWork(s, w, ws)
  {
    match ws
    case Acquire => Moved(s.(free := s.free - 1), w, Loading)
    case Load(now) => Loads(s, w, now)
    case LookEpisode(now) =>
      if s.workers[w].phase.ep in s.gone then Moved(s, w, EpisodeMissing) else Claims(s, w, now)
    case FailMissing(now) => Fails(s, w, now, NO_EPISODE)
    case RunnerReturns(file) => Moved(s, w, Fetched(file))
    case RunnerFails(msg) => Moved(s, w, Failing(msg))
    case Book(now) => Books(s, w, now)
    case BookFault(msg) => Moved(s, w, Failing(msg))
    case MarkFailed(now) => Fails(s, w, now, s.workers[w].phase.msg)
    case Leave => s.(workers := s.workers - {w}, free := s.free + 1)
  }

  // ----- Request handlers

  ghost predicate CanHandle(s: Sys, h: HandlerId, hs: HandlerStep) {
    s.up && h in s.handlers &&
    match hs
    case CheckDownload => s.handlers[h].Arrived?
    case LookUp => s.handlers[h].LookingUp?
    case TryInsert(id) =>
      s.handlers[h].Inserting? && id !in s.jobs && forall w | w in s.workers :: s.workers[w].job != id
    case Reread => s.handlers[h].Rejected?
    case Enqueue(w) => s.handlers[h].Enqueuing? && w !in s.workers
  }

  function Waits(s: Sys, h: HandlerId, next: Handler): Sys { s.(handlers := s.handlers[h := next]) }

  function Responds(s: Sys, h: HandlerId, req: Req, outcome: Outcome): Sys {
    s.(handlers := s.handlers - {h}, log := s.log + [Answer(req, outcome)])
  }

  ghost function Checks(s: Sys, h: HandlerId): Sys
    requires h in s.handlers
  {
    var req := s.handlers[h].req;
    if req.kind == Song && req.Key() in s.downloads then Responds(s, h, req, WasDone(s.downloads[req.Key()].job))
    else if Dangling(req.episode, s.gone) then Responds(s, h, req, NoEpisode)
    else Waits(s, h, LookingUp(req))
  }

  ghost function LooksUp(s: Sys, h: HandlerId): Sys
    requires h in s.handlers
  {
    var req := s.handlers[h].req;
    if ActiveFor(s.jobs, req.Key()) == {} then Waits(s, h, Inserting(req))
    else Responds(s, h, req, Joined(TheActive(s.jobs, req.Key())))
  }

  /** Insert and commit; the unique index is checked before the foreign key. */
  ghost function Inserts(s: Sys, h: HandlerId, id: JobId): Sys
    requires h in s.handlers
  {
    var req := s.handlers[h].req;
    if ActiveFor(s.jobs, req.Key()) != {} then
      Waits(s, h, Rejected(req, Blocked(TheActive(s.jobs, req.Key()))))
    else if Dangling(req.episode, s.gone) then
      Waits(s, h, Rejected(req, EpisodeGone(req.episode.value)))
    else
      Waits(s.(jobs := Insert(s.jobs, id, NewRow(req.user, req.url, req.kind, req.episode))), h, Enqueuing(req, id))
  }

  ghost function Rereads(s: Sys, h: HandlerId): Sys
    requires h in s.handlers && s.handlers[h].Rejected?
  {
    var req := s.handlers[h].req;
    if ActiveFor(s.jobs, req.Key()) == {} then Responds(s, h, req, Escaped(s.handlers[h].cause))
    else Responds(s, h, req, Joined(TheActive(s.jobs, req.Key())))
  }

  function Enqueues(s: Sys, h: HandlerId, w: WorkerId): Sys
    requires h in s.handlers && s.handlers[h].Enqueuing?
  {
    var req, j := s.handlers[h].req, s.handlers[h].job;
    Responds(s.(workers := s.workers[w := Worker(j, req.kind == Episode, Waiting)], pledged := s.pledged + {j},
                enqueued := if req.kind == Episode then s.enqueued else s.enqueued + {j}),
             h, req, Started(j))
  }

  ghost function Handled(s: Sys, h: HandlerId, hs: HandlerStep): Sys
    requires CanHandle(s, h, hs)
  {
    match hs
    case CheckDownload => Checks(s, h)
    case LookUp => LooksUp(s, h)
    case TryInsert(id) => Inserts(s, h, id)
    case Reread => Rereads(s, h)
    case Enqueue(w) => Enqueues(s, h, w)
  }

  // ----- Requests and outside events

  ghost predicate CanOccur(s: Sys, e: Event) {
    match e
    case Request(h, req) => s.up && h !in s.handlers && req.WellFormed()
    case Retry(j) => s.up && CanRequeue(s.jobs, j)
    case DispatchSong(w, j) =>
      s.up && w !in s.workers && j in s.jobs && (j in s.enqueued || s.jobs[j].state == Failed)
    case DeleteSong(_) => s.up
    case DeleteEpisode(_) => s.up
    case Crash => true
    case Boot(_) => !s.up
  }

  function DeletesSong(s: Sys, path: string): Sys {
    var hit := set k | k in s.downloads && s.downloads[k].path == path;
    s.(downloads := s.downloads - hit, removed := s.removed + hit)
  }

  function Retried(s: Sys, j: JobId): Sys
    requires j in s.jobs
  {
    s.(jobs := Requeue(s.jobs, j), pledged := s.pledged - {j}, enqueued := s.enqueued + {j})
  }

  function Dispatched(s: Sys, w: WorkerId, j: JobId): Sys { s.(workers := s.workers[w := Worker(j, false, Waiting)]) }

  function EpisodeDropped(s: Sys, ep: EpisodeId): Sys { s.(jobs := DropEpisode(s.jobs, ep), gone := s.gone + {ep}) }

  function Crashed(s: Sys): Sys {
    s.(workers := map[], handlers := map[], free := s.slots, pledged := {}, enqueued := {}, up := false)
  }

  function Booted(s: Sys, now: int): Sys {
    s.(jobs := Recover(s.jobs, now), recovered := |RunningIds(s.jobs)|, up := true)
  }

  ghost function Occurred(s: Sys, e: Event): Sys
    requires CanOccur(s, e)
  {
    match e
    case Request(h, req) => Waits(s, h, Arrived(req))
    case Retry(j) => Retried(s, j)
    case DispatchSong(w, j) => Dispatched(s, w, j)
    case DeleteSong(path) => DeletesSong(s, path)
    case DeleteEpisode(ep) => EpisodeDropped(s, ep)
    case Crash => Crashed(s)
    case Boot(now) => Booted(s, now)
  }

  // ----- All actions

  ghost predicate Enabled(s: Sys, a: Action) {
    match a
    case Env(e) => CanOccur(s, e)
    case Handle(h, hs) => CanHandle(s, h, hs)
    case Work(w, ws) => CanWork(s, w, ws)
  }

  ghost function Apply(s: Sys, a: Action): Sys
    requires Enabled(s, a)
  {
    match a
    case Env(e) => Occurred(s, e)
    case Handle(h, hs) => Handled(s, h, hs)
    case Work(w, ws) => Worked(s, w, ws)
  }

  // ----- Runs

  /** The actions can be taken one after another, starting from `s`. */
  ghost predicate Possible(s: Sys, run: seq<Action>)
    decreases |run|, 0
  {
    run == [] || (Possible(s, run[..|run| - 1]) && Enabled(After(s, run[..|run| - 1]), run[|run| - 1]))
  }

  ghost function After(s: Sys, run: seq<Action>): Sys
    requires Possible(s, run)
    decreases |run|, 1
  {
    if run == [] then s else Apply(After(s, run[..|run| - 1]), run[|run| - 1])
  }
}
