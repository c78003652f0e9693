/** Queued jobs that no worker will take: left behind by a crash, or by a retry whose own dispatch came before
    its commit. */
module Stranding {
  import opened Wrappers
  import opened Jobs
  import opened Protocol
  import opened ProtocolInvariant
  import opened EventSteps
  import opened ProtocolResults
  import opened ProtocolTermination
  import WorkerSteps

  /** No worker on its way and no handler will touch queued job `j`. */
  ghost predicate Forsaken(s: Sys, j: JobId) {
    && j in s.jobs && s.jobs[j].state == Queued
    && (forall w | w in s.workers && s.workers[w].job == j :: s.workers[w].phase.Leaving?)
    && (forall h | h in s.handlers && s.handlers[h].Enqueuing? :: s.handlers[h].job != j)
  }

  /** Nor may `run_job` be dispatched for it again. */
  ghost predicate Stranded(s: Sys, j: JobId) { Forsaken(s, j) && j !in s.enqueued }

  predicate Dispatches(a: Action, j: JobId) { a.Env? && a.e.DispatchSong? && a.e.j == j }

  predicate NeverDispatches(run: seq<Action>, j: JobId) { forall i | 0 <= i < |run| :: !Dispatches(run[i], j) }

  lemma ForsakenStep(s: Sys, a: Action, j: JobId)
    requires Enabled(s, a) && Forsaken(s, j) && !Dispatches(a, j)
    ensures Forsaken(Apply(s, a), j)
  {
    match a
    case Env(e) => ForsakenEvent(s, e, j);
    case Handle(h, hs) => ForsakenHandler(s, h, hs, j);
    case Work(w, ws) => ForsakenWorker(s, w, ws, j);
  }

  lemma ForsakenEvent(s: Sys, e: Event, j: JobId)
    requires CanOccur(s, e) && Forsaken(s, j) && !(e.DispatchSong? && e.j == j)
    ensures Forsaken(Occurred(s, e), j)
  {
  }

  lemma ForsakenHandler(s: Sys, h: HandlerId, hs: HandlerStep, j: JobId)
    requires CanHandle(s, h, hs) && Forsaken(s, j)
    ensures Forsaken(Handled(s, h, hs), j)
    ensures j !in s.enqueued ==> j !in Handled(s, h, hs).enqueued
  {
    match hs
    case TryInsert(id) => ForsakenInsert(s, h, id, j);
    case Enqueue(w) => ForsakenEnqueue(s, h, w, j);
    case _ =>
  }

  lemma ForsakenInsert(s: Sys, h: HandlerId, id: JobId, j: JobId)
    requires CanHandle(s, h, TryInsert(id)) && Forsaken(s, j)
    ensures Forsaken(Inserts(s, h, id), j) && Inserts(s, h, id).enqueued == s.enqueued
  {
  }

  lemma ForsakenEnqueue(s: Sys, h: HandlerId, w: WorkerId, j: JobId)
    requires CanHandle(s, h, Enqueue(w)) && Forsaken(s, j)
    ensures Forsaken(Enqueues(s, h, w), j)
    ensures j !in s.enqueued ==> j !in Enqueues(s, h, w).enqueued
  {
  }

  lemma ForsakenWorker(s: Sys, w: WorkerId, ws: WorkerStep, j: JobId)
    requires CanWork(s, w, ws) && Forsaken(s, j)
    ensures Forsaken(Worked(s, w, ws), j) && Worked(s, w, ws).enqueued == s.enqueued
  {
    var q := WorkerSteps.WorkedDelta(s, w, ws);
  }

  lemma StrandedStep(s: Sys, a: Action, j: JobId)
    requires Enabled(s, a) && Stranded(s, j)
    ensures Stranded(Apply(s, a), j)
  {
    ForsakenStep(s, a, j);
    match a
    case Env(e) =>
    case Handle(h, hs) => ForsakenHandler(s, h, hs, j);
    case Work(w, ws) => ForsakenWorker(s, w, ws, j);
  }

  lemma {:induction false} ForsakenAlong(s: Sys, run: seq<Action>, j: JobId)
    requires Forsaken(s, j) && Possible(s, run) && NeverDispatches(run, j)
    ensures Forsaken(After(s, run), j)
  {
    if run != [] {
      ForsakenAlong(s, run[..|run| - 1], j);
      ForsakenStep(After(s, run[..|run| - 1]), run[|run| - 1], j);
    }
  }

  /** Every lookup for the job's key is answered with it and every insert for that key turned away. */
  ghost predicate Blocks(t: Sys, j: JobId)
    requires j in t.jobs
  {
    && (forall h | CanHandle(t, h, LookUp) && t.handlers[h].req.Key() == t.jobs[j].Key() ::
          Handled(t, h, LookUp).log == t.log + [Answer(t.handlers[h].req, Joined(j))])
    && (forall h, id | CanHandle(t, h, TryInsert(id)) && t.handlers[h].req.Key() == t.jobs[j].Key() ::
          IsRejected(Handled(t, h, TryInsert(id)), h, t.handlers[h].req, Blocked(j))
          && Handled(t, h, TryInsert(id)).jobs == t.jobs)
  }

  lemma ActiveBlocks(t: Sys, j: JobId)
    requires UniqueActive(t.jobs) && j in t.jobs && t.jobs[j].Active()
    ensures Blocks(t, j)
  {
    assert j in ActiveFor(t.jobs, t.jobs[j].Key());
    assert TheActive(t.jobs, t.jobs[j].Key()) == j;
  }

  lemma BootedKeeps(s: Sys, now: int, run: seq<Action>)
    requires Inv(s) && Possible(Booted(Crashed(s), now), run)
    ensures Inv(After(Booted(Crashed(s), now), run))
  {
    CrashKeepsInv(s);
    BootKeepsInv(Crashed(s), now);
    RunKeepsInv(Booted(Crashed(s), now), run);
  }

  lemma StrandedAtBoot(s: Sys, now: int, j: JobId)
    requires j in s.jobs && s.jobs[j].state == Queued
    ensures Stranded(Booted(Crashed(s), now), j) && KeyOf(Booted(Crashed(s), now), j, s.jobs[j].Key())
  {
  }

  lemma ForsakenMeans(t: Sys, j: JobId, key: DownloadKey)
    requires GoodTable(t.jobs) && Forsaken(t, j) && KeyOf(t, j, key)
    ensures !CanRequeue(t.jobs, j) && t.jobs[j].Key() == key && Blocks(t, j)
  {
    ActiveBlocks(t, j);
  }

  /** Boot recovers running jobs only. A job still queued at a crash stays queued in every later run, further
      crashes and boots included: no worker ever takes it, it cannot be retried, and every create for its key
      is turned away. */
  lemma QueuedIsStranded(s: Sys, now: int, run: seq<Action>, j: JobId)
    requires Inv(s) && j in s.jobs && s.jobs[j].state == Queued && Possible(Booted(Crashed(s), now), run)
    ensures var t := After(Booted(Crashed(s), now), run);
            Stranded(t, j) && !CanRequeue(t.jobs, j) && t.jobs[j].Key() == s.jobs[j].Key() && Blocks(t, j)
  {
    var b := Booted(Crashed(s), now);
    BootedKeeps(s, now, run);
    StrandedAtBoot(s, now, j);
    StrandedAlong(b, run, j);
    RowsPersistAlong(b, run, j, s.jobs[j].Key());
    ForsakenMeans(After(b, run), j, s.jobs[j].Key());
  }

  lemma {:induction false} StrandedAlong(s: Sys, run: seq<Action>, j: JobId)
    requires Stranded(s, j) && Possible(s, run)
    ensures Stranded(After(s, run), j)
  {
    if run != [] {
      StrandedAlong(s, run[..|run| - 1], j);
      StrandedStep(After(s, run[..|run| - 1]), run[|run| - 1], j);
    }
  }

  /** A queued job is reachable: one whose worker waits for its slot. */
  lemma QueuedIsReachable() returns (run: seq<Action>)
    ensures Possible(Init(1), run) && 9 in Reached(1, run).jobs && Reached(1, run).jobs[9].state == Queued
    ensures OnItsWay(Reached(1, run), 0, 9)
  {
    run := ReachInsert();
    run := Extend(Init(1), run, Handle(0, TryInsert(9)));
    run := Extend(Init(1), run, Handle(0, Enqueue(0)));
  }

  // ----- A retry's own dispatch

  /** A worker will come to read job `j`, or a handler is about to schedule one. */
  ghost predicate Coming(s: Sys, j: JobId) {
    || (exists w :: OnItsWay(s, w, j))
    || (exists h :: h in s.handlers && s.handlers[h].Enqueuing? && s.handlers[h].job == j)
  }

  /** The retry dispatches `run_job` before it commits. When the worker it dispatched has come and gone by then,
      the commit leaves a job that nobody takes. */
  lemma RetryForsakesIff(s: Sys, j: JobId)
    requires Inv(s) && CanOccur(s, Retry(j))
    ensures Forsaken(Retried(s, j), j) <==> !Coming(s, j)
  {
    var t := Retried(s, j);
    forall w | w in s.workers && s.workers[w].job == j ensures OnItsWay(s, w, j) <==> !s.workers[w].phase.Leaving? {
      assert s.workers[w].phase.Claimed() ==> CanFinish(s.jobs, j);
    }
    assert t.workers == s.workers && t.handlers == s.handlers;
  }

  /** From then on, in every run that does not dispatch it once more, it stays queued and cannot be retried, and
      every create for its key is answered with it or turned away. */
  lemma RetryStrands(slots: nat, before: seq<Action>, j: JobId, run: seq<Action>)
    requires Possible(Init(slots), before) && CanOccur(Reached(slots, before), Retry(j))
    requires !Coming(Reached(slots, before), j)
    requires Possible(Retried(Reached(slots, before), j), run) && NeverDispatches(run, j)
    ensures var t := After(Retried(Reached(slots, before), j), run);
            Forsaken(t, j) && !CanRequeue(t.jobs, j) && t.jobs[j].Key() == Reached(slots, before).jobs[j].Key()
            && Blocks(t, j)
  {
    var s := Reached(slots, before);
    var r := Retried(s, j);
    ReachedIsGood(slots, before);
    RetryKeepsInv(s, j);
    RetryForsakesIff(s, j);
    RunKeepsInv(r, run);
    ForsakenAlong(r, run, j);
    RowsPersistAlong(r, run, j, s.jobs[j].Key());
    ForsakenMeans(After(r, run), j, s.jobs[j].Key());
  }

  /** A retried job that is queued has a worker coming. */
  ghost predicate Attended(s: Sys, j: JobId) {
    j in s.jobs && s.jobs[j].attempts > 0 && (s.jobs[j].state == Queued ==> Coming(s, j))
  }

  lemma AttendedHandler(s: Sys, h: HandlerId, hs: HandlerStep, j: JobId)
    requires CanHandle(s, h, hs) && Inv(s) && Attended(s, j)
    ensures Attended(Handled(s, h, hs), j)
  {
    HandleRowsPersist(s, h, hs, j, s.jobs[j].Key());
    if s.jobs[j].state == Queued {
      HandlerStillComing(s, h, hs, j);
    }
  }

  lemma OthersWait(s: Sys, h: HandlerId, hs: HandlerStep)
    requires CanHandle(s, h, hs)
    ensures var t := Handled(s, h, hs);
            && (forall v | v in s.workers :: v in t.workers && t.workers[v] == s.workers[v])
            && (forall g | g in s.handlers && g != h :: g in t.handlers && t.handlers[g] == s.handlers[g])
            && (s.handlers[h].Enqueuing? ==> hs.Enqueue? && OnItsWay(t, hs.w, s.handlers[h].job))
  {
  }

  lemma HandlerStillComing(s: Sys, h: HandlerId, hs: HandlerStep, j: JobId)
    requires CanHandle(s, h, hs) && Coming(s, j)
    ensures Coming(Handled(s, h, hs), j)
  {
    OthersWait(s, h, hs);
    StaysComing(s, Handled(s, h, hs), h, j);
  }

  lemma StaysComing(s: Sys, t: Sys, h: HandlerId, j: JobId)
    requires h in s.handlers && Coming(s, j)
    requires forall v | v in s.workers :: v in t.workers && t.workers[v] == s.workers[v]
    requires forall g | g in s.handlers && g != h :: g in t.handlers && t.handlers[g] == s.handlers[g]
    requires s.handlers[h].Enqueuing? ==> exists v :: OnItsWay(t, v, s.handlers[h].job)
    ensures Coming(t, j)
  {
    if v :| OnItsWay(s, v, j) {
      assert OnItsWay(t, v, j);
    }
  }

  /** A worker's step takes a queued retried job or leaves the worker on its way. */
  lemma WorkerStillComing(s: Sys, t: Sys, w: WorkerId, q: Option<Phase>, j: JobId)
    requires WorkerSteps.Delta(s, t, w, q) && PodcastTasks(s) && SongTasks(s)
    requires j in s.jobs && s.jobs[j].attempts > 0 && t.jobs[j].state == Queued && Coming(s, j)
    ensures Coming(t, j)
  {
    if v :| OnItsWay(s, v, j) {
      assert OnItsWay(t, v, j);
    } else {
      assert t.handlers == s.handlers;
    }
  }

  lemma AttendedWorker(s: Sys, w: WorkerId, ws: WorkerStep, j: JobId)
    requires CanWork(s, w, ws) && PodcastTasks(s) && SongTasks(s) && Attended(s, j)
    ensures Attended(Worked(s, w, ws), j)
  {
    var q := WorkerSteps.WorkedDelta(s, w, ws);
    AttendedDelta(s, Worked(s, w, ws), w, q, j);
  }

  lemma AttendedDelta(s: Sys, t: Sys, w: WorkerId, q: Option<Phase>, j: JobId)
    requires WorkerSteps.Delta(s, t, w, q) && PodcastTasks(s) && SongTasks(s) && Attended(s, j)
    ensures Attended(t, j)
  {
    if t.jobs[j].state == Queued {
      WorkerStillComing(s, t, w, q, j);
    }
  }

  lemma AttendedStep(s: Sys, a: Action, j: JobId)
    requires Enabled(s, a) && Internal(a)
    ensures Inv(s) && Attended(s, j) ==> Inv(Apply(s, a)) && Attended(Apply(s, a), j)
  {
    if Inv(s) && Attended(s, j) {
      StepKeepsInv(s, a);
      match a
      case Env(e) =>
      case Handle(h, hs) => AttendedHandler(s, h, hs, j);
      case Work(w, ws) => AttendedWorker(s, w, ws, j);
    }
  }

  lemma {:induction false} AttendedAlong(s: Sys, run: seq<Action>, j: JobId)
    requires Possible(s, run) && AllInternal(run)
    ensures Inv(s) && Attended(s, j) ==> Attended(After(s, run), j) && Inv(After(s, run))
  {
    if run != [] {
      AttendedAlong(s, run[..|run| - 1], j);
      AttendedStep(After(s, run[..|run| - 1]), run[|run| - 1], j);
    }
  }

  /** If no worker or handler can move in `t`, job `j` is still queued exactly when none was coming in `s`. */
  ghost predicate LeftIffIgnored(s: Sys, j: JobId, t: Sys) {
    Quiet(t) ==> j in t.jobs && (t.jobs[j].state == Queued <==> !Coming(s, j))
  }

  lemma AttendedIsTaken(t: Sys, j: JobId)
    ensures Inv(t) && t.up && t.slots > 0 && Attended(t, j) && Quiet(t) ==> t.jobs[j].state != Queued
  {
    if Inv(t) && t.up && t.slots > 0 && Attended(t, j) && Quiet(t) {
      QuietIsRest(t);
    }
  }

  lemma AttendedSettles(r: Sys, j: JobId, run: seq<Action>)
    requires Possible(r, run) && AllInternal(run)
    ensures Inv(r) && r.up && r.slots > 0 && Attended(r, j) && Quiet(After(r, run)) ==>
              j in After(r, run).jobs && After(r, run).jobs[j].state != Queued
  {
    InternalRunKeepsUp(r, run);
    AttendedAlong(r, run, j);
    AttendedIsTaken(After(r, run), j);
  }

  lemma InternalNeverDispatches(run: seq<Action>, j: JobId)
    requires AllInternal(run)
    ensures NeverDispatches(run, j)
  {
    forall i | 0 <= i < |run| ensures !Dispatches(run[i], j) {
      assert Internal(run[i]);
    }
  }

  lemma StaysLeft(r: Sys, j: JobId, run: seq<Action>)
    requires Possible(r, run) && AllInternal(run)
    ensures Forsaken(r, j) ==> j in After(r, run).jobs && After(r, run).jobs[j].state == Queued
  {
    if Forsaken(r, j) {
      InternalNeverDispatches(run, j);
      ForsakenAlong(r, run, j);
    }
  }

  lemma RetryStart(s: Sys, j: JobId)
    requires CanOccur(s, Retry(j))
    ensures var r := Retried(s, j);
            && r.up && r.slots == s.slots
            && (Inv(s) ==> Inv(r) && if Coming(s, j) then Attended(r, j) else Forsaken(r, j))
  {
    if Inv(s) {
      RetryKeepsInv(s, j);
      RetryForsakesIff(s, j);
      if Coming(s, j) {
        ComingStays(s, j);
      }
    }
  }

  lemma ComingStays(s: Sys, j: JobId)
    requires j in s.jobs && Coming(s, j)
    ensures Coming(Retried(s, j), j)
  {
    if w :| OnItsWay(s, w, j) {
      assert OnItsWay(Retried(s, j), w, j);
    }
  }

  lemma LeftOrTaken(s: Sys, j: JobId, run: seq<Action>)
    requires CanOccur(s, Retry(j)) && Possible(Retried(s, j), run) && AllInternal(run)
    ensures Inv(s) && s.slots > 0 ==> LeftIffIgnored(s, j, After(Retried(s, j), run))
  {
    RetryStart(s, j);
    AttendedSettles(Retried(s, j), j, run);
    StaysLeft(Retried(s, j), j, run);
  }

  /** A retry in any reachable state of a process with a slot: once the workers and handlers have come to rest,
      however they interleaved, the job is still queued exactly when no worker was coming for it at the commit. */
  lemma RetryStrandsIff(slots: nat, before: seq<Action>, j: JobId, run: seq<Action>)
    requires Possible(Init(slots), before) && slots > 0 && CanOccur(Reached(slots, before), Retry(j))
    requires Possible(Retried(Reached(slots, before), j), run) && AllInternal(run)
    ensures LeftIffIgnored(Reached(slots, before), j, After(Retried(Reached(slots, before), j), run))
  {
    ReachedIsGood(slots, before);
    SlotsFixed(Init(slots), before);
    LeftOrTaken(Reached(slots, before), j, run);
  }

  /** A retry whose worker runs to its end before the commit. */
  function Overtaken(w: WorkerId, j: JobId): seq<Action> {
    [Env(DispatchSong(w, j)), Work(w, Acquire), Work(w, Load(0)), Work(w, Leave), Env(Retry(j))]
  }

  /** Worker `w` for job `j` holds a slot. */
  function Holds(s: Sys, w: WorkerId, j: JobId, p: Phase): Sys
    requires s.free > 0
  {
    s.(workers := s.workers[w := Worker(j, false, p)], free := s.free - 1)
  }

  lemma TakesSlot(s: Sys, w: WorkerId, j: JobId) returns (run: seq<Action>)
    requires CanOccur(s, Retry(j)) && w !in s.workers && s.free > 0
    ensures run == [Env(DispatchSong(w, j)), Work(w, Acquire)]
    ensures Possible(s, run) && After(s, run) == Holds(s, w, j, Loading)
  {
    run := Extend(s, [], Env(DispatchSong(w, j)));
    run := Extend(s, run, Work(w, Acquire));
  }

  lemma FindsFailed(s: Sys, w: WorkerId, j: JobId)
    requires CanOccur(s, Retry(j)) && w !in s.workers && s.free > 0
    ensures CanWork(Holds(s, w, j, Loading), w, Load(0))
    ensures Worked(Holds(s, w, j, Loading), w, Load(0)) == Holds(s, w, j, Leaving)
    ensures CanWork(Holds(s, w, j, Leaving), w, Leave) && Worked(Holds(s, w, j, Leaving), w, Leave) == s
  {
    assert Holds(s, w, j, Leaving).workers - {w} == s.workers;
  }

  lemma ComesAndGoes(s: Sys, w: WorkerId, j: JobId) returns (run: seq<Action>)
    requires CanOccur(s, Retry(j)) && w !in s.workers && s.free > 0
    ensures run == [Work(w, Load(0)), Work(w, Leave)]
    ensures Possible(Holds(s, w, j, Loading), run) && After(Holds(s, w, j, Loading), run) == s
  {
    FindsFailed(s, w, j);
    run := Extend(Holds(s, w, j, Loading), [], Work(w, Load(0)));
    run := Extend(Holds(s, w, j, Loading), run, Work(w, Leave));
  }

  /** Wherever a retry is possible and a slot is free it can go that way, and nothing tells the outcome from a
      retry that dispatched no worker at all. */
  lemma RetryCanBeOvertaken(s: Sys, w: WorkerId, j: JobId)
    requires CanOccur(s, Retry(j)) && w !in s.workers && s.free > 0
    ensures Possible(s, Overtaken(w, j)) && After(s, Overtaken(w, j)) == Retried(s, j)
  {
    var first := TakesSlot(s, w, j);
    var second := ComesAndGoes(s, w, j);
    TwoHalves(s, w, j, first, second);
  }

  lemma TwoHalves(s: Sys, w: WorkerId, j: JobId, first: seq<Action>, second: seq<Action>)
    requires CanOccur(s, Retry(j)) && Possible(s, first) && Possible(After(s, first), second)
    requires After(After(s, first), second) == s && first + second + [Env(Retry(j))] == Overtaken(w, j)
    ensures Possible(s, Overtaken(w, j)) && After(s, Overtaken(w, j)) == Retried(s, j)
  {
    Joins(s, first, second);
    var run := Extend(s, first + second, Env(Retry(j)));
    assert run == Overtaken(w, j);
  }

  /** Song job 9 of user 1 has failed and everything is over. */
  ghost predicate FailedAlone(s: Sys) {
    && s.up && s.free == 1 && s.workers == map[] && s.handlers == map[]
    && s.jobs.Keys == {9} && s.jobs[9].state == Failed
  }

  /** Its worker waits for the slot. */
  ghost predicate WaitsAlone(s: Sys) {
    && s.up && s.free == 1 && s.workers == map[0 := Worker(9, false, Waiting)] && s.handlers == map[]
    && s.jobs.Keys == {9} && s.jobs[9].state == Queued
  }

  lemma ReachWaiting() returns (run: seq<Action>)
    ensures Possible(Init(1), run) && WaitsAlone(Reached(1, run))
  {
    var req := Req(1, "u", Song, None);
    var s := Init(1);
    run := Extend(s, [], Env(Request(0, req)));
    run := Extend(s, run, Handle(0, CheckDownload));
    run := Extend(s, run, Handle(0, LookUp));
    assert Reached(1, run) == s.(handlers := map[0 := Inserting(req)]);
    CreatesSong(req);
    run := Extend(s, run, Handle(0, TryInsert(9)));
    run := Extend(s, run, Handle(0, Enqueue(0)));
  }

  lemma CreatesSong(req: Req)
    requires req == Req(1, "u", Song, None)
    ensures var s := Init(1).(handlers := map[0 := Inserting(req)]);
            && CanHandle(s, 0, TryInsert(9)) && CanHandle(Inserts(s, 0, 9), 0, Enqueue(0))
            && WaitsAlone(Enqueues(Inserts(s, 0, 9), 0, 0))
  {
  }

  lemma ReachFailed() returns (run: seq<Action>)
    ensures Possible(Init(1), run) && FailedAlone(Reached(1, run))
  {
    run := ReachWaiting();
    run := Extend(Init(1), run, Work(0, Acquire));
    run := Extend(Init(1), run, Work(0, Load(0)));
    run := Extend(Init(1), run, Work(0, RunnerFails("no audio")));
    run := Extend(Init(1), run, Work(0, MarkFailed(0)));
    run := Extend(Init(1), run, Work(0, Leave));
  }

  /** So a run from the empty database ends with a retry that stranded its job. */
  lemma RetryCanStrand() returns (run: seq<Action>)
    ensures Possible(Init(1), run + Overtaken(1, 9)) && Forsaken(Reached(1, run + Overtaken(1, 9)), 9)
  {
    run := ReachFailed();
    var s := Reached(1, run);
    ReachedIsGood(1, run);
    assert ActiveForUrl(s.jobs, s.jobs[9].url) == {};
    RetryCanBeOvertaken(s, 1, 9);
    RetryForsakesIff(s, 9);
    Joins(Init(1), run, Overtaken(1, 9));
  }

  lemma {:induction false} Joins(s: Sys, a: seq<Action>, b: seq<Action>)
    requires Possible(s, a) && Possible(After(s, a), b)
    ensures Possible(s, a + b) && After(s, a + b) == After(After(s, a), b)
  {
    if b == [] {
      assert a + b == a;
    } else {
      Joins(s, a, b[..|b| - 1]);
      assert (a + b)[..|a + b| - 1] == a + b[..|b| - 1];
    }
  }
}
