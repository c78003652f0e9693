/** With no new requests the download protocol comes to rest, with every slot free and every job the
    endpoints dispatched finished. */
module ProtocolTermination {
  import opened Wrappers
  import opened SetSums
  import opened Jobs
  import opened Protocol
  import opened ProtocolInvariant
  import opened EventSteps
  import HandlerSteps
  import ProtocolOrigins
  import ProtocolResults
  import WorkerSteps

  function PhaseWeight(p: Phase): nat {
    match p
    case Waiting => 7
    case Loading => 6
    case Looking(_) => 5
    case Fetching => 4
    case Fetched(_) => 3
    case EpisodeMissing => 2
    case Failing(_) => 2
    case Leaving => 1
  }

  function TaskWeight(k: Worker): nat { PhaseWeight(k.phase) }

  function HandlerWeight(h: Handler): nat {
    match h
    case Arrived(_) => 12
    case LookingUp(_) => 11
    case Inserting(_) => 10
    case Rejected(_, _) => 9
    case Enqueuing(_, _) => 8
  }

  /** How many steps the workers and handlers under way can still take, at most. */
  ghost function Measure(s: Sys): nat { Weight(s.workers, TaskWeight) + Weight(s.handlers, HandlerWeight) }

  /** A step of a worker or handler under way, not a new request or outside event. */
  predicate Internal(a: Action) { !a.Env? }

  predicate AllInternal(run: seq<Action>) { forall i | 0 <= i < |run| :: Internal(run[i]) }

  lemma MovesDecrease(p: Phase, podcast: bool, nulled: bool, st: Option<JobState>, q: Phase, st': Option<JobState>)
    requires WorkerSteps.Moves(p, podcast, nulled, st, q, st')
    ensures PhaseWeight(q) < PhaseWeight(p)
  {
  }

  lemma TasksDecrease(s: Sys, t: Sys, w: WorkerId, q: Option<Phase>)
    requires WorkerSteps.Delta(s, t, w, q)
    ensures Weight(t.workers, TaskWeight) < Weight(s.workers, TaskWeight)
  {
    WeightRemove(s.workers, TaskWeight, w);
    if q.Some? {
      var j := s.workers[w].job;
      MovesDecrease(s.workers[w].phase, s.workers[w].podcast, j in s.jobs && s.jobs[j].episode.None?,
                    WorkerSteps.StateOf(s.jobs, j), q.value, WorkerSteps.StateOf(t.jobs, j));
      WeightSet(s.workers, TaskWeight, w, s.workers[w].(phase := q.value));
    }
  }

  lemma WorkDecreases(s: Sys, w: WorkerId, ws: WorkerStep)
    requires CanWork(s, w, ws)
    ensures Measure(Worked(s, w, ws)) < Measure(s)
  {
    var q := WorkerSteps.WorkedDelta(s, w, ws);
    TasksDecrease(s, Worked(s, w, ws), w, q);
  }

  lemma WaitsDecreases(s: Sys, h: HandlerId, next: Handler)
    requires h in s.handlers && HandlerWeight(next) < HandlerWeight(s.handlers[h])
    ensures Measure(Waits(s, h, next)) < Measure(s)
  {
    WeightRemove(s.handlers, HandlerWeight, h);
    WeightSet(s.handlers, HandlerWeight, h, next);
  }

  lemma RespondsDecreases(s: Sys, h: HandlerId, req: Req, o: Outcome)
    requires h in s.handlers
    ensures Measure(Responds(s, h, req, o)) + 8 <= Measure(s)
  {
    WeightRemove(s.handlers, HandlerWeight, h);
  }

  lemma EnqueueDecreases(s: Sys, h: HandlerId, w: WorkerId)
    requires CanHandle(s, h, Enqueue(w))
    ensures Measure(Enqueues(s, h, w)) < Measure(s)
  {
    var j := s.handlers[h].job;
    var k := Worker(j, s.handlers[h].req.kind == Episode, Waiting);
    RespondsDecreases(s, h, s.handlers[h].req, Started(j));
    WeightSet(s.workers, TaskWeight, w, k);
    assert s.workers - {w} == s.workers;
  }

  lemma HandleDecreases(s: Sys, h: HandlerId, hs: HandlerStep)
    requires CanHandle(s, h, hs)
    ensures Measure(Handled(s, h, hs)) < Measure(s)
  {
    var req := s.handlers[h].req;
    match hs
    case CheckDownload => CheckDecreases(s, h);
    case LookUp =>
      WaitsDecreases(s, h, Inserting(req));
      if ActiveFor(s.jobs, req.Key()) != {} {
        RespondsDecreases(s, h, req, Joined(TheActive(s.jobs, req.Key())));
      }
    case TryInsert(id) => InsertDecreases(s, h, id);
    case Reread =>
      RespondsDecreases(s, h, req, Escaped(s.handlers[h].cause));
      if ActiveFor(s.jobs, req.Key()) != {} {
        RespondsDecreases(s, h, req, Joined(TheActive(s.jobs, req.Key())));
      }
    case Enqueue(w) => EnqueueDecreases(s, h, w);
  }

  lemma CheckDecreases(s: Sys, h: HandlerId)
    requires h in s.handlers && s.handlers[h].Arrived?
    ensures Measure(Checks(s, h)) < Measure(s)
  {
    var req := s.handlers[h].req;
    RespondsDecreases(s, h, req, NoEpisode);
    if req.kind == Song && req.Key() in s.downloads {
      RespondsDecreases(s, h, req, WasDone(s.downloads[req.Key()].job));
    }
    WaitsDecreases(s, h, LookingUp(req));
  }

  lemma InsertDecreases(s: Sys, h: HandlerId, id: JobId)
    requires h in s.handlers && s.handlers[h].Inserting?
    ensures Measure(Inserts(s, h, id)) < Measure(s)
  {
    var req := s.handlers[h].req;
    if ActiveFor(s.jobs, req.Key()) != {} {
      WaitsDecreases(s, h, Rejected(req, Blocked(TheActive(s.jobs, req.Key()))));
    } else if Dangling(req.episode, s.gone) {
      WaitsDecreases(s, h, Rejected(req, EpisodeGone(req.episode.value)));
    } else {
      var t := s.(jobs := Insert(s.jobs, id, NewRow(req.user, req.url, req.kind, req.episode)));
      WaitsDecreases(t, h, Enqueuing(req, id));
    }
  }

  /** Every internal step brings the system closer to rest. */
  lemma InternalDecreases(s: Sys, a: Action)
    requires Enabled(s, a) && Internal(a)
    ensures Measure(Apply(s, a)) < Measure(s)
  {
    match a
    case Env(e) =>
    case Handle(h, hs) => HandleDecreases(s, h, hs);
    case Work(w, ws) => WorkDecreases(s, w, ws);
  }

  /** So without new requests no run is longer than the measure. */
  lemma {:induction false} InternalRunsEnd(s: Sys, run: seq<Action>)
    requires Possible(s, run) && AllInternal(run)
    ensures |run| + Measure(After(s, run)) <= Measure(s)
  {
    if run != [] {
      InternalRunsEnd(s, run[..|run| - 1]);
      InternalDecreases(After(s, run[..|run| - 1]), run[|run| - 1]);
    }
  }

  // ----- Progress

  ghost predicate AtRest(s: Sys) { s.workers == map[] && s.handlers == map[] }

  /** The next step of a worker that is not waiting for a slot. */
  function NextWork(p: Phase): WorkerStep {
    match p
    case Waiting => Acquire
    case Loading => Load(0)
    case Looking(_) => LookEpisode(0)
    case EpisodeMissing => FailMissing(0)
    case Fetching => RunnerReturns(None)
    case Fetched(_) => Book(0)
    case Failing(_) => MarkFailed(0)
    case Leaving => Leave
  }

  lemma TaskCanMove(s: Sys, w: WorkerId)
    requires s.up && w in s.workers && (s.workers[w].phase.Waiting? ==> s.free > 0)
    ensures CanWork(s, w, NextWork(s.workers[w].phase))
  {
  }

  lemma HandlerCanMove(s: Sys, h: HandlerId) returns (hs: HandlerStep)
    requires s.up && h in s.handlers
    ensures CanHandle(s, h, hs)
  {
    match s.handlers[h] {
      case Arrived(_) => hs := CheckDownload;
      case LookingUp(_) => hs := LookUp;
      case Inserting(_) =>
        var id := FreshNat(s.jobs.Keys + set w | w in s.workers :: s.workers[w].job);
        assert forall w | w in s.workers :: s.workers[w].job in (set v | v in s.workers :: s.workers[v].job);
        hs := TryInsert(id);
      case Rejected(_, _) => hs := Reread;
      case Enqueuing(_, _) =>
        var w := FreshNat(s.workers.Keys);
        hs := Enqueue(w);
    }
  }

  /** Until the system is at rest some internal step is enabled: no deadlock on the slots. */
  lemma Progress(s: Sys) returns (a: Action)
    requires Inv(s) && s.up && s.slots > 0 && !AtRest(s)
    ensures Enabled(s, a) && Internal(a)
  {
    if s.handlers != map[] {
      var h :| h in s.handlers;
      var hs := HandlerCanMove(s, h);
      a := Handle(h, hs);
    } else if Holding(s.workers) != {} {
      var w :| w in Holding(s.workers);
      TaskCanMove(s, w);
      a := Work(w, NextWork(s.workers[w].phase));
    } else {
      assert s.workers != map[];
      var w :| w in s.workers;
      TaskCanMove(s, w);
      a := Work(w, NextWork(s.workers[w].phase));
    }
  }

  lemma {:induction false} Prepend(s: Sys, a: Action, run: seq<Action>)
    requires Enabled(s, a) && Possible(Apply(s, a), run)
    ensures Possible(s, [a] + run) && After(s, [a] + run) == After(Apply(s, a), run)
  {
    if run == [] {
      assert [a] + run == [a] && [a][..0] == [];
      assert Possible(s, []);
    } else {
      Prepend(s, a, run[..|run| - 1]);
      assert ([a] + run)[..|run|] == [a] + run[..|run| - 1];
    }
  }

  /** At rest all slots are free, nothing is running, and every job an endpoint dispatched is done or
      failed, except an episode job whose episode was deleted. */
  lemma RestIsClean(s: Sys, j: JobId)
    requires Inv(s) && s.up && AtRest(s)
    ensures s.free == s.slots && RunningIds(s.jobs) == {}
    ensures j in s.pledged ==> j in s.jobs && (!s.jobs[j].Active() || Nulled(s, j))
  {
    assert Holding(s.workers) == {};
    assert forall w, i :: !Owns(s, w, i) && !OnItsWay(s, w, i);
  }

  lemma InternalKeepsUp(s: Sys, a: Action)
    requires Enabled(s, a) && Internal(a)
    ensures Apply(s, a).up == s.up && Apply(s, a).slots == s.slots
  {
    match a
    case Env(e) =>
    case Handle(h, hs) => HandlerSteps.HandlingKeepsUp(s, h, hs);
    case Work(w, ws) => var q := WorkerSteps.WorkedDelta(s, w, ws);
  }

  lemma TowardsRest(s: Sys) returns (a: Action)
    requires Inv(s) && s.up && s.slots > 0 && !AtRest(s)
    ensures Enabled(s, a) && Internal(a) && Measure(Apply(s, a)) < Measure(s)
    ensures Inv(Apply(s, a)) && Apply(s, a).up && Apply(s, a).slots > 0
  {
    a := Progress(s);
    InternalDecreases(s, a);
    InternalKeepsUp(s, a);
    StepKeepsInv(s, a);
  }

  lemma TakeStep(s: Sys, a: Action, rest: seq<Action>)
    requires Enabled(s, a) && Internal(a)
    requires Possible(Apply(s, a), rest) && AllInternal(rest) && AtRest(After(Apply(s, a), rest))
    ensures Possible(s, [a] + rest) && AllInternal([a] + rest) && AtRest(After(s, [a] + rest))
  {
    Prepend(s, a, rest);
  }

  /** From any reachable state the system can run to rest on its own. */
  lemma {:induction false} RunsToRest(s: Sys) returns (run: seq<Action>)
    requires Inv(s) && s.up && s.slots > 0
    ensures Possible(s, run) && AllInternal(run)
    ensures AtRest(After(s, run))
    decreases Measure(s)
  {
    if AtRest(s) {
      run := [];
    } else {
      var a := TowardsRest(s);
      var rest := RunsToRest(Apply(s, a));
      TakeStep(s, a, rest);
      run := [a] + rest;
    }
  }

  /** No internal step is left to take. */
  ghost predicate Quiet(s: Sys) { forall a | Internal(a) :: !Enabled(s, a) }

  lemma QuietIsRest(s: Sys)
    requires Inv(s) && s.up && s.slots > 0 && Quiet(s)
    ensures AtRest(s)
  {
    if !AtRest(s) {
      var a := Progress(s);
    }
  }

  lemma {:induction false} InternalRunKeepsUp(s: Sys, run: seq<Action>)
    requires Possible(s, run) && AllInternal(run)
    ensures After(s, run).up == s.up && After(s, run).slots == s.slots
  {
    if run != [] {
      InternalRunKeepsUp(s, run[..|run| - 1]);
      InternalKeepsUp(After(s, run[..|run| - 1]), run[|run| - 1]);
    }
  }

  /** Every pledged job is finished, unless it lost its episode. */
  ghost predicate Settled(s: Sys) { forall j | j in s.pledged :: j in s.jobs && (!s.jobs[j].Active() || Nulled(s, j)) }

  ghost predicate Rested(s: Sys) { AtRest(s) && s.free == s.slots && RunningIds(s.jobs) == {} && Settled(s) }

  lemma RunsKeepInv(s: Sys, run: seq<Action>)
    ensures Inv(s) && Possible(s, run) ==> Inv(After(s, run))
  {
    if Inv(s) && Possible(s, run) {
      RunKeepsInv(s, run);
    }
  }

  lemma QuietSettles(s: Sys)
    ensures Inv(s) && s.up && s.slots > 0 && Quiet(s) ==> Rested(s)
  {
    if Inv(s) && s.up && s.slots > 0 && Quiet(s) {
      QuietIsRest(s);
      RestSettles(s);
    }
  }

  /** If none of its workers and handlers can move, it is at rest with everything settled. */
  ghost predicate SettlesIfQuiet(s: Sys) { Quiet(s) ==> Rested(s) }

  lemma GoodSettles(s: Sys)
    ensures Inv(s) && s.up && s.slots > 0 ==> SettlesIfQuiet(s)
  {
    QuietSettles(s);
  }

  lemma RunSettles(s: Sys, run: seq<Action>)
    requires Possible(s, run) && AllInternal(run)
    ensures Inv(s) && s.up && s.slots > 0 ==> SettlesIfQuiet(After(s, run))
  {
    InternalRunKeepsUp(s, run);
    RunsKeepInv(s, run);
    GoodSettles(After(s, run));
  }

  /** From every reachable state of a process with a slot, however the workers and handlers interleave: a run
      of theirs is no longer than the measure, and one that none of them can extend has ended at rest, with
      all slots free, nothing running and every job an endpoint dispatched finished or without its episode. */
  lemma QuietRunsSettle(slots: nat, before: seq<Action>, run: seq<Action>)
    requires Possible(Init(slots), before) && After(Init(slots), before).up && slots > 0
    requires Possible(After(Init(slots), before), run) && AllInternal(run)
    ensures |run| <= Measure(After(Init(slots), before))
    ensures SettlesIfQuiet(After(After(Init(slots), before), run))
  {
    var s := After(Init(slots), before);
    InternalRunsEnd(s, run);
    ProtocolResults.ReachedIsGood(slots, before);
    ProtocolResults.SlotsFixed(Init(slots), before);
    RunSettles(s, run);
  }

  lemma RestSettles(s: Sys)
    requires Inv(s) && s.up && AtRest(s)
    ensures s.free == s.slots && RunningIds(s.jobs) == {} && Settled(s)
  {
    forall j | j in s.pledged ensures j in s.jobs && (!s.jobs[j].Active() || Nulled(s, j)) {
      RestIsClean(s, j);
    }
    RestIsClean(s, 0);
  }

  /** Once everything has come to rest, job `j` is done or failed, or an episode job without its episode. */
  ghost predicate FinishesIfQuiet(t: Sys, j: JobId) {
    Quiet(t) ==> j in t.jobs && (t.jobs[j].state == Done || t.jobs[j].state == Failed
                                 || (t.jobs[j].kind == Episode && t.jobs[j].episode == None))
  }

  /** So a job that a request answered with "started" does finish, unless the process crashes or the job is
      retried: after any run that is neither, however the workers and handlers then come to rest. */
  lemma StartedJobFinishes(slots: nat, before: seq<Action>, h: HandlerId, w: WorkerId, run: seq<Action>,
                           rest: seq<Action>)
    requires Possible(Init(slots), before) && slots > 0 && CanHandle(After(Init(slots), before), h, Enqueue(w))
    requires var s := After(Init(slots), before); var j := s.handlers[h].job;
             && Possible(Handled(s, h, Enqueue(w)), run) && Env(Retry(j)) !in run && Env(Crash) !in run
             && Possible(After(Handled(s, h, Enqueue(w)), run), rest) && AllInternal(rest)
    ensures var s := After(Init(slots), before);
            FinishesIfQuiet(After(After(Handled(s, h, Enqueue(w)), run), rest), s.handlers[h].job)
  {
    var s := After(Init(slots), before);
    var j := s.handlers[h].job;
    var t := Handled(s, h, Enqueue(w));
    ProtocolOrigins.StartPledges(s, h, w);
    ProtocolOrigins.PledgeStaysAlong(t, run, j);
    StaysUp(slots, before, h, w, run);
    InternalNoOutside(rest, j);
    ProtocolOrigins.PledgeStaysAlong(After(t, run), rest, j);
    RunSettles(After(t, run), rest);
  }

  lemma InternalNoOutside(run: seq<Action>, j: JobId)
    requires AllInternal(run)
    ensures Env(Retry(j)) !in run && Env(Crash) !in run
  {
  }

  lemma UpStep(s: Sys, a: Action)
    requires Enabled(s, a) && s.up && a != Env(Crash)
    ensures Apply(s, a).up && Apply(s, a).slots == s.slots
  {
    if a.Env? {
    } else {
      InternalKeepsUp(s, a);
    }
  }

  lemma {:induction false} UpAlong(s: Sys, run: seq<Action>)
    requires Possible(s, run) && s.up && Env(Crash) !in run
    ensures After(s, run).up && After(s, run).slots == s.slots
  {
    if run != [] {
      var r := run[..|run| - 1];
      assert run == r + [run[|r|]];
      UpAlong(s, r);
      UpStep(After(s, r), run[|r|]);
    }
  }

  lemma StaysUp(slots: nat, before: seq<Action>, h: HandlerId, w: WorkerId, run: seq<Action>)
    requires Possible(Init(slots), before) && CanHandle(After(Init(slots), before), h, Enqueue(w))
    requires Possible(Handled(After(Init(slots), before), h, Enqueue(w)), run) && Env(Crash) !in run
    ensures var u := After(Handled(After(Init(slots), before), h, Enqueue(w)), run);
            Inv(u) && u.up && u.slots == slots
  {
    var s := After(Init(slots), before);
    ProtocolResults.ReachedIsGood(slots, before);
    ProtocolResults.SlotsFixed(Init(slots), before);
    StepKeepsInv(s, Handle(h, Enqueue(w)));
    UpStep(s, Handle(h, Enqueue(w)));
    UpAlong(Handled(s, h, Enqueue(w)), run);
    RunKeepsInv(Handled(s, h, Enqueue(w)), run);
  }
}
