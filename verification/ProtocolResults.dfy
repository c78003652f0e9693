/** What the download protocol guarantees, over all runs from an empty database. */
module ProtocolResults {
  import opened Wrappers
  import opened Jobs
  import opened Protocol
  import opened ProtocolInvariant
  import opened EventSteps
  import HandlerSteps
  import WorkerSteps

  /** The state after a run of a fresh system. */
  ghost function Reached(slots: nat, run: seq<Action>): Sys
    requires Possible(Init(slots), run)
  {
    After(Init(slots), run)
  }

  lemma ReachedIsGood(slots: nat, run: seq<Action>)
    requires Possible(Init(slots), run)
    ensures Inv(Reached(slots, run))
  {
    InitIsGood(slots);
    RunKeepsInv(Init(slots), run);
  }

  // ----- Ownership

  /** While the process is up each running job has exactly one worker past `mark_running`, however
      often `run_job` was dispatched; so its download never runs twice at once. */
  lemma ExclusiveOwnership(slots: nat, run: seq<Action>, j: JobId)
    requires Possible(Init(slots), run)
    ensures var s := Reached(slots, run);
            && (s.up && j in RunningIds(s.jobs) ==> exists w :: Owns(s, w, j))
            && (forall v, w | Owns(s, v, j) && Owns(s, w, j) :: v == w)
            && (forall w | Owns(s, w, j) :: j in RunningIds(s.jobs))
  {
    ReachedIsGood(slots, run);
  }

  /** `mark_done` never raises InvalidStateTransition: a worker that records its download finishes its
      job, unless the downloader produced no file for a song. */
  lemma MarkDoneNeverRaises(slots: nat, run: seq<Action>, w: WorkerId, now: int)
    requires Possible(Init(slots), run) && CanWork(Reached(slots, run), w, Book(now))
    ensures var s := Reached(slots, run);
            var j := s.workers[w].job;
            && CanFinish(s.jobs, j)
            && (Books(s, w, now).jobs[j].state == Done <==> !(Records(s, w) && s.workers[w].phase.path.None?))
  {
    ReachedIsGood(slots, run);
  }

  // ----- Slots

  lemma StepKeepsSlots(s: Sys, a: Action)
    requires Enabled(s, a)
    ensures Apply(s, a).slots == s.slots
  {
    match a
    case Env(e) =>
    case Handle(h, hs) => HandlerSteps.HandlingKeepsUp(s, h, hs);
    case Work(w, ws) => var q := WorkerSteps.WorkedDelta(s, w, ws);
  }

  lemma {:induction false} SlotsFixed(s: Sys, run: seq<Action>)
    requires Possible(s, run)
    ensures After(s, run).slots == s.slots
  {
    if run != [] {
      SlotsFixed(s, run[..|run| - 1]);
      StepKeepsSlots(After(s, run[..|run| - 1]), run[|run| - 1]);
    }
  }

  /** Free slots and workers inside a slot, songs and episodes together, always add up to the pool the process
      started with, on every exit path and across crashes. */
  lemma SlotsAreConserved(slots: nat, run: seq<Action>)
    requires Possible(Init(slots), run)
    ensures Reached(slots, run).free + |Holding(Reached(slots, run).workers)| == slots
  {
    ReachedIsGood(slots, run);
    SlotsFixed(Init(slots), run);
  }

  // ----- Downloads and the synthetic answer

  /** Every download row names a done song job of the same user and URL, and a done song job's key has
      a row exactly when `delete_song` did not take it away. */
  lemma DownloadsMatchJobs(slots: nat, run: seq<Action>)
    requires Possible(Init(slots), run)
    ensures var s := Reached(slots, run);
            && (forall k | k in s.downloads ::
                  KeyOf(s, s.downloads[k].job, k) && s.jobs[s.downloads[k].job].kind == Song
                  && s.jobs[s.downloads[k].job].state == Done)
            && (forall j | j in s.jobs && s.jobs[j].kind == Song && s.jobs[j].state == Done ::
                  s.jobs[j].Key() in s.downloads <==> s.jobs[j].Key() !in s.removed)
  {
    ReachedIsGood(slots, run);
  }

  /** A "done" answer is the true state of the job it names, then and ever after. */
  lemma DoneAnswersStayTrue(slots: nat, run: seq<Action>, i: nat)
    requires Possible(Init(slots), run) && i < |Reached(slots, run).log|
    ensures var s := Reached(slots, run);
            s.log[i].outcome.WasDone? ==>
              var j := s.log[i].outcome.job;
              KeyOf(s, j, s.log[i].req.Key()) && s.jobs[j].kind == Song && s.jobs[j].state == Done
  {
    ReachedIsGood(slots, run);
  }

  // ----- Concurrent creates

  /** The user-scoped lookup never sees two rows. */
  lemma NeverTwoActive(slots: nat, run: seq<Action>, key: DownloadKey)
    requires Possible(Init(slots), run)
    ensures |ActiveFor(Reached(slots, run).jobs, key)| <= 1
  {
    ReachedIsGood(slots, run);
    LookupSeesAtMostOne(Reached(slots, run).jobs, key);
  }

  /** Step `a` is the lookup that gives the deduplicated answer `x`, for the handler's own request, and finds
      the job active. */
  ghost predicate Reads(s: Sys, a: Action, x: Answer) {
    && a.Handle? && a.h in s.handlers && (a.hs.LookUp? || a.hs.Reread?) && s.handlers[a.h].req == x.req
    && x.outcome.Joined? && x.outcome.job in ActiveFor(s.jobs, x.req.Key())
  }

  /** Step `a` leaves the answers as they are or adds one, which it has read if it is deduplicated. */
  ghost predicate AnswersFrom(s: Sys, a: Action, log: seq<Answer>) {
    && s.log <= log && |log| <= |s.log| + 1
    && (|log| > |s.log| && log[|s.log|].outcome.Joined? ==> Reads(s, a, log[|s.log|]))
  }

  lemma AnswersGrow(s: Sys, a: Action)
    requires Enabled(s, a)
    ensures AnswersFrom(s, a, Apply(s, a).log)
  {
    match a
    case Env(e) =>
    case Handle(h, hs) => HandlerAnswers(s, h, hs);
    case Work(w, ws) => var q := WorkerSteps.WorkedDelta(s, w, ws);
  }

  lemma HandlerAnswers(s: Sys, h: HandlerId, hs: HandlerStep)
    requires CanHandle(s, h, hs)
    ensures AnswersFrom(s, Handle(h, hs), Handled(s, h, hs).log)
  {
    match hs
    case LookUp => LookUpAnswers(s, h, hs, LooksUp(s, h));
    case Reread => LookUpAnswers(s, h, hs, Rereads(s, h));
    case CheckDownload =>
    case TryInsert(id) =>
    case Enqueue(w) =>
  }

  lemma LookUpAnswers(s: Sys, h: HandlerId, hs: HandlerStep, t: Sys)
    requires h in s.handlers
    requires (hs.LookUp? && t == LooksUp(s, h)) || (hs.Reread? && s.handlers[h].Rejected? && t == Rereads(s, h))
    ensures AnswersFrom(s, Handle(h, hs), t.log)
  {
    var req := s.handlers[h].req;
    if ActiveFor(s.jobs, req.Key()) != {} {
      assert t.log == s.log + [Answer(req, Joined(TheActive(s.jobs, req.Key())))];
    }
  }

  lemma AnswerAt(s: Sys, a: Action, log: seq<Answer>, i: nat)
    requires AnswersFrom(s, a, log) && i < |log|
    ensures if i < |s.log| then log[i] == s.log[i]
            else log == s.log + [log[i]] && i == |s.log| && (log[i].outcome.Joined? ==> Reads(s, a, log[i]))
  {
  }

  /** Step `k` of the run gives its `i`-th answer `x`, a deduplicated one, and reads its job as active. */
  ghost predicate ReadAt(s: Sys, run: seq<Action>, k: nat, i: nat, x: Answer) {
    && k < |run| && Possible(s, run[..k]) && Possible(s, run[..k + 1])
    && |After(s, run[..k]).log| == i
    && After(s, run[..k + 1]).log == After(s, run[..k]).log + [x]
    && Reads(After(s, run[..k]), run[k], x)
  }

  /** The run has given `x` as its `i`-th answer, which the state it started from did not have. */
  ghost predicate Gave(s: Sys, run: seq<Action>, i: nat, x: Answer) {
    Possible(s, run) && |s.log| <= i < |After(s, run).log| && After(s, run).log[i] == x
  }

  lemma GaveEarlierOrNow(s: Sys, run: seq<Action>, r: seq<Action>, i: nat, x: Answer)
    requires run != [] && Gave(s, run, i, x) && x.outcome.Joined? && r == run[..|run| - 1]
    ensures Gave(s, r, i, x) || ReadAt(s, run, |r|, i, x)
  {
    AnswersGrow(After(s, r), run[|r|]);
    AnswerAt(After(s, r), run[|r|], After(s, run).log, i);
    assert run[..|r|] == r && run[..|r| + 1] == run;
  }

  lemma SameStep(s: Sys, run: seq<Action>, r: seq<Action>, k: nat, i: nat, x: Answer)
    requires run != [] && r == run[..|run| - 1] && ReadAt(s, r, k, i, x)
    ensures ReadAt(s, run, k, i, x)
  {
    assert r[..k] == run[..k] && r[..k + 1] == run[..k + 1];
  }

  lemma {:induction false} AnswerHasStep(s: Sys, run: seq<Action>, i: nat, x: Answer) returns (k: nat)
    requires Gave(s, run, i, x) && x.outcome.Joined?
    ensures ReadAt(s, run, k, i, x)
  {
    assert run != [];
    var r := run[..|run| - 1];
    GaveEarlierOrNow(s, run, r, i, x);
    if Gave(s, r, i, x) {
      k := AnswerHasStep(s, r, i, x);
      SameStep(s, run, r, k, i, x);
    } else {
      k := |r|;
    }
  }

  /** Every deduplicated answer of a run names a job that was active for the request's key at the step that
      gave the answer. */
  lemma JoinedWasActive(slots: nat, run: seq<Action>, i: nat) returns (k: nat)
    requires Possible(Init(slots), run) && i < |Reached(slots, run).log| && Reached(slots, run).log[i].outcome.Joined?
    ensures ReadAt(Init(slots), run, k, i, Reached(slots, run).log[i])
  {
    k := AnswerHasStep(Init(slots), run, i, Reached(slots, run).log[i]);
  }

  /** Rows are never deleted and keep their user and URL. */
  lemma RowsPersist(s: Sys, a: Action, j: JobId, key: DownloadKey)
    requires Enabled(s, a) && KeyOf(s, j, key)
    ensures KeyOf(Apply(s, a), j, key)
    ensures s.jobs[j].state == Done ==> Apply(s, a).jobs[j].state == Done
  {
    match a
    case Env(e) => EventRowsPersist(s, e, j, key);
    case Handle(h, hs) => HandleRowsPersist(s, h, hs, j, key);
    case Work(w, ws) => WorkRowsPersist(s, w, ws, j, key);
  }

  lemma EventRowsPersist(s: Sys, e: Event, j: JobId, key: DownloadKey)
    requires CanOccur(s, e) && KeyOf(s, j, key)
    ensures KeyOf(Occurred(s, e), j, key)
    ensures s.jobs[j].state == Done ==> Occurred(s, e).jobs[j].state == Done
  {
  }

  lemma HandleRowsPersist(s: Sys, h: HandlerId, hs: HandlerStep, j: JobId, key: DownloadKey)
    requires CanHandle(s, h, hs) && KeyOf(s, j, key)
    ensures KeyOf(Handled(s, h, hs), j, key) && Handled(s, h, hs).jobs[j] == s.jobs[j]
  {
  }

  lemma WorkRowsPersist(s: Sys, w: WorkerId, ws: WorkerStep, j: JobId, key: DownloadKey)
    requires CanWork(s, w, ws) && KeyOf(s, j, key)
    ensures KeyOf(Worked(s, w, ws), j, key)
    ensures s.jobs[j].state == Done ==> Worked(s, w, ws).jobs[j].state == Done
  {
    var q := WorkerSteps.WorkedDelta(s, w, ws);
  }

  lemma {:induction false} RowsPersistAlong(s: Sys, run: seq<Action>, j: JobId, key: DownloadKey)
    requires Possible(s, run) && KeyOf(s, j, key)
    ensures KeyOf(After(s, run), j, key)
  {
    if run != [] {
      RowsPersistAlong(s, run[..|run| - 1], j, key);
      RowsPersist(After(s, run[..|run| - 1]), run[|run| - 1], j, key);
    }
  }

  /** Step `a` inserts job `j` for `key`: the create that answers deduped=False. */
  ghost predicate InsertsJob(s: Sys, a: Action, j: JobId, key: DownloadKey)
    requires Enabled(s, a)
  {
    a.Handle? && a.hs == TryInsert(j) && j !in s.jobs && KeyOf(Apply(s, a), j, key)
  }

  lemma InsertMeansNoneActive(s: Sys, a: Action, j: JobId, key: DownloadKey)
    requires Enabled(s, a) && InsertsJob(s, a, j, key)
    ensures ActiveFor(s.jobs, key) == {}
  {
  }

  /** At most one create per active period inserts: however much happens in between, by the time a second
      row is inserted for a key the first one has finished. */
  lemma OneInsertPerPeriod(s: Sys, a: Action, j: JobId, run: seq<Action>, b: Action, j': JobId, key: DownloadKey)
    requires Enabled(s, a) && InsertsJob(s, a, j, key)
    requires Possible(Apply(s, a), run) && Enabled(After(Apply(s, a), run), b)
    requires InsertsJob(After(Apply(s, a), run), b, j', key)
    ensures var t := After(Apply(s, a), run); j != j' && KeyOf(t, j, key) && !t.jobs[j].Active()
  {
    var t := After(Apply(s, a), run);
    RowsPersistAlong(Apply(s, a), run, j, key);
    InsertMeansNoneActive(t, b, j', key);
    assert j !in ActiveFor(t.jobs, key);
  }

  /** What turns an insert away in state `s`. */
  ghost predicate TurnsAway(s: Sys, req: Req, cause: Cause) {
    match cause
    case Blocked(b) => b in ActiveFor(s.jobs, req.Key())
    case EpisodeGone(ep) => ActiveFor(s.jobs, req.Key()) == {} && req.episode == Some(ep) && ep in s.gone
  }

  ghost predicate IsRejected(s: Sys, h: HandlerId, req: Req, cause: Cause) {
    h in s.handlers && s.handlers[h] == Rejected(req, cause)
  }

  /** An insert is turned away exactly when some job is active for its key or its episode is gone, and the
      cause is the episode exactly when no job is active. */
  lemma InsertRejectedIff(s: Sys, h: HandlerId, id: JobId)
    requires CanHandle(s, h, TryInsert(id))
    ensures var req, t := s.handlers[h].req, Handled(s, h, TryInsert(id));
            && (t.handlers[h].Rejected? <==> ActiveFor(s.jobs, req.Key()) != {} || Dangling(req.episode, s.gone))
            && (forall ep :: IsRejected(t, h, req, EpisodeGone(ep)) <==> TurnsAway(s, req, EpisodeGone(ep)))
            && (t.handlers[h].Rejected? ==> t.jobs == s.jobs && TurnsAway(s, req, t.handlers[h].cause))
  {
  }

  /** Step `a` is the insert of `h` for request `req`, and it is turned away for that cause. */
  ghost predicate TurnsAwayStep(s: Sys, a: Action, h: HandlerId, req: Req, cause: Cause) {
    && a.Handle? && a.h == h && a.hs.TryInsert? && h in s.handlers && s.handlers[h] == Inserting(req)
    && TurnsAway(s, req, cause)
  }

  lemma RejectionHasStep(s: Sys, a: Action, h: HandlerId, req: Req, cause: Cause)
    requires Enabled(s, a) && IsRejected(Apply(s, a), h, req, cause)
    ensures IsRejected(s, h, req, cause) || TurnsAwayStep(s, a, h, req, cause)
  {
    match a
    case Env(e) =>
    case Handle(g, hs) => HandledRejection(s, g, hs, h, req, cause);
    case Work(w, ws) => WorkLeavesHandlers(s, w, ws);
  }

  lemma HandledRejection(s: Sys, g: HandlerId, hs: HandlerStep, h: HandlerId, req: Req, cause: Cause)
    requires CanHandle(s, g, hs) && IsRejected(Handled(s, g, hs), h, req, cause)
    ensures IsRejected(s, h, req, cause) || TurnsAwayStep(s, Handle(g, hs), h, req, cause)
  {
    if hs.TryInsert? && g == h {
      InsertRejectedIff(s, h, hs.id);
    }
  }

  lemma WorkLeavesHandlers(s: Sys, w: WorkerId, ws: WorkerStep)
    requires CanWork(s, w, ws)
    ensures Worked(s, w, ws).handlers == s.handlers
  {
    var q := WorkerSteps.WorkedDelta(s, w, ws);
  }

  /** Step `i` of the run turns the request of handler `h` away, and the handler has stood there since. */
  ghost predicate TurnedAwayAt(s: Sys, run: seq<Action>, i: nat, h: HandlerId, req: Req, cause: Cause)
    requires i < |run| && Possible(s, run[..i])
  {
    && TurnsAwayStep(After(s, run[..i]), run[i], h, req, cause)
    && forall m | i < m <= |run| :: StandsRejected(s, run[..m], h, req, cause)
  }

  ghost predicate StandsRejected(s: Sys, run: seq<Action>, h: HandlerId, req: Req, cause: Cause) {
    Possible(s, run) && IsRejected(After(s, run), h, req, cause)
  }

  lemma {:induction false} RejectionHasCause(s: Sys, run: seq<Action>, h: HandlerId, req: Req, cause: Cause)
    returns (i: nat)
    requires s.handlers == map[] && Possible(s, run) && IsRejected(After(s, run), h, req, cause)
    ensures i < |run| && Possible(s, run[..i]) && TurnedAwayAt(s, run, i, h, req, cause)
  {
    assert run != [];
    var r, a := run[..|run| - 1], run[|run| - 1];
    assert run[..|run|] == run;
    RejectionHasStep(After(s, r), a, h, req, cause);
    if IsRejected(After(s, r), h, req, cause) {
      i := RejectionHasCause(s, r, h, req, cause);
      StillRejected(s, run, r, i, h, req, cause);
    } else {
      i := |run| - 1;
    }
  }

  lemma StillRejected(s: Sys, run: seq<Action>, r: seq<Action>, i: nat, h: HandlerId, req: Req, cause: Cause)
    requires run != [] && r == run[..|run| - 1] && i < |r| && Possible(s, r[..i])
    requires TurnedAwayAt(s, r, i, h, req, cause) && StandsRejected(s, run, h, req, cause)
    ensures Possible(s, run[..i]) && TurnedAwayAt(s, run, i, h, req, cause)
  {
    assert r[..i] == run[..i];
    forall m | i < m <= |run| ensures StandsRejected(s, run[..m], h, req, cause) {
      assert run[..m] == if m < |run| then r[..m] else run;
    }
  }

  /** At the second lookup the error escapes exactly when no job is active for the key. Its cause is what
      turned this request's insert away at an earlier step: a job active then, which is no longer when the error
      escapes, or a deleted episode with no job active, which the same handler also catches. */
  lemma EscapeOnlyIfLeft(slots: nat, run: seq<Action>, h: HandlerId) returns (i: nat)
    requires Possible(Init(slots), run) && CanHandle(Reached(slots, run), h, Reread)
    ensures var s := Reached(slots, run); var req, cause := s.handlers[h].req, s.handlers[h].cause;
            && (Handled(s, h, Reread).log == s.log + [Answer(req, Escaped(cause))]
                <==> ActiveFor(s.jobs, req.Key()) == {})
            && i < |run| && Possible(Init(slots), run[..i]) && TurnedAwayAt(Init(slots), run, i, h, req, cause)
            && (ActiveFor(s.jobs, req.Key()) == {} && cause.Blocked? ==>
                  cause.job in s.jobs && !s.jobs[cause.job].Active())
            && (forall j | j in ActiveFor(s.jobs, req.Key()) ::
                  Handled(s, h, Reread).log == s.log + [Answer(req, Joined(j))])
  {
    var s := Reached(slots, run);
    ReachedIsGood(slots, run);
    i := RejectionHasCause(Init(slots), run, h, s.handlers[h].req, s.handlers[h].cause);
    RereadAnswers(s, h);
  }

  lemma RereadAnswers(s: Sys, h: HandlerId)
    requires CanHandle(s, h, Reread) && AnswersTrue(s)
    ensures var req, cause := s.handlers[h].req, s.handlers[h].cause;
            && (Rereads(s, h).log == s.log + [Answer(req, Escaped(cause))] <==> ActiveFor(s.jobs, req.Key()) == {})
            && (ActiveFor(s.jobs, req.Key()) == {} && cause.Blocked? ==>
                  cause.job in s.jobs && !s.jobs[cause.job].Active())
            && (UniqueActive(s.jobs) ==> forall j | j in ActiveFor(s.jobs, req.Key()) ::
                  Rereads(s, h).log == s.log + [Answer(req, Joined(j))])
  {
    var req, cause := s.handlers[h].req, s.handlers[h].cause;
    if ActiveFor(s.jobs, req.Key()) == {} && cause.Blocked? {
      assert cause.job !in ActiveFor(s.jobs, req.Key());
    } else if ActiveFor(s.jobs, req.Key()) != {} {
      assert Rereads(s, h).log[|s.log|].outcome.Joined?;
    }
  }

  lemma Extend(s: Sys, run: seq<Action>, a: Action) returns (longer: seq<Action>)
    requires Possible(s, run) && Enabled(After(s, run), a)
    ensures longer == run + [a] && Possible(s, longer) && After(s, longer) == Apply(After(s, run), a)
  {
    longer := run + [a];
    assert longer[..|longer| - 1] == run;
  }

  /** A request for episode 5 has looked and found no active job. */
  function AtInsert(gone: set<EpisodeId>): Sys {
    var req := Req(1, "u", Episode, Some(5));
    Init(1).(handlers := map[0 := Inserting(req)], gone := gone)
  }

  lemma ReachInsert() returns (run: seq<Action>)
    ensures Possible(Init(1), run) && Reached(1, run) == AtInsert({})
  {
    var req := Req(1, "u", Episode, Some(5));
    run := Extend(Init(1), [], Env(Request(0, req)));
    run := Extend(Init(1), run, Handle(0, CheckDownload));
    run := Extend(Init(1), run, Handle(0, LookUp));
    assert After(Init(1), run).handlers == map[0 := Inserting(req)];
  }

  lemma GoneEpisodeTurnsAway()
    ensures CanHandle(AtInsert({5}), 0, TryInsert(9))
    ensures CanHandle(Handled(AtInsert({5}), 0, TryInsert(9)), 0, Reread)
    ensures Handled(Handled(AtInsert({5}), 0, TryInsert(9)), 0, Reread).log
            == [Answer(Req(1, "u", Episode, Some(5)), Escaped(EpisodeGone(5)))]
  {
  }

  /** A reachable run in which it does: the episode goes between the lookup and the insert. */
  lemma GoneEpisodeEscapes() returns (run: seq<Action>)
    ensures Possible(Init(1), run)
    ensures Reached(1, run).log == [Answer(Req(1, "u", Episode, Some(5)), Escaped(EpisodeGone(5)))]
  {
    run := ReachInsert();
    run := Extend(Init(1), run, Env(DeleteEpisode(5)));
    assert DropEpisode(map[], 5) == map[];
    assert Reached(1, run) == AtInsert({5});
    GoneEpisodeTurnsAway();
    run := Extend(Init(1), run, Handle(0, TryInsert(9)));
    run := Extend(Init(1), run, Handle(0, Reread));
  }

  // ----- Attempts and row shape

  /** The downloader starts at most once per attempt, and rows carry exactly the fields of their state. */
  lemma AttemptsAndShape(slots: nat, run: seq<Action>, j: JobId)
    requires Possible(Init(slots), run) && j in Reached(slots, run).jobs
    ensures var s := Reached(slots, run);
            && Runs(s, j) <= s.jobs[j].attempts + (if s.jobs[j].state == Queued then 0 else 1)
            && RowShape(s.jobs[j])
  {
    ReachedIsGood(slots, run);
  }

  // ----- Crash and boot

  /** A crash at any point followed by boot keeps the invariant, fails exactly the running jobs, reports
      their number, and finds nothing more to do the next time. */
  lemma CrashThenBoot(slots: nat, run: seq<Action>, now: int, later: int)
    requires Possible(Init(slots), run)
    ensures var s := Reached(slots, run);
            var t := Booted(Crashed(s), now);
            && Inv(t) && t.free == t.slots && RunningIds(t.jobs) == {} && t.jobs.Keys == s.jobs.Keys
            && t.recovered == |RunningIds(s.jobs)|
            && (forall j | j in s.jobs && s.jobs[j].state != Running :: t.jobs[j] == s.jobs[j])
            && (forall j | j in RunningIds(s.jobs) :: t.jobs[j].state == Failed && t.jobs[j].error == Some(ORPHANED))
            && Booted(Crashed(t), later).recovered == 0 && Booted(Crashed(t), later).jobs == t.jobs
  {
    var s := Reached(slots, run);
    RecoverFacts(s.jobs, now, later);
    BootedIsGood(slots, run, now);
  }

  lemma BootedIsGood(slots: nat, run: seq<Action>, now: int)
    requires Possible(Init(slots), run)
    ensures Inv(Booted(Crashed(Reached(slots, run)), now))
  {
    ReachedIsGood(slots, run);
    CrashKeepsInv(Reached(slots, run));
    BootKeepsInv(Crashed(Reached(slots, run)), now);
  }

  /** Run alone from arrival to answer, request `req` inserts job `id` and says so. */
  ghost predicate CreatesAlone(t: Sys, h: HandlerId, req: Req, id: JobId, w: WorkerId) {
    && CanOccur(t, Request(h, req))
    && var arrived := Waits(t, h, Arrived(req));
    && CanHandle(arrived, h, CheckDownload)
    && var checked := Checks(arrived, h);
    && CanHandle(checked, h, LookUp)
    && var lookedUp := LooksUp(checked, h);
    && CanHandle(lookedUp, h, TryInsert(id))
    && var inserted := Inserts(lookedUp, h, id);
    && CanHandle(inserted, h, Enqueue(w))
    && Enqueues(inserted, h, w).log == t.log + [Answer(req, Started(id))]
  }

  /** A request for a key with no active job, taken alone from arrival to answer, inserts a new job. */
  lemma CreateAlone(t: Sys, h: HandlerId, req: Req, id: JobId, w: WorkerId)
    requires t.up && t.workers == map[] && t.handlers == map[]
    requires ActiveFor(t.jobs, req.Key()) == {} && id !in t.jobs && req.WellFormed()
    requires req.kind == Song ==> req.Key() !in t.downloads
    requires !Dangling(req.episode, t.gone)
    ensures CreatesAlone(t, h, req, id, w)
  {
    var arrived := Waits(t, h, Arrived(req));
    assert Checks(arrived, h) == Waits(arrived, h, LookingUp(req));
    var checked := Waits(arrived, h, LookingUp(req));
    assert LooksUp(checked, h) == Waits(checked, h, Inserting(req));
    InsertAlone(Waits(checked, h, Inserting(req)), h, req, id, w);
  }

  lemma InsertAlone(s: Sys, h: HandlerId, req: Req, id: JobId, w: WorkerId)
    requires s.up && s.workers == map[] && h in s.handlers && s.handlers[h] == Inserting(req)
    requires ActiveFor(s.jobs, req.Key()) == {} && id !in s.jobs
    requires !Dangling(req.episode, s.gone)
    ensures CanHandle(s, h, TryInsert(id))
    ensures CanHandle(Inserts(s, h, id), h, Enqueue(w))
    ensures Enqueues(Inserts(s, h, id), h, w).log == s.log + [Answer(req, Started(id))]
  {
  }

  lemma FreedKey(s: Sys, now: int, key: DownloadKey)
    ensures ActiveFor(Recover(s.jobs, now), key)
            == set j | j in s.jobs && s.jobs[j].state == Queued && s.jobs[j].Key() == key
  {
  }

  lemma NoneQueued(s: Sys, j: JobId, key: DownloadKey)
    requires UniqueActive(s.jobs) && j in RunningIds(s.jobs) && s.jobs[j].Key() == key
    ensures forall i | i in s.jobs && s.jobs[i].Key() == key :: s.jobs[i].state != Queued
  {
  }

  /** A job of that key was queued. */
  ghost predicate HasQueued(s: Sys, key: DownloadKey) {
    exists j :: j in s.jobs && s.jobs[j].state == Queued && s.jobs[j].Key() == key
  }

  /** After crash and boot a request inserts a new job exactly when no job of its key was queued at the crash,
      nor, for a song, is it downloaded already, nor, for an episode, is that gone. */
  lemma KeyFreedIff(slots: nat, run: seq<Action>, now: int, req: Req, h: HandlerId, id: JobId, w: WorkerId)
    requires Possible(Init(slots), run) && req.WellFormed() && id !in Reached(slots, run).jobs
    ensures var s := Reached(slots, run);
            CreatesAlone(Booted(Crashed(s), now), h, req, id, w)
            <==> !HasQueued(s, req.Key()) && (req.kind == Song ==> req.Key() !in s.downloads)
                 && !Dangling(req.episode, s.gone)
  {
    var s := Reached(slots, run);
    var t := Booted(Crashed(s), now);
    FreedKey(s, now, req.Key());
    if HasQueued(s, req.Key()) {
      var j :| j in s.jobs && s.jobs[j].state == Queued && s.jobs[j].Key() == req.Key();
      assert j in ActiveFor(t.jobs, req.Key());
    }
    if ActiveFor(t.jobs, req.Key()) == {} && (req.kind == Song ==> req.Key() !in s.downloads)
       && !Dangling(req.episode, s.gone)
    {
      CreateAlone(t, h, req, id, w);
    } else if CreatesAlone(t, h, req, id, w) {
      CreatesNeeds(t, h, req, id, w);
    }
  }

  lemma CreatesNeeds(t: Sys, h: HandlerId, req: Req, id: JobId, w: WorkerId)
    requires CreatesAlone(t, h, req, id, w)
    ensures ActiveFor(t.jobs, req.Key()) == {} && (req.kind == Song ==> req.Key() !in t.downloads)
    ensures !Dangling(req.episode, t.gone)
  {
  }

  /** In particular the key a crashed download held can be requested again. */
  lemma FreedKeyCanBeCreated(slots: nat, run: seq<Action>, now: int, j: JobId, req: Req, h: HandlerId, id: JobId,
                             w: WorkerId)
    requires Possible(Init(slots), run) && j in RunningIds(Reached(slots, run).jobs)
    requires req.WellFormed() && req.Key() == Reached(slots, run).jobs[j].Key() && id !in Reached(slots, run).jobs
    requires req.kind == Song ==> req.Key() !in Reached(slots, run).downloads
    requires !Dangling(req.episode, Reached(slots, run).gone)
    ensures CreatesAlone(Booted(Crashed(Reached(slots, run)), now), h, req, id, w)
  {
    ReachedIsGood(slots, run);
    NoneQueued(Reached(slots, run), j, req.Key());
    KeyFreedIff(slots, run, now, req, h, id, w);
  }
}
