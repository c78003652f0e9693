/** The steps of request handlers keep the invariant. */
module HandlerSteps {
  import opened Jobs
  import opened Protocol
  import opened ProtocolInvariant

  /** Only handlers and answers differ. */
  ghost predicate FrontOnly(s: Sys, t: Sys) {
    && t.jobs == s.jobs && t.downloads == s.downloads && t.removed == s.removed && t.gone == s.gone
    && t.slots == s.slots && t.free == s.free && t.workers == s.workers && t.pledged == s.pledged
    && t.enqueued == s.enqueued && t.runs == s.runs && t.recovered == s.recovered && t.up == s.up
  }

  lemma OwnershipFrame(s: Sys, t: Sys)
    requires Ownership(s) && t.workers == s.workers && t.jobs == s.jobs && t.up == s.up
    ensures Ownership(t)
  {
    forall v, w, j | Owns(t, v, j) && Owns(t, w, j) ensures v == w {
      assert Owns(s, v, j) && Owns(s, w, j);
    }
    if t.up {
      forall j | j in t.jobs && t.jobs[j].state == Running ensures exists w :: Owns(t, w, j) {
        var w :| Owns(s, w, j);
        assert Owns(t, w, j);
      }
    }
  }

  lemma PledgesFrame(s: Sys, t: Sys)
    requires PledgesKept(s) && t.workers == s.workers && t.jobs == s.jobs && t.pledged == s.pledged
    ensures PledgesKept(t)
  {
    forall j | j in t.pledged && t.jobs[j].state == Queued && !Nulled(t, j) ensures exists w :: OnItsWay(t, w, j) {
      var w :| OnItsWay(s, w, j);
      assert OnItsWay(t, w, j);
    }
  }

  lemma CountsFrame(s: Sys, t: Sys)
    requires FrontOnly(s, t) && SlotsConserved(s) && DownloadsAgree(s) && RunsBounded(s) && Dispatchable(s)
    ensures SlotsConserved(t) && DownloadsAgree(t) && RunsBounded(t) && Dispatchable(t)
  {
  }

  lemma TasksFrame(s: Sys, t: Sys)
    requires FrontOnly(s, t) && EpisodeTasks(s)
    ensures EpisodeTasks(t)
  {
  }

  lemma FrontKeeps(s: Sys, t: Sys)
    requires FrontOnly(s, t) && BackGood(s)
    ensures BackGood(t)
  {
    CountsFrame(s, t);
    TasksFrame(s, t);
    OwnershipFrame(s, t);
    PledgesFrame(s, t);
  }

  // ----- A handler moves on

  ghost predicate MayWait(s: Sys, next: Handler) {
    && next.req.WellFormed() && !next.Enqueuing?
    && (next.Rejected? ==>
          match next.cause
          case Blocked(j) => KeyOf(s, j, next.req.Key())
          case EpisodeGone(ep) => ep in s.gone)
  }

  lemma WaitsAnswers(s: Sys, h: HandlerId, next: Handler)
    requires AnswersTrue(s) && MayWait(s, next)
    ensures AnswersTrue(Waits(s, h, next))
  {
  }

  lemma WaitsReady(s: Sys, h: HandlerId, next: Handler)
    requires EnqueueReady(s) && StartedOnce(s) && EpisodeRows(s) && MayWait(s, next)
    ensures EnqueueReady(Waits(s, h, next)) && StartedOnce(Waits(s, h, next)) && EpisodeRows(Waits(s, h, next))
  {
  }

  lemma WaitsFront(s: Sys, h: HandlerId, next: Handler)
    requires FrontGood(s) && MayWait(s, next)
    ensures FrontGood(Waits(s, h, next))
  {
    WaitsAnswers(s, h, next);
    WaitsReady(s, h, next);
  }

  lemma WaitsBack(s: Sys, h: HandlerId, next: Handler)
    requires BackGood(s)
    ensures BackGood(Waits(s, h, next))
  {
    var t := Waits(s, h, next);
    assert FrontOnly(s, t);
    FrontKeeps(s, t);
  }

  lemma WaitsKeeps(s: Sys, h: HandlerId, next: Handler)
    requires Inv(s) && s.up && MayWait(s, next)
    ensures Inv(Waits(s, h, next))
  {
    WaitsBack(s, h, next);
    WaitsFront(s, h, next);
  }

  // ----- A handler answers

  ghost predicate MayAnswer(s: Sys, h: HandlerId, req: Req, o: Outcome) {
    && !o.Started?
    && match o
       case WasDone(j) => KeyOf(s, j, req.Key()) && s.jobs[j].kind == Song && s.jobs[j].state == Done
       case Joined(j) => KeyOf(s, j, req.Key())
       case Escaped(Blocked(j)) => KeyOf(s, j, req.Key())
       case Escaped(EpisodeGone(ep)) => ep in s.gone
       case _ => true
  }

  lemma AnswerAnswers(s: Sys, h: HandlerId, req: Req, o: Outcome)
    requires AnswersTrue(s) && MayAnswer(s, h, req, o)
    ensures AnswersTrue(Responds(s, h, req, o))
  {
  }

  lemma AnswerReady(s: Sys, h: HandlerId, req: Req, o: Outcome)
    requires EnqueueReady(s) && StartedOnce(s) && EpisodeRows(s) && MayAnswer(s, h, req, o)
    ensures var t := Responds(s, h, req, o); EnqueueReady(t) && StartedOnce(t) && EpisodeRows(t)
  {
  }

  lemma AnswerKeeps(s: Sys, h: HandlerId, req: Req, o: Outcome)
    requires Inv(s) && s.up && MayAnswer(s, h, req, o)
    ensures Inv(Responds(s, h, req, o))
  {
    var t := Responds(s, h, req, o);
    FrontKeeps(s, t);
    AnswerAnswers(s, h, req, o);
    AnswerReady(s, h, req, o);
  }

  // ----- A row is inserted

  function Added(s: Sys, req: Req, id: JobId): Sys {
    s.(jobs := Insert(s.jobs, id, NewRow(req.user, req.url, req.kind, req.episode)))
  }

  ghost predicate Fresh(s: Sys, id: JobId) { id !in s.jobs && forall w | w in s.workers :: s.workers[w].job != id }

  lemma AddedTasks(s: Sys, req: Req, id: JobId)
    requires Ownership(s) && EpisodeTasks(s) && SlotsConserved(s) && Fresh(s, id)
    ensures var t := Added(s, req, id); Ownership(t) && EpisodeTasks(t) && SlotsConserved(t)
  {
    var t := Added(s, req, id);
    forall v, w, j | Owns(t, v, j) && Owns(t, w, j) ensures v == w {
      assert Owns(s, v, j) && Owns(s, w, j);
    }
    if t.up {
      forall j | j in t.jobs && t.jobs[j].state == Running ensures exists w :: Owns(t, w, j) {
        var w :| Owns(s, w, j);
        assert Owns(t, w, j);
      }
    }
  }

  lemma AddedPledges(s: Sys, req: Req, id: JobId)
    requires PledgesKept(s) && Fresh(s, id)
    ensures PledgesKept(Added(s, req, id))
  {
    var t := Added(s, req, id);
    forall j | j in t.pledged && t.jobs[j].state == Queued && !Nulled(t, j) ensures exists w :: OnItsWay(t, w, j) {
      var w :| OnItsWay(s, w, j);
      assert OnItsWay(t, w, j);
    }
  }

  lemma AddedRows(s: Sys, req: Req, id: JobId)
    requires DownloadsAgree(s) && RunsBounded(s) && Dispatchable(s) && Fresh(s, id)
    ensures var t := Added(s, req, id); DownloadsAgree(t) && RunsBounded(t) && Dispatchable(t)
  {
  }

  /** The handler now knows its fresh job. */
  lemma AddedFront(s: Sys, h: HandlerId, req: Req, id: JobId)
    requires EnqueueReady(s) && AnswersTrue(s) && EpisodeRows(s) && Fresh(s, id)
    requires req.WellFormed() && !Dangling(req.episode, s.gone)
    ensures var t := Waits(Added(s, req, id), h, Enqueuing(req, id));
            EnqueueReady(t) && AnswersTrue(t) && EpisodeRows(t)
  {
  }

  lemma AddedStarted(s: Sys, h: HandlerId, req: Req, id: JobId)
    requires StartedOnce(s) && AnswersTrue(s) && Fresh(s, id)
    ensures StartedOnce(Waits(Added(s, req, id), h, Enqueuing(req, id)))
  {
    forall i | 0 <= i < |s.log| && s.log[i].outcome.Started? ensures s.log[i].outcome.job in s.jobs {
      assert KeyOf(s, s.log[i].outcome.job, s.log[i].req.Key());
    }
  }

  lemma InsertKeepsInv(s: Sys, h: HandlerId, req: Req, id: JobId)
    requires Inv(s) && s.up && Fresh(s, id) && ActiveFor(s.jobs, req.Key()) == {}
    requires req.WellFormed() && !Dangling(req.episode, s.gone)
    ensures Inv(Waits(Added(s, req, id), h, Enqueuing(req, id)))
  {
    var m := Added(s, req, id);
    var t := Waits(m, h, Enqueuing(req, id));
    InsertKeeps(s.jobs, id, NewRow(req.user, req.url, req.kind, req.episode));
    AddedTasks(s, req, id);
    AddedPledges(s, req, id);
    AddedRows(s, req, id);
    AddedFront(s, h, req, id);
    AddedStarted(s, h, req, id);
    FrontKeeps(m, t);
  }

  // ----- The job is scheduled

  lemma EnqueueSlots(s: Sys, h: HandlerId, w: WorkerId)
    requires SlotsConserved(s) && CanHandle(s, h, Enqueue(w))
    ensures SlotsConserved(Enqueues(s, h, w))
  {
    assert Holding(Enqueues(s, h, w).workers) == Holding(s.workers);
  }

  lemma EnqueueOwnership(s: Sys, h: HandlerId, w: WorkerId)
    requires Ownership(s) && CanHandle(s, h, Enqueue(w))
    ensures Ownership(Enqueues(s, h, w))
  {
    var t := Enqueues(s, h, w);
    forall v, u, j | Owns(t, v, j) && Owns(t, u, j) ensures v == u {
      assert Owns(s, v, j) && Owns(s, u, j);
    }
    forall j | j in t.jobs && t.jobs[j].state == Running ensures exists v :: Owns(t, v, j) {
      var v :| Owns(s, v, j);
      assert Owns(t, v, j);
    }
  }

  lemma EnqueueTasks(s: Sys, h: HandlerId, w: WorkerId)
    requires EpisodeTasks(s) && EnqueueReady(s) && CanHandle(s, h, Enqueue(w))
    ensures EpisodeTasks(Enqueues(s, h, w))
  {
  }

  lemma EnqueueDispatchable(s: Sys, h: HandlerId, w: WorkerId)
    requires Dispatchable(s) && EnqueueReady(s) && CanHandle(s, h, Enqueue(w))
    ensures Dispatchable(Enqueues(s, h, w))
  {
  }

  lemma EnqueuePledges(s: Sys, h: HandlerId, w: WorkerId)
    requires PledgesKept(s) && EnqueueReady(s) && CanHandle(s, h, Enqueue(w))
    ensures PledgesKept(Enqueues(s, h, w))
  {
    var t := Enqueues(s, h, w);
    forall j | j in t.pledged
      ensures j in t.jobs && (t.jobs[j].state == Queued ==> Nulled(t, j) || exists v :: OnItsWay(t, v, j))
    {
      if j == s.handlers[h].job {
        assert OnItsWay(t, w, j);
      } else if t.jobs[j].state == Queued && !Nulled(t, j) {
        var v :| OnItsWay(s, v, j);
        assert OnItsWay(t, v, j);
      }
    }
  }

  lemma EnqueueFront(s: Sys, h: HandlerId, w: WorkerId)
    requires EnqueueReady(s) && AnswersTrue(s) && CanHandle(s, h, Enqueue(w))
    ensures EnqueueReady(Enqueues(s, h, w)) && AnswersTrue(Enqueues(s, h, w))
  {
  }

  lemma EnqueueStarted(s: Sys, h: HandlerId, w: WorkerId)
    requires EnqueueReady(s) && StartedOnce(s) && CanHandle(s, h, Enqueue(w))
    ensures StartedOnce(Enqueues(s, h, w))
  {
  }

  lemma EnqueueKeepsInv(s: Sys, h: HandlerId, w: WorkerId)
    requires Inv(s) && CanHandle(s, h, Enqueue(w))
    ensures Inv(Enqueues(s, h, w))
  {
    EnqueueSlots(s, h, w);
    EnqueueOwnership(s, h, w);
    EnqueueTasks(s, h, w);
    EnqueueDispatchable(s, h, w);
    EnqueuePledges(s, h, w);
    EnqueueFront(s, h, w);
    EnqueueStarted(s, h, w);
  }

  // ----- All handler steps

  lemma ActiveHasKey(s: Sys, key: DownloadKey)
    requires ActiveFor(s.jobs, key) != {}
    ensures KeyOf(s, TheActive(s.jobs, key), key) && s.jobs[TheActive(s.jobs, key)].Active()
  {
  }

  lemma HandleKeepsInv(s: Sys, h: HandlerId, hs: HandlerStep)
    requires Inv(s) && CanHandle(s, h, hs)
    ensures Inv(Handled(s, h, hs))
  {
    match hs
    case CheckDownload => ChecksKeeps(s, h);
    case LookUp => LooksUpKeeps(s, h);
    case TryInsert(id) => InsertsKeeps(s, h, id);
    case Reread => RereadsKeeps(s, h);
    case Enqueue(w) => EnqueueKeepsInv(s, h, w);
  }

  lemma ChecksKeeps(s: Sys, h: HandlerId)
    requires Inv(s) && s.up && h in s.handlers && s.handlers[h].Arrived?
    ensures Inv(Checks(s, h))
  {
    var req := s.handlers[h].req;
    if req.kind == Song && req.Key() in s.downloads {
      AnswerKeeps(s, h, req, WasDone(s.downloads[req.Key()].job));
    } else if Dangling(req.episode, s.gone) {
      AnswerKeeps(s, h, req, NoEpisode);
    } else {
      WaitsKeeps(s, h, LookingUp(req));
    }
  }

  lemma LooksUpKeeps(s: Sys, h: HandlerId)
    requires Inv(s) && s.up && h in s.handlers
    ensures Inv(LooksUp(s, h))
  {
    var req := s.handlers[h].req;
    if ActiveFor(s.jobs, req.Key()) == {} {
      WaitsKeeps(s, h, Inserting(req));
    } else {
      ActiveHasKey(s, req.Key());
      AnswerKeeps(s, h, req, Joined(TheActive(s.jobs, req.Key())));
    }
  }

  lemma InsertsKeeps(s: Sys, h: HandlerId, id: JobId)
    requires Inv(s) && s.up && h in s.handlers && Fresh(s, id)
    ensures Inv(Inserts(s, h, id))
  {
    var req := s.handlers[h].req;
    if ActiveFor(s.jobs, req.Key()) != {} {
      ActiveHasKey(s, req.Key());
      WaitsKeeps(s, h, Rejected(req, Blocked(TheActive(s.jobs, req.Key()))));
    } else if Dangling(req.episode, s.gone) {
      WaitsKeeps(s, h, Rejected(req, EpisodeGone(req.episode.value)));
    } else {
      InsertKeepsInv(s, h, req, id);
    }
  }

  lemma RereadsKeeps(s: Sys, h: HandlerId)
    requires Inv(s) && s.up && h in s.handlers && s.handlers[h].Rejected?
    ensures Inv(Rereads(s, h))
  {
    var req := s.handlers[h].req;
    if ActiveFor(s.jobs, req.Key()) == {} {
      AnswerKeeps(s, h, req, Escaped(s.handlers[h].cause));
    } else {
      ActiveHasKey(s, req.Key());
      AnswerKeeps(s, h, req, Joined(TheActive(s.jobs, req.Key())));
    }
  }

  lemma HandlingKeepsUp(s: Sys, h: HandlerId, hs: HandlerStep)
    requires CanHandle(s, h, hs)
    ensures Handled(s, h, hs).up == s.up && Handled(s, h, hs).slots == s.slots
  {
  }
}
