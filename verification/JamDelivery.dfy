/** Runs of the jam relay: what a host that feeds back each returned cursor receives, whatever the order in
    which the guests' commands commit. */
module JamDelivery {
  import opened Wrappers
  import opened Jam

  /** One host app since its last bootstrap. `boot` is the cursor the bootstrap returned and `atBoot` the
      commands readable then; `late` collects the commands that commit at or below the cursor. */
  datatype Host = Host(boot: nat, atBoot: set<nat>, cursor: nat, delivered: seq<Item>, late: set<nat>)

  /** `admitted` holds requests that have seen the session active and not yet flushed their row. */
  datatype Sys = Sys(now: int, sessions: Sessions, admitted: map<nat, Command>, log: Log, hosts: map<nat, Host>)

  datatype Action =
    | Tick(until: int)
    | CreateSession(user: nat, sid: nat, code: string)
    | EndSession(sid: nat)
    | Push(sid: nat, snapshot: string)
    | Admit(request: nat, sid: nat, sender: nat, body: string)
    | Flush(request: nat)
    | Commit(id: nat)
    | Abort(id: nat)
    | Bootstrap(sid: nat)
    | Poll(sid: nat, until: int)

  predicate Enabled(s: Sys, a: Action) {
    match a
    case Tick(t) => s.now <= t
    case CreateSession(u, sid, code) => sid !in s.sessions && !Taken(EndHosted(s.sessions, u, s.now), code)
    case EndSession(sid) => sid in s.sessions
    case Push(sid, _) => sid in s.sessions && IsActive(s.sessions[sid], s.now)
    case Admit(r, sid, _, _) => r !in s.admitted && sid in s.sessions && IsActive(s.sessions[sid], s.now)
    case Flush(r) => r in s.admitted
    case Commit(id) => id in s.log.pending
    case Abort(id) => id in s.log.pending
    case Bootstrap(sid) => sid in s.sessions && IsActive(s.sessions[sid], s.now)
    case Poll(sid, t) => sid in s.sessions && sid in s.hosts && s.now <= t
  }

  function MineSet(v: map<nat, Command>, sid: nat): set<nat> { set id | id in v && Mine(v, sid, id) }

  function Bootstrapped(g: Log, sid: nat): Host {
    var m := MaxId(g.visible, sid, g.lastId);
    Host(m, MineSet(g.visible, sid), m, [], {})
  }

  function Told(h: Host, view: View, sid: nat, answeredAt: int): Host {
    var r := Answer(view, sid, h.cursor, answeredAt);
    h.(cursor := r.cursor, delivered := h.delivered + r.commands)
  }

  function Committed(g: Log, id: nat): Log
    requires id in g.pending
  {
    g.(pending := g.pending - {id}, visible := g.visible[id := g.pending[id]])
  }

  /** A host's history after a command of its session commits. */
  function Missed(h: Host, id: nat): Host { if id <= h.cursor then h.(late := h.late + {id}) else h }

  function Flushed(g: Log, c: Command): Log { g.(lastId := g.lastId + 1, pending := g.pending[g.lastId + 1 := c]) }

  function Apply(s: Sys, a: Action): Sys
    requires Enabled(s, a)
  {
    match a
    case Tick(t) => s.(now := t)
    case CreateSession(u, sid, code) => s.(sessions := Create(s.sessions, u, sid, code, s.now))
    case EndSession(sid) => s.(sessions := s.sessions[sid := Ended(s.sessions[sid], s.now)])
    case Push(sid, snap) =>
      s.(sessions := s.sessions[sid := s.sessions[sid].(state := Some(snap), stateAt := Some(s.now))])
    case Admit(r, sid, sender, body) => s.(admitted := s.admitted[r := Command(sid, sender, body, s.now)])
    case Flush(r) => s.(admitted := s.admitted - {r}, log := Flushed(s.log, s.admitted[r]))
    case Commit(id) =>
      var sid := s.log.pending[id].session;
      s.(log := Committed(s.log, id),
         hosts := if sid in s.hosts then s.hosts[sid := Missed(s.hosts[sid], id)] else s.hosts)
    case Abort(id) => s.(log := s.log.(pending := s.log.pending - {id}))
    case Bootstrap(sid) => s.(hosts := s.hosts[sid := Bootstrapped(s.log, sid)])
    case Poll(sid, t) =>
      s.(now := t, hosts := s.hosts[sid := Told(s.hosts[sid], View(s.now, s.sessions[sid], s.log), sid, t)])
  }

  predicate Possible(s: Sys, run: seq<Action>)
    decreases |run|, 0
  {
    run == [] || (Possible(s, run[..|run| - 1]) && Enabled(After(s, run[..|run| - 1]), run[|run| - 1]))
  }

  function After(s: Sys, run: seq<Action>): Sys
    requires Possible(s, run)
    decreases |run|, 1
  {
    if run == [] then s else Apply(After(s, run[..|run| - 1]), run[|run| - 1])
  }

  function Init(now: int): Sys { Sys(now, map[], map[], Log(0, map[], map[]), map[]) }

  // ----- The invariant

  /** Sent while its session was active. */
  predicate Timely(c: Command, t: Sessions, now: int) {
    && c.session in t
    && c.admittedAt <= now
    && c.admittedAt < t[c.session].expiresAt
    && (t[c.session].endedAt.Some? ==> c.admittedAt <= t[c.session].endedAt.value <= now)
  }

  ghost predicate AllTimely(m: map<nat, Command>, t: Sessions, now: int) { forall k | k in m :: Timely(m[k], t, now) }

  ghost predicate SomeoneTimely(s: Sys) {
    && AllTimely(s.admitted, s.sessions, s.now)
    && AllTimely(s.log.pending, s.sessions, s.now)
    && AllTimely(s.log.visible, s.sessions, s.now)
  }

  ghost predicate Accounted(v: map<nat, Command>, sid: nat, h: Host) {
    && (forall id | id in h.atBoot :: Mine(v, sid, id) && id <= h.boot)
    && (forall id | id in h.late :: Mine(v, sid, id) && id <= h.cursor && id !in h.atBoot)
    && (forall id: nat | Mine(v, sid, id) && id <= h.boot :: id in h.atBoot || id in h.late)
  }

  ghost predicate CursorOk(g: Log, sid: nat, h: Host) {
    h.boot <= h.cursor <= g.lastId && (h.cursor == 0 || Mine(g.visible, sid, h.cursor))
  }

  /** What the host holds is the query over everything that was not late. */
  ghost predicate Delivers(v: map<nat, Command>, sid: nat, h: Host) {
    h.delivered == Rows(v - h.late, sid, h.boot, h.cursor)
  }

  ghost predicate HostOk(g: Log, sid: nat, h: Host) {
    CursorOk(g, sid, h) && Accounted(g.visible, sid, h) && Delivers(g.visible, sid, h)
  }

  ghost predicate HostsOk(s: Sys) { forall sid | sid in s.hosts :: HostOk(s.log, sid, s.hosts[sid]) }

  ghost predicate TableOk(t: Sessions) { UniqueCodes(t) && OnePerHost(t) }

  ghost predicate Inv(s: Sys) {
    TableOk(s.sessions) && GoodLog(s.log) && SomeoneTimely(s) && HostsOk(s)
  }

  // ----- Steps keep it

  lemma TableKept(s: Sys, a: Action)
    requires Enabled(s, a) && TableOk(s.sessions)
    ensures TableOk(Apply(s, a).sessions)
  {
    match a {
      case CreateSession(u, sid, code) => CreateKeeps(s.sessions, u, sid, code, s.now);
      case _ =>
    }
  }

  lemma LogKept(s: Sys, a: Action)
    requires Enabled(s, a) && GoodLog(s.log)
    ensures GoodLog(Apply(s, a).log)
  {
  }

  /** Sessions stay and only ever end, at the time of the step that ends them. */
  ghost predicate Onward(t: Sessions, u: Sessions, now: int) {
    forall i | i in t :: i in u && u[i].expiresAt == t[i].expiresAt && u[i].host == t[i].host && u[i].code == t[i].code
                         && (u[i].endedAt == t[i].endedAt || (t[i].endedAt.None? && u[i].endedAt == Some(now)))
  }

  lemma StepGoesOnward(s: Sys, a: Action)
    requires Enabled(s, a)
    ensures Onward(s.sessions, Apply(s, a).sessions, s.now) && s.now <= Apply(s, a).now
  {
  }

  lemma TimelyOnward(m: map<nat, Command>, t: Sessions, u: Sessions, now: int, later: int)
    requires AllTimely(m, t, now) && Onward(t, u, now) && now <= later
    ensures AllTimely(m, u, later)
  {
  }

  lemma TimelyKept(s: Sys, a: Action)
    requires Enabled(s, a) && SomeoneTimely(s)
    ensures SomeoneTimely(Apply(s, a))
  {
    var t := Apply(s, a);
    StepGoesOnward(s, a);
    TimelyOnward(s.admitted, s.sessions, t.sessions, s.now, t.now);
    TimelyOnward(s.log.pending, s.sessions, t.sessions, s.now, t.now);
    TimelyOnward(s.log.visible, s.sessions, t.sessions, s.now, t.now);
    NewlyTimely(s, a);
  }

  lemma NewlyTimely(s: Sys, a: Action)
    requires Enabled(s, a)
    requires AllTimely(s.admitted, Apply(s, a).sessions, Apply(s, a).now)
    requires AllTimely(s.log.pending, Apply(s, a).sessions, Apply(s, a).now)
    requires AllTimely(s.log.visible, Apply(s, a).sessions, Apply(s, a).now)
    ensures SomeoneTimely(Apply(s, a))
  {
  }

  lemma BootstrapOk(g: Log, sid: nat)
    requires GoodLog(g)
    ensures HostOk(g, sid, Bootstrapped(g, sid))
  {
    var h := Bootstrapped(g, sid);
    assert forall id: nat | Mine(g.visible, sid, id) :: id in h.atBoot && id <= h.boot;
  }

  lemma CommitOk(g: Log, sid: nat, h: Host, id: nat)
    requires GoodLog(g) && id in g.pending && HostOk(g, sid, h)
    ensures HostOk(Committed(g, id), sid, if g.pending[id].session == sid then Missed(h, id) else h)
  {
    var v, w := g.visible, Committed(g, id).visible;
    var k := if g.pending[id].session == sid then Missed(h, id) else h;
    RowsAgree(v - h.late, w - k.late, sid, h.boot, h.cursor);
  }

  lemma ToldOk(g: Log, sid: nat, h: Host, view: View, answeredAt: int)
    requires GoodLog(g) && HostOk(g, sid, h) && view.log == g && view.now <= answeredAt
    ensures HostOk(g, sid, Told(h, view, sid, answeredAt))
  {
    var v := g.visible;
    var r := Answer(view, sid, h.cursor, answeredAt);
    AnswerShape(view, sid, h.cursor, answeredAt);
    if r.commands != [] {
      CursorIsMax(v, sid, h.cursor, g.lastId);
      RowsAgree(v, v - h.late, sid, h.cursor, g.lastId);
      RowsSplit(v - h.late, sid, h.cursor, r.cursor, g.lastId);
      RowsEmpty(v - h.late, sid, r.cursor, g.lastId);
      RowsSplit(v - h.late, sid, h.boot, h.cursor, r.cursor);
    }
  }

  lemma HostsKept(s: Sys, a: Action)
    requires Enabled(s, a) && GoodLog(s.log) && HostsOk(s)
    ensures HostsOk(Apply(s, a))
  {
    match a {
      case Bootstrap(sid) => BootstrapOk(s.log, sid);
      case Poll(sid, t) => ToldOk(s.log, sid, s.hosts[sid], View(s.now, s.sessions[sid], s.log), t);
      case Commit(id) =>
        forall sid | sid in s.hosts {
          CommitOk(s.log, sid, s.hosts[sid], id);
        }
      case _ =>
    }
  }

  lemma StepKeepsInv(s: Sys, a: Action)
    requires Inv(s) && Enabled(s, a)
    ensures Inv(Apply(s, a))
  {
    TableKept(s, a);
    LogKept(s, a);
    TimelyKept(s, a);
    HostsKept(s, a);
  }

  lemma {:induction false} RunKeepsInv(s: Sys, run: seq<Action>)
    requires Inv(s) && Possible(s, run)
    ensures Inv(After(s, run))
  {
    if run != [] {
      RunKeepsInv(s, run[..|run| - 1]);
      StepKeepsInv(After(s, run[..|run| - 1]), run[|run| - 1]);
    }
  }

  lemma ReachedIsGood(now: int, run: seq<Action>)
    requires Possible(Init(now), run)
    ensures Inv(After(Init(now), run))
  {
    RunKeepsInv(Init(now), run);
  }

  // ----- What the host receives

  predicate Got(h: Host, id: nat) { exists k :: 0 <= k < |h.delivered| && h.delivered[k].id == id }

  lemma GotIff(v: map<nat, Command>, sid: nat, h: Host, id: nat)
    requires Delivers(v, sid, h)
    ensures Got(h, id) <==> h.boot < id <= h.cursor && Mine(v, sid, id) && id !in h.late
  {
    var w := v - h.late;
    RowsAreTheQuery(w, sid, h.boot, h.cursor);
    if h.boot < id <= h.cursor && Mine(v, sid, id) && id !in h.late {
      assert Item(id, w[id]) in h.delivered;
    }
  }

  /** In every reachable state, whatever order commands committed in: what the host has is in id order with
      no repeats, each with the body it was sent with, and every readable command of the session is exactly
      one of stale at bootstrap, delivered, late, or still beyond the cursor. */
  lemma Accounting(now: int, run: seq<Action>, sid: nat)
    requires Possible(Init(now), run) && sid in After(Init(now), run).hosts
    ensures var s := After(Init(now), run); var h := s.hosts[sid];
            && Ascending(h.delivered)
            && (forall x | x in h.delivered ::
                  h.boot < x.id <= h.cursor && x.id in s.log.visible && s.log.visible[x.id] == x.command
                  && x.command.session == sid)
            && (forall id: nat | id in s.log.visible && s.log.visible[id].session == sid ::
                  && (id in h.atBoot || id in h.late || Got(h, id) || id > h.cursor)
                  && !(id in h.atBoot && (id in h.late || Got(h, id) || id > h.cursor))
                  && !(id in h.late && (Got(h, id) || id > h.cursor))
                  && !(Got(h, id) && id > h.cursor))
  {
    ReachedIsGood(now, run);
    var s := After(Init(now), run);
    var h := s.hosts[sid];
    RowsAreTheQuery(s.log.visible - h.late, sid, h.boot, h.cursor);
    forall id: nat | id in s.log.visible && s.log.visible[id].session == sid
      ensures Mine(s.log.visible, sid, id) && (Got(h, id) <==> h.boot < id <= h.cursor && id !in h.late)
    {
      GotIff(s.log.visible, sid, h, id);
    }
  }

  /** Nothing is missing between the bootstrap and the cursor exactly when no command above the bootstrap
      committed late. */
  lemma CompleteIff(s: Sys, sid: nat)
    requires Inv(s) && sid in s.hosts
    ensures var h := s.hosts[sid];
            h.delivered == Rows(s.log.visible, sid, h.boot, h.cursor) <==> forall id | id in h.late :: id <= h.boot
  {
    var h := s.hosts[sid];
    var v: map<nat, Command> := s.log.visible;
    if forall id | id in h.late :: id <= h.boot {
      RowsAgree(v, v - h.late, sid, h.boot, h.cursor);
    } else {
      var id :| id in h.late && id > h.boot;
      RowsAreTheQuery(v, sid, h.boot, h.cursor);
      RowsAreTheQuery(v - h.late, sid, h.boot, h.cursor);
      assert Item(id, v[id]) in Rows(v, sid, h.boot, h.cursor);
      assert Item(id, v[id]) !in h.delivered;
    }
  }

  /** Commands of one session become readable in id order. */
  ghost predicate CommitsInOrder(s: Sys, a: Action, sid: nat) {
    a.Commit? && a.id in s.log.pending && s.log.pending[a.id].session == sid ==>
      forall id | id in s.log.visible && s.log.visible[id].session == sid :: id < a.id
  }

  ghost predicate InOrder(s: Sys, run: seq<Action>, sid: nat)
    requires Possible(s, run)
  {
    run == [] || (var n := |run| - 1; InOrder(s, run[..n], sid) && CommitsInOrder(After(s, run[..n]), run[n], sid))
  }

  ghost predicate NoneLate(s: Sys, sid: nat) { sid in s.hosts ==> s.hosts[sid].late == {} }

  lemma InOrderStep(s: Sys, a: Action, sid: nat)
    requires Enabled(s, a) && CommitsInOrder(s, a, sid) && NoneLate(s, sid) && GoodLog(s.log) && HostsOk(s)
    ensures NoneLate(Apply(s, a), sid)
  {
  }

  lemma {:induction false} InOrderNeverLate(s: Sys, run: seq<Action>, sid: nat)
    requires Inv(s) && Possible(s, run) && InOrder(s, run, sid) && NoneLate(s, sid)
    ensures NoneLate(After(s, run), sid)
  {
    if run != [] {
      var n := |run| - 1;
      InOrderNeverLate(s, run[..n], sid);
      RunKeepsInv(s, run[..n]);
      InOrderStep(After(s, run[..n]), run[n], sid);
    }
  }

  /** Then the batches put together are the session's whole log from the bootstrap to the cursor, in order. */
  lemma InOrderIsComplete(now: int, run: seq<Action>, sid: nat)
    requires Possible(Init(now), run) && InOrder(Init(now), run, sid) && sid in After(Init(now), run).hosts
    ensures var s := After(Init(now), run); var h := s.hosts[sid];
            && Ascending(h.delivered)
            && forall x :: x in h.delivered <==>
                 h.boot < x.id <= h.cursor && x.id in s.log.visible && s.log.visible[x.id] == x.command
                 && x.command.session == sid
  {
    InOrderNeverLate(Init(now), run, sid);
    ReachedIsGood(now, run);
    var s := After(Init(now), run);
    CompleteIff(s, sid);
    RowsAreTheQuery(s.log.visible, sid, s.hosts[sid].boot, s.hosts[sid].cursor);
  }

  /** A poll answered while the session is active leaves nothing readable beyond the cursor. */
  lemma PollCatchesUp(s: Sys, sid: nat, until: int)
    requires Inv(s) && Enabled(s, Poll(sid, until)) && IsActive(s.sessions[sid], until)
    ensures var t := Apply(s, Poll(sid, until));
            forall id | id in t.log.visible && t.log.visible[id].session == sid :: id <= t.hosts[sid].cursor
  {
    var g, h := s.log, s.hosts[sid];
    assert forall id | id in g.visible && g.visible[id].session == sid :: Mine(g.visible, sid, id);
    AnswerShape(View(s.now, s.sessions[sid], g), sid, h.cursor, until);
    CursorIsMax(g.visible, sid, h.cursor, g.lastId);
  }

  // ----- A late command is lost

  ghost predicate NoBootstrap(run: seq<Action>, sid: nat) { forall i | 0 <= i < |run| :: run[i] != Bootstrap(sid) }

  lemma {:induction false} LateStays(s: Sys, run: seq<Action>, sid: nat, id: nat)
    requires Possible(s, run) && NoBootstrap(run, sid) && sid in s.hosts && id in s.hosts[sid].late
    ensures sid in After(s, run).hosts && id in After(s, run).hosts[sid].late
  {
    if run != [] {
      LateStays(s, run[..|run| - 1], sid, id);
    }
  }

  /** Unless the host starts over, a command that committed late is never delivered. */
  lemma LostForever(s: Sys, run: seq<Action>, sid: nat, id: nat)
    requires Inv(s) && Possible(s, run) && NoBootstrap(run, sid) && sid in s.hosts && id in s.hosts[sid].late
    ensures sid in After(s, run).hosts && !Got(After(s, run).hosts[sid], id)
  {
    LateStays(s, run, sid, id);
    RunKeepsInv(s, run);
    GotIff(After(s, run).log.visible, sid, After(s, run).hosts[sid], id);
  }

  function CommitThenPoll(s: Sys, sid: nat, b: nat): Sys
    requires sid in s.sessions && sid in s.hosts && b in s.log.pending
  {
    Apply(Apply(s, Commit(b)), Poll(sid, s.now))
  }

  lemma ReadPast(s: Sys, sid: nat, b: nat)
    requires Inv(s) && sid in s.sessions && IsActive(s.sessions[sid], s.now) && sid in s.hosts
    requires b in s.log.pending && s.log.pending[b].session == sid && s.hosts[sid].cursor < b
    ensures var u := CommitThenPoll(s, sid, b);
            u.log == Committed(s.log, b) && sid in u.hosts && b <= u.hosts[sid].cursor && Got(u.hosts[sid], b)
  {
    var t := Apply(s, Commit(b));
    StepKeepsInv(s, Commit(b));
    PollCatchesUp(t, sid, s.now);
    HostsKept(t, Poll(sid, s.now));
    var u := Apply(t, Poll(sid, s.now));
    assert Mine(u.log.visible, sid, b);
    GotIff(u.log.visible, sid, u.hosts[sid], b);
  }

  /** Exactly that happens whenever two commands of a session are in flight, the higher id commits first and
      the host polls in between. */
  lemma OvertakenIsLost(s: Sys, sid: nat, a: nat, b: nat)
    requires Inv(s) && sid in s.sessions && IsActive(s.sessions[sid], s.now) && sid in s.hosts
    requires a in s.log.pending && b in s.log.pending && s.hosts[sid].cursor < a < b
    requires s.log.pending[a].session == sid && s.log.pending[b].session == sid
    ensures var u := CommitThenPoll(s, sid, b);
            Enabled(u, Commit(a)) &&
            var h := Apply(u, Commit(a)).hosts;
            sid in h && a in h[sid].late && Got(h[sid], b)
  {
    ReadPast(s, sid, b);
  }

  lemma Follow(s: Sys, run: seq<Action>, a: Action)
    requires Possible(s, run) && Enabled(After(s, run), a)
    ensures Possible(s, run + [a]) && After(s, run + [a]) == Apply(After(s, run), a)
  {
    assert (run + [a])[..|run|] == run;
  }

  lemma AdmitThenFlush(t: Sys, sid: nat, sender: nat, body: string)
    requires 0 !in t.admitted && sid in t.sessions && IsActive(t.sessions[sid], t.now)
    ensures Enabled(t, Admit(0, sid, sender, body)) && Enabled(Apply(t, Admit(0, sid, sender, body)), Flush(0))
    ensures Apply(Apply(t, Admit(0, sid, sender, body)), Flush(0))
            == t.(log := Flushed(t.log, Command(sid, sender, body, t.now)))
  {
    assert t.admitted[0 := Command(sid, sender, body, t.now)] - {0} == t.admitted;
  }

  lemma Send(s: Sys, run: seq<Action>, sid: nat, sender: nat, body: string) returns (longer: seq<Action>)
    requires Possible(s, run) && 0 !in After(s, run).admitted
    requires sid in After(s, run).sessions && IsActive(After(s, run).sessions[sid], After(s, run).now)
    ensures Possible(s, longer)
    ensures var t := After(s, run);
            After(s, longer) == t.(log := Flushed(t.log, Command(sid, sender, body, t.now)))
  {
    AdmitThenFlush(After(s, run), sid, sender, body);
    Follow(s, run, Admit(0, sid, sender, body));
    longer := run + [Admit(0, sid, sender, body)];
    Follow(s, longer, Flush(0));
    longer := longer + [Flush(0)];
  }

  /** And such a state is reachable. */
  lemma TwoInFlight() returns (run: seq<Action>)
    ensures Possible(Init(0), run)
    ensures var s := After(Init(0), run);
            && 7 in s.sessions && IsActive(s.sessions[7], s.now) && 7 in s.hosts && s.hosts[7].cursor == 0
            && s.log.pending == map[1 := Command(7, 2, "pause", 0), 2 := Command(7, 3, "next", 0)]
  {
    var s := Init(0);
    assert !Taken(EndHosted(s.sessions, 1, 0), "ABCDEF");
    Follow(s, [], CreateSession(1, 7, "ABCDEF"));
    run := [] + [CreateSession(1, 7, "ABCDEF")];
    Follow(s, run, Bootstrap(7));
    run := run + [Bootstrap(7)];
    run := Send(s, run, 7, 2, "pause");
    run := Send(s, run, 7, 3, "next");
  }

  // ----- Sessions over time

  /** Once over, a session stays over: its row and its snapshot are frozen, and its host, unless it starts
      over, is told nothing more. */
  lemma {:induction false} OverIsOver(s: Sys, run: seq<Action>, sid: nat)
    requires Possible(s, run) && sid in s.sessions && !IsActive(s.sessions[sid], s.now)
    ensures sid in After(s, run).sessions && !IsActive(After(s, run).sessions[sid], After(s, run).now)
    ensures After(s, run).sessions[sid].state == s.sessions[sid].state
    ensures After(s, run).sessions[sid].stateAt == s.sessions[sid].stateAt
    ensures sid in s.hosts ==> sid in After(s, run).hosts
                               && After(s, run).hosts[sid].delivered == s.hosts[sid].delivered
  {
    if run != [] {
      OverIsOver(s, run[..|run| - 1], sid);
      StepGoesOnward(After(s, run[..|run| - 1]), run[|run| - 1]);
    }
  }

  /** Every readable command was sent while its session was active: before it ended and before it expired. */
  lemma SentWhileActive(now: int, run: seq<Action>, id: nat)
    requires Possible(Init(now), run) && id in After(Init(now), run).log.visible
    ensures var s := After(Init(now), run); var c := s.log.visible[id];
            && c.session in s.sessions && c.admittedAt < s.sessions[c.session].expiresAt
            && (s.sessions[c.session].endedAt.Some? ==> c.admittedAt <= s.sessions[c.session].endedAt.value)
  {
    ReachedIsGood(now, run);
  }

  /** No two live sessions share a code or a host. */
  lemma OneLiveSession(now: int, run: seq<Action>, a: nat, b: nat)
    requires Possible(Init(now), run)
    requires var t := After(Init(now), run).sessions; a in t && b in t && Live(t[a]) && Live(t[b])
    requires var t := After(Init(now), run).sessions; t[a].code == t[b].code || t[a].host == t[b].host
    ensures a == b
  {
    ReachedIsGood(now, run);
  }

  /** Step `a` ends session `sid`: its end is asked for, or its host opens another. */
  predicate Ends(s: Sys, a: Action, sid: nat)
    requires sid in s.sessions
  {
    a == EndSession(sid) || (a.CreateSession? && a.user == s.sessions[sid].host)
  }

  /** At step `k` of the run session `sid` was not over and was ended, for good. */
  ghost predicate EndedAt(s: Sys, run: seq<Action>, k: nat, sid: nat, endedAt: Option<int>) {
    && k < |run| && Possible(s, run[..k]) && Enabled(After(s, run[..k]), run[k])
    && sid in After(s, run[..k]).sessions && After(s, run[..k]).sessions[sid].endedAt == None
    && Ends(After(s, run[..k]), run[k], sid) && endedAt == Some(After(s, run[..k]).now)
  }

  lemma EndStep(s: Sys, a: Action, sid: nat)
    requires Enabled(s, a) && sid in Apply(s, a).sessions
    ensures sid !in s.sessions ==> Apply(s, a).sessions[sid].endedAt == None
    ensures sid in s.sessions && s.sessions[sid].endedAt != None ==>
              Apply(s, a).sessions[sid].endedAt == s.sessions[sid].endedAt
    ensures sid in s.sessions && s.sessions[sid].endedAt == None ==>
              Apply(s, a).sessions[sid].endedAt == if Ends(s, a, sid) then Some(s.now) else None
  {
  }

  /** A session is over before its time only because its own host ended it or opened another, and from that very
      moment. */
  lemma {:induction false} OnlyTheHostEnds(s: Sys, run: seq<Action>, sid: nat) returns (k: nat)
    requires Possible(s, run) && sid in After(s, run).sessions && After(s, run).sessions[sid].endedAt.Some?
    requires sid in s.sessions ==> s.sessions[sid].endedAt == None
    ensures EndedAt(s, run, k, sid, After(s, run).sessions[sid].endedAt)
  {
    assert run != [];
    var r, a := run[..|run| - 1], run[|run| - 1];
    EndStep(After(s, r), a, sid);
    if After(s, r).sessions[sid].endedAt.Some? {
      k := OnlyTheHostEnds(s, r, sid);
      assert r[..k] == run[..k];
    } else {
      k := |r|;
      assert run[..k] == r;
    }
  }

  /** The end a host asks for takes effect at once. */
  lemma EndTakesEffect(s: Sys, a: Action, sid: nat)
    requires Enabled(s, a) && sid in s.sessions && Ends(s, a, sid)
    ensures sid in Apply(s, a).sessions && Apply(s, a).sessions[sid].endedAt.Some?
  {
  }

  // ----- Where commands come from

  /** Some step of the run admitted this very command. */
  ghost predicate WasSent(run: seq<Action>, c: Command) {
    exists k :: 0 <= k < |run| && run[k].Admit? && run[k].sid == c.session && run[k].sender == c.sender
                && run[k].body == c.body
  }

  lemma SentEarlier(run: seq<Action>, c: Command)
    requires run != [] && WasSent(run[..|run| - 1], c)
    ensures WasSent(run, c)
  {
    var r := run[..|run| - 1];
    var k :| 0 <= k < |r| && r[k].Admit? && r[k].sid == c.session && r[k].sender == c.sender && r[k].body == c.body;
    assert run[k] == r[k];
  }

  /** The relay holds the command: admitted, flushed or readable. */
  ghost predicate Holds(s: Sys, c: Command) {
    || (exists r :: r in s.admitted && s.admitted[r] == c)
    || (exists id :: id in s.log.pending && s.log.pending[id] == c)
    || (exists id :: id in s.log.visible && s.log.visible[id] == c)
  }

  lemma HeldBefore(s: Sys, a: Action, c: Command)
    requires Enabled(s, a) && Holds(Apply(s, a), c)
    ensures Holds(s, c) || (a.Admit? && c == Command(a.sid, a.sender, a.body, s.now))
  {
    match a
    case Flush(r) => assert s.admitted[r] == c || Holds(s, c);
    case Commit(id) => assert s.log.pending[id] == c || Holds(s, c);
    case _ =>
  }

  /** Every command in the relay, readable or not, is one a guest sent, unchanged. */
  lemma {:induction false} EveryCommandWasSent(now: int, run: seq<Action>, c: Command)
    requires Possible(Init(now), run) && Holds(After(Init(now), run), c)
    ensures WasSent(run, c)
  {
    assert run != [];
    var r, a := run[..|run| - 1], run[|run| - 1];
    HeldBefore(After(Init(now), r), a, c);
    if Holds(After(Init(now), r), c) {
      EveryCommandWasSent(now, r, c);
      SentEarlier(run, c);
    } else {
      assert run[|run| - 1] == a;
    }
  }

  /** A bootstrap delivers nothing and skips every command readable by then. */
  lemma BootstrapSkips(s: Sys, sid: nat)
    requires Inv(s) && Enabled(s, Bootstrap(sid))
    ensures var t := Apply(s, Bootstrap(sid));
            && t.hosts[sid].delivered == [] && t.hosts[sid].cursor == t.hosts[sid].boot
            && IsLatest(t.hosts[sid].cursor, s.log, sid)
  {
    MaxIdIsLatest(s.log, sid);
  }

  /** A flushed command stays out of sight until it commits, and then it is exactly what can be read; an aborted one
      is gone. */
  lemma CommitOrAbort(s: Sys, id: nat, other: nat)
    requires Inv(s) && id in s.log.pending
    ensures var t := Apply(s, Commit(id)).log;
            && id !in t.pending && id in t.visible && t.visible[id] == s.log.pending[id]
            && (other != id ==> (other in t.visible <==> other in s.log.visible)
                                && (other in t.pending <==> other in s.log.pending))
    ensures var t := Apply(s, Abort(id)).log;
            && id !in t.pending && id !in t.visible && t.visible == s.log.visible
            && (other != id ==> (other in t.pending <==> other in s.log.pending))
  {
  }

  // ----- Snapshots

  /** The snapshot pushed last for the session in the run. */
  ghost function LastPush(run: seq<Action>, sid: nat): Option<string> {
    if run == [] then None else
      var a := run[|run| - 1];
      if a.Push? && a.sid == sid then Some(a.snapshot) else LastPush(run[..|run| - 1], sid)
  }

  lemma SnapshotStep(s: Sys, a: Action, sid: nat)
    requires Enabled(s, a) && sid in Apply(s, a).sessions
    ensures Apply(s, a).sessions[sid].state
            == if a.Push? && a.sid == sid then Some(a.snapshot)
               else if sid in s.sessions then s.sessions[sid].state else None
  {
  }

  lemma {:induction false} NotPushedYet(now: int, run: seq<Action>, sid: nat)
    requires Possible(Init(now), run) && sid !in After(Init(now), run).sessions
    ensures LastPush(run, sid) == None
  {
    if run != [] {
      NotPushedYet(now, run[..|run| - 1], sid);
    }
  }

  /** Guests see the snapshot the host pushed last. */
  lemma {:induction false} SnapshotIsLastPush(now: int, run: seq<Action>, sid: nat)
    requires Possible(Init(now), run) && sid in After(Init(now), run).sessions
    ensures After(Init(now), run).sessions[sid].state == LastPush(run, sid)
  {
    assert run != [];
    var r, a := run[..|run| - 1], run[|run| - 1];
    SnapshotStep(After(Init(now), r), a, sid);
    if sid in After(Init(now), r).sessions {
      SnapshotIsLastPush(now, r, sid);
    } else {
      NotPushedYet(now, r, sid);
    }
  }

  /** What may happen when. */
  lemma ActionsAreOpen(s: Sys, t: int, user: nat, sid: nat, code: string, text: string, r: nat, id: nat)
    ensures Enabled(s, Tick(t)) <==> s.now <= t
    ensures Enabled(s, CreateSession(user, sid, code)) <==> sid !in s.sessions && !HeldByOther(s.sessions, user, code)
    ensures Enabled(s, EndSession(sid)) <==> sid in s.sessions
    ensures Enabled(s, Push(sid, text)) <==> sid in s.sessions && On(s.sessions[sid], s.now)
    ensures Enabled(s, Admit(r, sid, user, text)) <==>
            r !in s.admitted && sid in s.sessions && On(s.sessions[sid], s.now)
    ensures Enabled(s, Flush(r)) <==> r in s.admitted
    ensures Enabled(s, Commit(id)) <==> id in s.log.pending
    ensures Enabled(s, Abort(id)) <==> id in s.log.pending
    ensures Enabled(s, Bootstrap(sid)) <==> sid in s.sessions && On(s.sessions[sid], s.now)
    ensures Enabled(s, Poll(sid, t)) <==> sid in s.sessions && sid in s.hosts && s.now <= t
  {
    CreateMeans(s.sessions, user, sid, code, s.now);
  }

  /** The actions on sessions do what the endpoints do; the others leave the sessions alone, and the clock moves only
      as it is said to. */
  lemma SessionsStep(s: Sys, a: Action)
    requires Enabled(s, a)
    ensures var t := Apply(s, a);
            && (a.CreateSession? ==> CreatedFor(s.sessions, t.sessions, a.user, a.sid, a.code, s.now))
            && (a.EndSession? && s.sessions[a.sid].endedAt == None ==>
                  t.sessions == s.sessions[a.sid := s.sessions[a.sid].(endedAt := Some(s.now))])
            && (a.Push? ==>
                  t.sessions == s.sessions[a.sid := s.sessions[a.sid].(state := Some(a.snapshot),
                                                                       stateAt := Some(s.now))])
            && (!a.CreateSession? && !a.EndSession? && !a.Push? ==> t.sessions == s.sessions)
            && t.now == if a.Tick? || a.Poll? then a.until else s.now
  {
    if a.CreateSession? {
      CreateMeans(s.sessions, a.user, a.sid, a.code, s.now);
    }
  }
}
