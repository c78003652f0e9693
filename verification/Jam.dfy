/** The jam relay's tables and endpoints: sessions with a live code, and a command log read by cursor.

    Ids, codes and times come from outside. A command gets its id when it is flushed (`pending`) and can be
    read only once its transaction commits (`visible`).
 */
module Jam {
  import opened Wrappers

  /** Twelve hours, in seconds. */
  const SESSION_TTL := 43200
  /** How many codes `create_session` draws before it gives up. */
  const CODE_TRIES := 5

  datatype Session = Session(host: nat, code: string, state: Option<string>, stateAt: Option<int>, expiresAt: int,
                             endedAt: Option<int>)

  type Sessions = map<nat, Session>

  /** Not ended, which is what the partial indexes look at; an expired session is still live in this sense. */
  predicate Live(js: Session) { js.endedAt.None? }

  predicate IsActive(js: Session, now: int) { Live(js) && js.expiresAt > now }

  datatype Command = Command(session: nat, sender: nat, body: string, admittedAt: int)

  datatype Item = Item(id: nat, command: Command)

  datatype Log = Log(lastId: nat, pending: map<nat, Command>, visible: map<nat, Command>)

  ghost predicate GoodLog(g: Log) {
    && (forall id | id in g.visible :: 0 < id <= g.lastId && id !in g.pending)
    && (forall id | id in g.pending :: 0 < id <= g.lastId)
  }

  // ----- Sessions

  /** The partial unique index on `code`. */
  ghost predicate UniqueCodes(t: Sessions) {
    forall a, b | a in t && b in t && Live(t[a]) && Live(t[b]) && t[a].code == t[b].code :: a == b
  }

  ghost predicate OnePerHost(t: Sessions) {
    forall a, b | a in t && b in t && Live(t[a]) && Live(t[b]) && t[a].host == t[b].host :: a == b
  }

  predicate Taken(t: Sessions, code: string) { exists i | i in t :: Live(t[i]) && t[i].code == code }

  function Ended(js: Session, now: int): Session {
    if Live(js) then js.(endedAt := Some(now)) else js
  }

  /** The UPDATE that ends every live session of one host. */
  function EndHosted(t: Sessions, host: nat, now: int): Sessions {
    map i | i in t :: if t[i].host == host then Ended(t[i], now) else t[i]
  }

  function Opened(host: nat, code: string, now: int): Session {
    Session(host, code, None, None, now + SESSION_TTL, None)
  }

  function Create(t: Sessions, host: nat, sid: nat, code: string, now: int): Sessions {
    EndHosted(t, host, now)[sid := Opened(host, code, now)]
  }

  lemma CreateKeeps(t: Sessions, host: nat, sid: nat, code: string, now: int)
    requires UniqueCodes(t) && OnePerHost(t) && sid !in t && !Taken(EndHosted(t, host, now), code)
    ensures UniqueCodes(Create(t, host, sid, code, now)) && OnePerHost(Create(t, host, sid, code, now))
    ensures forall i | i in Create(t, host, sid, code, now) ::
              Live(Create(t, host, sid, code, now)[i]) && Create(t, host, sid, code, now)[i].host == host <==> i == sid
  {
    var ended := EndHosted(t, host, now);
    var made := Create(t, host, sid, code, now);
    assert forall i | i in made && i != sid && Live(made[i]) :: made[i] == t[i] && i in ended && ended[i] == t[i];
  }

  /** Another host has the code in use. */
  predicate HeldByOther(t: Sessions, host: nat, code: string) {
    exists i | i in t :: t[i].host != host && t[i].endedAt == None && t[i].code == code
  }

  /** Creating session `sid` ends the host's sessions that are not over, and touches no others. */
  ghost predicate CreatedFor(t: Sessions, u: Sessions, host: nat, sid: nat, code: string, now: int) {
    && u.Keys == t.Keys + {sid}
    && u[sid] == Session(host, code, None, None, now + 43200, None)
    && (forall i | i in t && i != sid && (t[i].host != host || t[i].endedAt.Some?) :: u[i] == t[i])
    && (forall i | i in t && i != sid && t[i].host == host && t[i].endedAt.None? ::
          u[i] == Session(host, t[i].code, t[i].state, t[i].stateAt, t[i].expiresAt, Some(now)))
  }

  lemma CreateMeans(t: Sessions, host: nat, sid: nat, code: string, now: int)
    ensures CreatedFor(t, Create(t, host, sid, code, now), host, sid, code, now)
    ensures Taken(EndHosted(t, host, now), code) <==> HeldByOther(t, host, code)
  {
    var u := EndHosted(t, host, now);
    assert forall i | i in u :: Live(u[i]) <==> t[i].host != host && Live(t[i]);
    if HeldByOther(t, host, code) {
      var i :| i in t && t[i].host != host && t[i].endedAt == None && t[i].code == code;
      assert i in u && Live(u[i]) && u[i].code == code;
    }
  }

  // ----- The command log

  predicate Mine(v: map<nat, Command>, sid: nat, id: nat) { id in v && v[id].session == sid }

  /** SELECT ... WHERE session_id = sid AND id > after ORDER BY id, over ids up to `upto`. */
  function Rows(v: map<nat, Command>, sid: nat, after: nat, upto: nat): seq<Item> {
    if upto <= after then [] else
      Rows(v, sid, after, upto - 1) + if Mine(v, sid, upto) then [Item(upto, v[upto])] else []
  }

  ghost predicate Ascending(rows: seq<Item>) { forall i, j | 0 <= i < j < |rows| :: rows[i].id < rows[j].id }

  /** `Rows` is the query: ascending, and exactly this session's commands in the interval. */
  lemma {:induction false} RowsAreTheQuery(v: map<nat, Command>, sid: nat, after: nat, upto: nat)
    ensures Ascending(Rows(v, sid, after, upto))
    ensures forall x :: x in Rows(v, sid, after, upto)
                   <==> after < x.id <= upto && x.id in v && v[x.id] == x.command && x.command.session == sid
  {
    if upto > after {
      RowsAreTheQuery(v, sid, after, upto - 1);
    }
  }

  lemma {:induction false} RowsAgree(v: map<nat, Command>, w: map<nat, Command>, sid: nat, after: nat, upto: nat)
    requires forall id | after < id <= upto ::
               Mine(v, sid, id) == Mine(w, sid, id) && (Mine(v, sid, id) ==> v[id] == w[id])
    ensures Rows(v, sid, after, upto) == Rows(w, sid, after, upto)
  {
    if upto > after {
      RowsAgree(v, w, sid, after, upto - 1);
    }
  }

  lemma {:induction false} RowsSplit(v: map<nat, Command>, sid: nat, after: nat, mid: nat, upto: nat)
    requires after <= mid <= upto
    ensures Rows(v, sid, after, upto) == Rows(v, sid, after, mid) + Rows(v, sid, mid, upto)
  {
    if upto > mid {
      RowsSplit(v, sid, after, mid, upto - 1);
    }
  }

  lemma {:induction false} RowsEmpty(v: map<nat, Command>, sid: nat, after: nat, upto: nat)
    requires forall id | after < id <= upto :: !Mine(v, sid, id)
    ensures Rows(v, sid, after, upto) == []
  {
    if upto > after {
      RowsEmpty(v, sid, after, upto - 1);
    }
  }

  /** `coalesce(max(id), 0)` over this session's commands. */
  function MaxId(v: map<nat, Command>, sid: nat, upto: nat): (m: nat)
    ensures m <= upto && (m == 0 || Mine(v, sid, m))
    ensures forall id | m < id <= upto :: !Mine(v, sid, id)
  {
    if upto == 0 || Mine(v, sid, upto) then upto else MaxId(v, sid, upto - 1)
  }

  /** The cursor a batch hands back. */
  function NextCursor(rows: seq<Item>, after: nat): nat {
    if rows == [] then after else rows[|rows| - 1].id
  }

  lemma CursorReaches(v: map<nat, Command>, sid: nat, after: nat, upto: nat, id: nat)
    requires after < id <= upto && Mine(v, sid, id)
    ensures id <= NextCursor(Rows(v, sid, after, upto), after)
  {
    var rows := Rows(v, sid, after, upto);
    RowsAreTheQuery(v, sid, after, upto);
    assert Item(id, v[id]) in rows;
  }

  lemma CursorIsMax(v: map<nat, Command>, sid: nat, after: nat, upto: nat)
    requires after <= upto
    ensures after <= NextCursor(Rows(v, sid, after, upto), after) <= upto
    ensures forall id | NextCursor(Rows(v, sid, after, upto), after) < id <= upto :: !Mine(v, sid, id)
    ensures var c := NextCursor(Rows(v, sid, after, upto), after); c == after || Mine(v, sid, c)
  {
    var rows := Rows(v, sid, after, upto);
    RowsAreTheQuery(v, sid, after, upto);
    if rows != [] {
      assert rows[|rows| - 1] in rows;
    }
    forall id | after < id <= upto && Mine(v, sid, id) ensures id <= NextCursor(rows, after) {
      CursorReaches(v, sid, after, upto, id);
    }
  }

  // ----- Sync

  /** What one re-check of a long poll reads: the clock, the session's row and the log. */
  datatype View = View(now: int, session: Session, log: Log)

  datatype SyncAnswer = NotFound | Forbidden | Synced(commands: seq<Item>, cursor: nat, ended: bool)

  /** The rows one re-check leaves behind; none once the session is over. */
  function Seen(view: View, sid: nat, after: nat): seq<Item> {
    if IsActive(view.session, view.now) then Rows(view.log.visible, sid, after, view.log.lastId) else []
  }

  predicate Ready(view: View, sid: nat, after: nat) {
    !IsActive(view.session, view.now) || Seen(view, sid, after) != []
  }

  /** The answer built from the last re-check; the session can still expire before it is built. */
  function Answer(view: View, sid: nat, after: nat, answeredAt: int): SyncAnswer {
    if !IsActive(view.session, answeredAt) then Synced([], after, true)
    else Synced(Seen(view, sid, after), NextCursor(Seen(view, sid, after), after), false)
  }

  /** An answer with commands is never marked ended, and one marked ended leaves the cursor alone. */
  lemma AnswerShape(view: View, sid: nat, after: nat, answeredAt: int)
    requires view.now <= answeredAt
    ensures var r := Answer(view, sid, after, answeredAt);
            && (r.ended ==> r.commands == [] && r.cursor == after)
            && (!r.ended ==> IsActive(view.session, view.now)
                             && r.commands == Rows(view.log.visible, sid, after, view.log.lastId))
            && (r.commands == [] <==> r.cursor == after)
  {
    RowsAreTheQuery(view.log.visible, sid, after, view.log.lastId);
    var rows := Rows(view.log.visible, sid, after, view.log.lastId);
    if rows != [] {
      assert rows[|rows| - 1] in rows;
    }
  }

  /** Neither ended nor past its time. */
  predicate On(js: Session, now: int) { js.endedAt == None && js.expiresAt > now }

  /** The view shows a command of the session beyond the cursor. */
  ghost predicate HasNews(view: View, sid: nat, after: nat) {
    exists id | after < id <= view.log.lastId :: id in view.log.visible && view.log.visible[id].session == sid
  }

  /** `cursor` is the greatest id of the session's readable commands, 0 if there are none. */
  ghost predicate IsLatest(cursor: nat, g: Log, sid: nat) {
    && (cursor == 0 || (cursor in g.visible && g.visible[cursor].session == sid))
    && forall id | id in g.visible && g.visible[id].session == sid :: id <= cursor
  }

  lemma MaxIdIsLatest(g: Log, sid: nat)
    requires GoodLog(g)
    ensures IsLatest(MaxId(g.visible, sid, g.lastId), g, sid)
  {
    var m := MaxId(g.visible, sid, g.lastId);
    forall id | id in g.visible && g.visible[id].session == sid ensures id <= m {
      assert Mine(g.visible, sid, id);
    }
  }

  /** The answer from a view: nothing and the old cursor once the session is over; otherwise every readable command
      of the session beyond the cursor, in id order, and the last of their ids as the new cursor. */
  ghost predicate TellsFrom(r: SyncAnswer, view: View, sid: nat, after: nat, answeredAt: int) {
    && r.Synced?
    && (r.ended <==> !On(view.session, answeredAt))
    && (r.ended ==> r.commands == [] && r.cursor == after)
    && (!r.ended && On(view.session, view.now) ==>
          && Ascending(r.commands)
          && (forall x :: x in r.commands <==>
                after < x.id <= view.log.lastId && x.id in view.log.visible && view.log.visible[x.id] == x.command
                && x.command.session == sid)
          && r.cursor == if r.commands == [] then after else r.commands[|r.commands| - 1].id)
  }

  lemma AnswerTells(view: View, sid: nat, after: nat, answeredAt: int)
    ensures TellsFrom(Answer(view, sid, after, answeredAt), view, sid, after, answeredAt)
  {
    RowsAreTheQuery(view.log.visible, sid, after, view.log.lastId);
  }

  lemma NewsIsInRows(view: View, sid: nat, after: nat, id: nat)
    requires after < id <= view.log.lastId && id in view.log.visible && view.log.visible[id].session == sid
    ensures Rows(view.log.visible, sid, after, view.log.lastId) != []
  {
    RowsAreTheQuery(view.log.visible, sid, after, view.log.lastId);
    assert Item(id, view.log.visible[id]) in Rows(view.log.visible, sid, after, view.log.lastId);
  }

  lemma RowsAreNews(view: View, sid: nat, after: nat)
    ensures Rows(view.log.visible, sid, after, view.log.lastId) != [] ==> HasNews(view, sid, after)
  {
    var rows := Rows(view.log.visible, sid, after, view.log.lastId);
    RowsAreTheQuery(view.log.visible, sid, after, view.log.lastId);
    if rows != [] {
      var x := rows[0];
      assert x in rows;
      assert after < x.id <= view.log.lastId && x.id in view.log.visible;
    }
  }

  lemma ReadyMeans(view: View, sid: nat, after: nat)
    ensures Ready(view, sid, after) <==> !On(view.session, view.now) || HasNews(view, sid, after)
  {
    RowsAreNews(view, sid, after);
    if id :| after < id <= view.log.lastId && id in view.log.visible && view.log.visible[id].session == sid {
      NewsIsInRows(view, sid, after, id);
    }
  }

  lemma ReadyMeansAll(views: seq<View>, sid: nat, after: nat)
    ensures forall k | 0 <= k < |views| ::
              Ready(views[k], sid, after) <==> !On(views[k].session, views[k].now) || HasNews(views[k], sid, after)
  {
    forall k | 0 <= k < |views|
      ensures Ready(views[k], sid, after) <==> !On(views[k].session, views[k].now) || HasNews(views[k], sid, after)
    {
      ReadyMeans(views[k], sid, after);
    }
  }

  datatype JoinAnswer = NoSession | OwnSession | Joined(sid: nat, host: nat, expiresAt: int)

  class Relay {
    var sessions: Sessions
    var log: Log

    constructor ()
      ensures Valid() && sessions == map[] && log == Log(0, map[], map[])
    {
      sessions := map[];
      log := Log(0, map[], map[]);
    }

    ghost predicate Valid()
      reads this
    {
      UniqueCodes(sessions) && OnePerHost(sessions) && GoodLog(log)
    }

    /** `create_session`, given the codes it draws: the first one no live session holds wins; when all are
        held the whole transaction is undone, so the host's old session stays live. */
    method CreateSession(host: nat, sid: nat, codes: seq<string>, now: int) returns (code: Option<string>)
      requires Valid() && sid !in sessions && |codes| == CODE_TRIES
      modifies this`sessions
      ensures Valid()
      ensures code.None? <==> forall k | 0 <= k < |codes| :: HeldByOther(old(sessions), host, codes[k])
      ensures code.None? ==> sessions == old(sessions)
      ensures code.Some? ==> CreatedFor(old(sessions), sessions, host, sid, code.value, now)
      ensures code.Some? ==> exists k :: 0 <= k < |codes| && codes[k] == code.value
                                         && !HeldByOther(old(sessions), host, codes[k])
                                         && forall j | 0 <= j < k :: HeldByOther(old(sessions), host, codes[j])
    {
      var before := sessions;
      forall k | 0 <= k < |codes|
        ensures Taken(EndHosted(before, host, now), codes[k]) <==> HeldByOther(before, host, codes[k])
      {
        CreateMeans(before, host, sid, codes[k], now);
      }
      sessions := EndHosted(sessions, host, now);
      var i := 0;
      while i < |codes|
        invariant 0 <= i <= |codes|
        invariant sessions == EndHosted(before, host, now) && before == old(sessions)
        invariant forall j | 0 <= j < i :: Taken(sessions, codes[j])
      {
        if !Taken(sessions, codes[i]) {
          CreateKeeps(before, host, sid, codes[i], now);
          CreateMeans(before, host, sid, codes[i], now);
          sessions := sessions[sid := Opened(host, codes[i], now)];
          return Some(codes[i]);
        }
        i := i + 1;
      }
      sessions := before;
      return None;
    }

    /** `end_session`: a second call keeps the first end time. */
    method EndSession(sid: nat, user: nat, now: int) returns (ok: bool)
      requires Valid()
      modifies this`sessions
      ensures Valid()
      ensures ok <==> sid in old(sessions) && old(sessions)[sid].host == user
      ensures sessions == if ok && old(sessions)[sid].endedAt == None
                          then old(sessions)[sid := old(sessions)[sid].(endedAt := Some(now))]
                          else old(sessions)
    {
      ok := sid in sessions && sessions[sid].host == user;
      if ok && sessions[sid].endedAt.None? {
        sessions := sessions[sid := sessions[sid].(endedAt := Some(now))];
      }
    }

    /** `join_session`; `norm` is the strip-and-upper of the typed code. The one active session with that
        code, if there is one, and a host cannot join its own. */
    method JoinSession(typed: string, norm: string -> string, user: nat, now: int) returns (r: JoinAnswer)
      requires Valid()
      ensures r.NoSession? <==>
              forall i | i in sessions && sessions[i].endedAt == None && sessions[i].expiresAt > now ::
                sessions[i].code != norm(typed)
      ensures forall i | i in sessions && sessions[i].endedAt == None && sessions[i].expiresAt > now
                         && sessions[i].code == norm(typed) ::
                r == if sessions[i].host == user then OwnSession else Joined(i, sessions[i].host, sessions[i].expiresAt)
    {
      var found := set i | i in sessions && IsActive(sessions[i], now) && sessions[i].code == norm(typed);
      assert forall i | i in sessions && IsActive(sessions[i], now) && sessions[i].code == norm(typed) :: i in found;
      if found == {} {
        return NoSession;
      }
      var sid :| sid in found;
      if sessions[sid].host == user {
        return OwnSession;
      }
      return Joined(sid, sessions[sid].host, sessions[sid].expiresAt);
    }

    /** `send_command` up to its flush; the row is readable only after the commit. `sentAt` is when the
        session was seen active. */
    method SendCommand(sid: nat, sender: nat, body: string, now: int) returns (id: Option<nat>)
      requires Valid()
      modifies this`log
      ensures Valid()
      ensures id.Some? <==> sid in sessions && sessions[sid].endedAt == None && sessions[sid].expiresAt > now
      ensures id.None? ==> log == old(log)
      ensures id.Some? ==> id.value == old(log).lastId + 1
                           && log == Log(id.value, old(log).pending[id.value := Command(sid, sender, body, now)],
                                         old(log).visible)
    {
      if sid !in sessions || !IsActive(sessions[sid], now) {
        return None;
      }
      var cmd := Command(sid, sender, body, now);
      log := log.(lastId := log.lastId + 1, pending := log.pending[log.lastId + 1 := cmd]);
      return Some(log.lastId);
    }

    /** `push_state`: only the host, and only while the session is active. */
    method PushState(sid: nat, user: nat, snapshot: string, now: int) returns (ok: bool)
      requires Valid()
      modifies this`sessions
      ensures Valid()
      ensures ok <==> sid in old(sessions) && old(sessions)[sid].host == user
      ensures sessions == if ok && old(sessions)[sid].endedAt == None && old(sessions)[sid].expiresAt > now
                          then old(sessions)[sid := old(sessions)[sid].(state := Some(snapshot), stateAt := Some(now))]
                          else old(sessions)
    {
      ok := sid in sessions && sessions[sid].host == user;
      if ok && IsActive(sessions[sid], now) {
        sessions := sessions[sid := sessions[sid].(state := Some(snapshot), stateAt := Some(now))];
      }
    }

    /** `host_sync`. `views` is what the database shows at each re-check, the last one being the first at or
        after the deadline; the loop stops there or as soon as there is something to tell. */
    method HostSync(sid: nat, user: nat, snapshot: Option<string>, after: Option<nat>, now: int, views: seq<View>,
                    answeredAt: int)
      returns (r: SyncAnswer, checks: nat)
      requires Valid() && views != []
      modifies this`sessions
      ensures Valid()
      ensures r.NotFound? <==> sid !in old(sessions)
      ensures r.Forbidden? <==> sid in old(sessions) && old(sessions)[sid].host != user
      ensures sessions == if r.Synced? && On(old(sessions)[sid], now) && snapshot.Some?
                          then old(sessions)[sid := old(sessions)[sid].(state := snapshot, stateAt := Some(now))]
                          else old(sessions)
      ensures r.Synced? && !On(old(sessions)[sid], now) ==>
                r == Synced([], if after.Some? then after.value else 0, true)
      ensures r.Synced? && On(old(sessions)[sid], now) && after.None? ==>
                r.commands == [] && !r.ended && IsLatest(r.cursor, log, sid)
      ensures r.Synced? && On(old(sessions)[sid], now) && after.Some? ==>
                && 0 < checks <= |views|
                && TellsFrom(r, views[checks - 1], sid, after.value, answeredAt)
                && (forall k | 0 <= k < checks - 1 ::
                      On(views[k].session, views[k].now) && !HasNews(views[k], sid, after.value))
                && (checks < |views| ==>
                      !On(views[checks - 1].session, views[checks - 1].now)
                      || HasNews(views[checks - 1], sid, after.value))
    {
      checks := 0;
      if sid !in sessions {
        return NotFound, 0;
      }
      if sessions[sid].host != user {
        return Forbidden, 0;
      }
      if !IsActive(sessions[sid], now) {
        return Synced([], if after.Some? then after.value else 0, true), 0;
      }
      if snapshot.Some? {
        sessions := sessions[sid := sessions[sid].(state := snapshot, stateAt := Some(now))];
      }
      if after.None? {
        MaxIdIsLatest(log, sid);
        return Synced([], MaxId(log.visible, sid, log.lastId), false), 0;
      }
      var rows: seq<Item> := [];
      var waiting := true;
      while waiting && checks < |views|
        invariant 0 <= checks <= |views|
        invariant checks == 0 ==> waiting
        invariant checks > 0 ==> rows == Seen(views[checks - 1], sid, after.value)
        invariant checks > 0 && !waiting ==> Ready(views[checks - 1], sid, after.value)
        invariant forall k | 0 <= k < checks - (if waiting then 0 else 1) :: !Ready(views[k], sid, after.value)
        decreases |views| - checks
      {
        var view := views[checks];
        if IsActive(view.session, view.now) {
          rows := Rows(view.log.visible, sid, after.value, view.log.lastId);
          waiting := rows == [];
        } else {
          rows := [];
          waiting := false;
        }
        checks := checks + 1;
      }
      ReadyMeansAll(views, sid, after.value);
      AnswerTells(views[checks - 1], sid, after.value, answeredAt);
      if !IsActive(views[checks - 1].session, answeredAt) {
        return Synced([], after.value, true), checks;
      }
      return Synced(rows, NextCursor(rows, after.value), false), checks;
    }
  }
}
