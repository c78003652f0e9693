/** The `jobs` table: its rows, the partial unique index, and the statements that change it.

    Each function gives the table after one SQL statement; the class carries the table and runs the
    statements in place. Row ids and times come from outside.
 */
module Jobs {
  import opened Wrappers

  type JobId = nat
  type UserId = nat
  type EpisodeId = nat
  type Url = string

  datatype JobState = Queued | Running | Done | Failed

  datatype Kind = Song | Album | Playlist | Episode

  /** One row. `token` and `display_name` play no part in the state machine. */
  datatype Job = Job(user: UserId, url: Url, kind: Kind, state: JobState, error: Option<string>, attempts: nat,
                     startedAt: Option<int>, finishedAt: Option<int>, episode: Option<EpisodeId>)
  {
    predicate Active() { state == Queued || state == Running }

    function Key(): (UserId, Url) { (user, url) }
  }

  type Table = map<JobId, Job>

  function NewRow(user: UserId, url: Url, kind: Kind, episode: Option<EpisodeId>): Job {
    Job(user, url, kind, Queued, None, 0, None, None, episode)
  }

  // ----- Lookups

  function ActiveFor(t: Table, key: (UserId, Url)): set<JobId> {
    set id | id in t && t[id].Active() && t[id].Key() == key
  }

  function ActiveForUrl(t: Table, url: Url): set<JobId> {
    set id | id in t && t[id].Active() && t[id].url == url
  }

  /** The partial unique index on (user_id, source_url) over queued and running rows. */
  ghost predicate UniqueActive(t: Table) {
    forall a, b | a in t && b in t && t[a].Active() && t[b].Active() && t[a].Key() == t[b].Key() :: a == b
  }

  /** `scalar_one_or_none`. */
  datatype Found = NoRow | OneRow(id: JobId) | ManyRows

  ghost predicate Answers(found: Found, ids: set<JobId>) {
    match found
    case NoRow => ids == {}
    case OneRow(id) => ids == {id}
    case ManyRows => |ids| > 1
  }

  // ----- Statements

  predicate CanInsert(t: Table, id: JobId, row: Job) { id !in t && ActiveFor(t, row.Key()) == {} }

  function Insert(t: Table, id: JobId, row: Job): Table { t[id := row] }

  /** The row would point at a deleted episode. */
  predicate Dangling(episode: Option<EpisodeId>, gone: set<EpisodeId>) { episode.Some? && episode.value in gone }

  /** `mark_running`: UPDATE ... WHERE state = 'queued'. */
  predicate CanClaim(t: Table, id: JobId) { id in t && t[id].state == Queued }

  function Claim(t: Table, id: JobId, now: int): Table {
    if CanClaim(t, id) then t[id := t[id].(state := Running, startedAt := Some(now))] else t
  }

  /** `mark_done`: UPDATE ... WHERE state = 'running'. */
  predicate CanFinish(t: Table, id: JobId) { id in t && t[id].state == Running }

  function Finish(t: Table, id: JobId, now: int): Table {
    if CanFinish(t, id) then t[id := t[id].(state := Done, finishedAt := Some(now))] else t
  }

  /** `mark_failed`: UPDATE ... WHERE state IN ('queued', 'running'). */
  predicate CanFail(t: Table, id: JobId) { id in t && t[id].Active() }

  function Fail(t: Table, id: JobId, now: int, msg: string): Table {
    if CanFail(t, id) then t[id := t[id].(state := Failed, finishedAt := Some(now), error := Some(msg))] else t
  }

  const ORPHANED := "orphaned at boot"

  function RunningIds(t: Table): set<JobId> { set id | id in t && t[id].state == Running }

  /** `recover_orphaned_jobs`: one UPDATE over every running row. */
  function Recover(t: Table, now: int): Table {
    map id | id in t ::
      if t[id].state == Running then t[id].(state := Failed, finishedAt := Some(now), error := Some(ORPHANED))
      else t[id]
  }

  /** `retry_job` goes ahead only for a failed row with no active job on its URL, whoever owns it. */
  predicate CanRequeue(t: Table, id: JobId) { id in t && t[id].state == Failed && ActiveForUrl(t, t[id].url) == {} }

  function Requeue(t: Table, id: JobId): Table
    requires id in t
  {
    t[id := t[id].(state := Queued, error := None, startedAt := None, finishedAt := None,
                   attempts := t[id].attempts + 1)]
  }

  /** ON DELETE SET NULL on `episode_id`. */
  function DropEpisode(t: Table, ep: EpisodeId): Table {
    map id | id in t :: if t[id].episode == Some(ep) then t[id].(episode := None) else t[id]
  }

  // ----- What every statement keeps

  /** Error text exactly on failed rows, finish time exactly on finished ones, start time on every row
      that is running or done, and nothing left over on a queued one. */
  ghost predicate RowShape(j: Job) {
    && (j.error.Some? <==> j.state == Failed)
    && (j.finishedAt.Some? <==> j.state == Done || j.state == Failed)
    && (j.state == Running || j.state == Done ==> j.startedAt.Some?)
    && (j.state == Queued ==> j.startedAt.None?)
  }

  ghost predicate GoodTable(t: Table) {
    UniqueActive(t) && forall id | id in t :: RowShape(t[id])
  }

  lemma LookupSeesAtMostOne(t: Table, key: (UserId, Url))
    requires UniqueActive(t)
    ensures |ActiveFor(t, key)| <= 1
  {
    var ids := ActiveFor(t, key);
    if ids != {} {
      var a :| a in ids;
      assert ids == {a};
    }
  }

  lemma InsertKeeps(t: Table, id: JobId, row: Job)
    requires GoodTable(t) && CanInsert(t, id, row) && row == NewRow(row.user, row.url, row.kind, row.episode)
    ensures GoodTable(Insert(t, id, row))
  {
    assert forall b | b in t && t[b].Active() && t[b].Key() == row.Key() :: b in ActiveFor(t, row.Key());
  }

  lemma ClaimKeeps(t: Table, id: JobId, now: int)
    requires GoodTable(t)
    ensures GoodTable(Claim(t, id, now))
  {
  }

  lemma FinishKeeps(t: Table, id: JobId, now: int)
    requires GoodTable(t)
    ensures GoodTable(Finish(t, id, now))
  {
  }

  lemma FailKeeps(t: Table, id: JobId, now: int, msg: string)
    requires GoodTable(t)
    ensures GoodTable(Fail(t, id, now, msg))
  {
  }

  lemma RecoverKeeps(t: Table, now: int)
    requires GoodTable(t)
    ensures GoodTable(Recover(t, now))
  {
  }

  lemma RequeueKeeps(t: Table, id: JobId)
    requires GoodTable(t) && CanRequeue(t, id)
    ensures GoodTable(Requeue(t, id))
  {
    assert forall b | b in t && t[b].Active() && t[b].url == t[id].url :: b in ActiveForUrl(t, t[id].url);
  }

  lemma DropEpisodeKeeps(t: Table, ep: EpisodeId)
    requires GoodTable(t)
    ensures GoodTable(DropEpisode(t, ep))
    ensures DropEpisode(t, ep).Keys == t.Keys
    ensures forall id | id in t ::
              DropEpisode(t, ep)[id] == if t[id].episode == Some(ep) then t[id].(episode := None) else t[id]
  {
  }

  /** Recovery fails exactly the running rows, and there is nothing left for a second one. */
  lemma RecoverFacts(t: Table, now: int, later: int)
    ensures RunningIds(Recover(t, now)) == {} && Recover(t, now).Keys == t.Keys
    ensures forall id | id in t && t[id].state != Running :: Recover(t, now)[id] == t[id]
    ensures forall id | id in t && t[id].state == Running ::
              Recover(t, now)[id] == t[id].(state := Failed, finishedAt := Some(now), error := Some("orphaned at boot"))
    ensures Recover(Recover(t, now), later) == Recover(t, now)
  {
  }

  /** Row `id` is what a lookup by URL, and by user if one is given, looks for. */
  predicate Hit(t: Table, id: JobId, url: Url, user: Option<UserId>) {
    && id in t && t[id].url == url && (t[id].state == Queued || t[id].state == Running)
    && (user.Some? ==> t[id].user == user.value)
  }

  lemma HitMeans(t: Table, url: Url, user: Option<UserId>, ids: set<JobId>)
    requires ids == if user.Some? then ActiveFor(t, (user.value, url)) else ActiveForUrl(t, url)
    ensures forall id :: Hit(t, id, url, user) <==> id in ids
    ensures (forall id :: !Hit(t, id, url, user)) <==> ids == {}
  {
    forall id ensures Hit(t, id, url, user) <==> id in ids {
      if user.Some? {
        assert id in t ==> (t[id].Key() == (user.value, url) <==> t[id].user == user.value && t[id].url == url);
      }
    }
    if ids != {} {
      var id :| id in ids;
      assert Hit(t, id, url, user);
    }
  }

  // ----- The service functions

  datatype Creation = Created(id: JobId) | Existing(id: JobId) | Reraised

  datatype RetryAnswer = NotFound | NotFailed | OtherActive | LookupError | Requeued

  class JobTable {
    var rows: Table

    ghost predicate Valid()
      reads this
    {
      GoodTable(rows)
    }

    constructor ()
      ensures Valid() && rows == map[]
    {
      rows := map[];
    }

    /** `find_active_for_url`, scoped to a user or not: the queued or running row with that URL, if there is
        exactly one. */
    method FindActive(url: Url, user: Option<UserId>) returns (found: Found)
      ensures found.NoRow? <==> forall id :: !Hit(rows, id, url, user)
      ensures found.OneRow? ==> forall id :: Hit(rows, id, url, user) <==> id == found.id
      ensures found.ManyRows? ==> exists a, b :: a != b && Hit(rows, a, url, user) && Hit(rows, b, url, user)
      ensures Answers(found, if user.Some? then ActiveFor(rows, (user.value, url)) else ActiveForUrl(rows, url))
    {
      var ids := if user.Some? then ActiveFor(rows, (user.value, url)) else ActiveForUrl(rows, url);
      HitMeans(rows, url, user, ids);
      if ids == {} {
        return NoRow;
      }
      var id :| id in ids;
      if ids == {id} {
        return OneRow(id);
      }
      assert ids == {id} + (ids - {id});
      var more :| more in ids && more != id;
      assert Hit(rows, id, url, user) && Hit(rows, more, url, user);
      return ManyRows;
    }

    /** `begin_nested` plus `flush`: the insert, or an IntegrityError, of the unique index or of the foreign
        key to an episode in `gone`. */
    method TryInsert(id: JobId, row: Job, gone: set<EpisodeId>) returns (ok: bool)
      requires id !in rows
      modifies this
      ensures ok <==> ActiveFor(old(rows), row.Key()) == {} && !Dangling(row.episode, gone)
      ensures ok <==> (forall a :: !Hit(old(rows), a, row.url, Some(row.user)))
                      && (row.episode == None || row.episode.value !in gone)
      ensures rows == if ok then Insert(old(rows), id, row) else old(rows)
      ensures rows == if ok then old(rows)[id := row] else old(rows)
    {
      HitMeans(rows, row.url, Some(row.user), ActiveFor(rows, row.Key()));
      ok := ActiveFor(rows, row.Key()) == {} && !(row.episode.Some? && row.episode.value in gone);
      if ok {
        rows := rows[id := row];
      }
    }

    /** `create_job_idempotent`. Other requests run at its awaits: `atInsert` and `atReread` are the tables
        they leave for the insert and for the second lookup, `gone` the episodes deleted by the time of the
        insert. A returned row is active when it is read, a new row is the only active one for its key, and
        each of the three outcomes happens exactly when the lookups and the insert say so. */
    method CreateIdempotent(id: JobId, user: UserId, url: Url, kind: Kind, episode: Option<EpisodeId>,
                            atInsert: Table, gone: set<EpisodeId>, atReread: Table)
      returns (c: Creation)
      requires Valid() && GoodTable(atInsert) && GoodTable(atReread) && id !in atInsert
      modifies this
      ensures Valid()
      ensures c.Created? ==> c.id == id && ActiveFor(rows, (user, url)) == {id}
                             && rows == atInsert[id := Job(user, url, kind, Queued, None, 0, None, None, episode)]
      ensures c.Existing? ==> ActiveFor(rows, (user, url)) == {c.id} && (rows == old(rows) || rows == atReread)
      ensures c.Reraised? ==> rows == atReread
      ensures c.Created? <==>
              && ActiveFor(old(rows), (user, url)) == {} && ActiveFor(atInsert, (user, url)) == {}
              && !Dangling(episode, gone)
      ensures c.Reraised? <==>
              && ActiveFor(old(rows), (user, url)) == {} && ActiveFor(atReread, (user, url)) == {}
              && (ActiveFor(atInsert, (user, url)) != {} || Dangling(episode, gone))
      ensures ActiveFor(old(rows), (user, url)) != {} ==> rows == old(rows)
    {
      LookupSeesAtMostOne(rows, (user, url));
      var existing := FindActive(url, Some(user));
      if existing.OneRow? {
        return Existing(existing.id);
      }
      rows := atInsert;
      var row := NewRow(user, url, kind, episode);
      var ok := TryInsert(id, row, gone);
      if !ok {
        rows := atReread;
        LookupSeesAtMostOne(rows, (user, url));
        existing := FindActive(url, Some(user));
        if existing.NoRow? {
          return Reraised;
        }
        return Existing(existing.id);
      }
      InsertKeeps(atInsert, id, row);
      return Created(id);
    }

    method MarkRunning(id: JobId, now: int) returns (ok: bool)
      requires Valid()
      modifies this
      ensures Valid()
      ensures ok <==> CanClaim(old(rows), id)
      ensures ok <==> id in old(rows) && old(rows)[id].state == Queued
      ensures rows == Claim(old(rows), id, now)
      ensures rows == if ok then old(rows)[id := old(rows)[id].(state := Running, startedAt := Some(now))]
                      else old(rows)
    {
      ClaimKeeps(rows, id, now);
      ok := id in rows && rows[id].state == Queued;
      if ok {
        rows := rows[id := rows[id].(state := Running, startedAt := Some(now))];
      }
    }

    method MarkDone(id: JobId, now: int) returns (ok: bool)
      requires Valid()
      modifies this
      ensures Valid()
      ensures ok <==> CanFinish(old(rows), id)
      ensures ok <==> id in old(rows) && old(rows)[id].state == Running
      ensures rows == Finish(old(rows), id, now)
      ensures rows == if ok then old(rows)[id := old(rows)[id].(state := Done, finishedAt := Some(now))] else old(rows)
    {
      FinishKeeps(rows, id, now);
      ok := id in rows && rows[id].state == Running;
      if ok {
        rows := rows[id := rows[id].(state := Done, finishedAt := Some(now))];
      }
    }

    method MarkFailed(id: JobId, now: int, msg: string) returns (ok: bool)
      requires Valid()
      modifies this
      ensures Valid()
      ensures ok <==> CanFail(old(rows), id)
      ensures ok <==> id in old(rows) && (old(rows)[id].state == Queued || old(rows)[id].state == Running)
      ensures rows == Fail(old(rows), id, now, msg)
      ensures rows == if ok
                      then old(rows)[id := old(rows)[id].(state := Failed, finishedAt := Some(now), error := Some(msg))]
                      else old(rows)
    {
      FailKeeps(rows, id, now, msg);
      ok := id in rows && (rows[id].state == Queued || rows[id].state == Running);
      if ok {
        rows := rows[id := rows[id].(state := Failed, finishedAt := Some(now), error := Some(msg))];
      }
    }

    /** `recover_orphaned_jobs`: running rows fail, no others change, and their number is returned. */
    method RecoverOrphaned(now: int) returns (count: nat)
      requires Valid()
      modifies this
      ensures Valid()
      ensures rows == Recover(old(rows), now)
      ensures rows.Keys == old(rows).Keys
      ensures forall id | id in rows ::
                rows[id] == if old(rows)[id].state == Running
                            then old(rows)[id].(state := Failed, finishedAt := Some(now),
                                                error := Some("orphaned at boot"))
                            else old(rows)[id]
      ensures count == |set id | id in old(rows) && old(rows)[id].state == Running|
    {
      RecoverKeeps(rows, now);
      count := |RunningIds(rows)|;
      assert RunningIds(rows) == set id | id in old(rows) && old(rows)[id].state == Running;
      rows := Recover(rows, now);
    }

    /** `retry_job`, as one step: a failed row with no queued or running row on its URL, whoever owns that. */
    method Retry(id: JobId) returns (answer: RetryAnswer)
      requires Valid()
      modifies this
      ensures Valid()
      ensures answer == Requeued <==> CanRequeue(old(rows), id)
      ensures answer == Requeued <==>
              && id in old(rows) && old(rows)[id].state == Failed
              && forall a :: !Hit(old(rows), a, old(rows)[id].url, None)
      ensures answer == Requeued ==> rows == Requeue(old(rows), id)
      ensures answer == Requeued ==>
                rows == old(rows)[id := Job(old(rows)[id].user, old(rows)[id].url, old(rows)[id].kind, Queued, None,
                                            old(rows)[id].attempts + 1, None, None, old(rows)[id].episode)]
      ensures answer != Requeued ==> rows == old(rows)
      ensures answer == NotFound <==> id !in old(rows)
      ensures answer == NotFailed <==> id in old(rows) && old(rows)[id].state != Failed
      ensures answer == LookupError <==>
              id in old(rows) && old(rows)[id].state == Failed && |ActiveForUrl(old(rows), old(rows)[id].url)| > 1
    {
      if id !in rows {
        return NotFound;
      }
      if rows[id].state != Failed {
        return NotFailed;
      }
      HitMeans(rows, rows[id].url, None, ActiveForUrl(rows, rows[id].url));
      var other := FindActive(rows[id].url, None);
      if other.ManyRows? {
        return LookupError;
      }
      if other.OneRow? && other.id != id {
        return OtherActive;
      }
      RequeueKeeps(rows, id);
      rows := Requeue(rows, id);
      return Requeued;
    }
  }
}
