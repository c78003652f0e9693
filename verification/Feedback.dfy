/** Per-user feedback: what is excluded from recommendations and mixes, what counts as recently shown, and the
    endpoints that read and write it. */
module Feedback {
  import opened Wrappers
  import opened Rerank
  import opened RerankExact
  import Jobs
  import Mixes

  /** Seven days, in seconds. */
  const SHOWN_WINDOW := 604800

  /** The title test and the artist key of the re-rank. */
  datatype Config = Config(isAlt: string -> bool, norm: string -> string)

  datatype Row = Row(shown: nat, lastShown: Option<int>, dismissed: Option<int>)

  type Rows = map<(nat, string), Row>

  // ----- user_history

  function Requested(jobs: Jobs.Table, user: nat, urls: set<string>): set<string> {
    set id | id in jobs && jobs[id].user == user && jobs[id].url in urls && jobs[id].state != Jobs.Failed ::
      jobs[id].url
  }

  predicate IsDismissed(rows: Rows, user: nat, url: string) { (user, url) in rows && rows[(user, url)].dismissed.Some? }

  function Dismissed(rows: Rows, user: nat, urls: set<string>): set<string> {
    set u | u in urls && IsDismissed(rows, user, u)
  }

  function RecentlyShown(rows: Rows, user: nat, urls: set<string>, now: int): set<string> {
    set u | u in urls && (user, u) in rows && rows[(user, u)].lastShown.Some?
            && rows[(user, u)].lastShown.value > now - SHOWN_WINDOW
  }

  datatype Kind = ForYou | Mix

  /** What one request reads and picks. A mix leaves the shown rows out of account. */
  function Picks(cfg: Config, jobs: Jobs.Table, rows: Rows, now: int, user: nat, kind: Kind, cands: seq<Track>,
                 limit: int): seq<Track>
  {
    var urls := Urls(cands);
    var excluded := Requested(jobs, user, urls) + Dismissed(rows, user, urls);
    match kind
    case ForYou =>
      Reranked(cands, Filter(excluded, RecentlyShown(rows, user, urls, now), cfg.isAlt),
               Caps(limit, PER_ARTIST, cfg.norm))
    case Mix => Reranked(cands, Filter(excluded, {}, cfg.isAlt), Caps(limit, Mixes.PER_ARTIST, cfg.norm))
  }

  /** Both sets are the user's own, by the rows; for a mix nothing counts as shown. */
  ghost predicate IsHistory(excluded: set<string>, shown: set<string>, jobs: Jobs.Table, rows: Rows, now: int,
                            user: nat, kind: Kind, urls: set<string>)
  {
    && (forall u :: u in excluded <==>
          u in urls && ((exists id :: id in jobs && jobs[id].user == user && jobs[id].url == u
                                      && jobs[id].state != Jobs.Failed)
                        || ((user, u) in rows && rows[(user, u)].dismissed.Some?)))
    && (forall u :: u in shown <==>
          kind == ForYou && u in urls && (user, u) in rows && rows[(user, u)].lastShown.Some?
          && now - rows[(user, u)].lastShown.value < 604800)
  }

  lemma PicksAreReranked(cfg: Config, jobs: Jobs.Table, rows: Rows, now: int, user: nat, kind: Kind,
                         cands: seq<Track>, limit: int, excluded: set<string>, shown: set<string>)
    requires IsHistory(excluded, shown, jobs, rows, now, user, kind, set t | t in cands :: t.url)
    ensures Picks(cfg, jobs, rows, now, user, kind, cands, limit)
            == Reranked(cands, Filter(excluded, shown, cfg.isAlt),
                        Caps(limit, if kind == ForYou then 2 else 3, cfg.norm))
  {
    var urls := Urls(cands);
    assert excluded == Requested(jobs, user, urls) + Dismissed(rows, user, urls);
    assert shown == if kind == ForYou then RecentlyShown(rows, user, urls, now) else {};
  }

  /** What a request answers, from the tables alone: the exact re-rank under the user's history. */
  ghost predicate IsAnswer(tracks: seq<Track>, cfg: Config, jobs: Jobs.Table, rows: Rows, now: int, user: nat,
                           kind: Kind, cands: seq<Track>, limit: int)
  {
    exists excluded, shown ::
      && IsHistory(excluded, shown, jobs, rows, now, user, kind, set t | t in cands :: t.url)
      && IsRerank(tracks, cands, Filter(excluded, shown, cfg.isAlt),
                  Caps(limit, if kind == ForYou then 2 else 3, cfg.norm))
  }

  lemma PicksAreTheAnswer(cfg: Config, jobs: Jobs.Table, rows: Rows, now: int, user: nat, kind: Kind,
                          cands: seq<Track>, limit: int)
    ensures IsAnswer(Picks(cfg, jobs, rows, now, user, kind, cands, limit), cfg, jobs, rows, now, user, kind, cands,
                     limit)
  {
    var urls := Urls(cands);
    var excluded := Requested(jobs, user, urls) + Dismissed(rows, user, urls);
    var shown := if kind == ForYou then RecentlyShown(rows, user, urls, now) else {};
    assert IsHistory(excluded, shown, jobs, rows, now, user, kind, urls);
    PicksAreReranked(cfg, jobs, rows, now, user, kind, cands, limit, excluded, shown);
    RerankIsGreedy(cands, Filter(excluded, shown, cfg.isAlt), Caps(limit, if kind == ForYou then 2 else 3, cfg.norm));
  }

  // ----- The two upserts

  function ShownAgain(rows: Rows, key: (nat, string), now: int): Row {
    if key in rows then rows[key].(shown := rows[key].shown + 1, lastShown := Some(now)) else Row(1, Some(now), None)
  }

  function MarkShown(rows: Rows, user: nat, urls: set<string>, now: int): Rows {
    rows + map u | u in urls :: (user, u) := ShownAgain(rows, (user, u), now)
  }

  /** Exactly the user's rows for `urls` are counted once more and dated. */
  ghost predicate Shown(before: Rows, after: Rows, user: nat, urls: set<string>, now: int) {
    && (forall k :: k in after <==> k in before || (k.0 == user && k.1 in urls))
    && (forall k | k in after ::
          if k.0 == user && k.1 in urls then
            after[k] == (if k in before then Row(before[k].shown + 1, Some(now), before[k].dismissed)
                         else Row(1, Some(now), None))
          else after[k] == before[k])
  }

  lemma MarkShownMeans(rows: Rows, user: nat, urls: set<string>, now: int)
    ensures Shown(rows, MarkShown(rows, user, urls, now), user, urls, now)
  {
  }

  lemma NoneShown(rows: Rows, user: nat, now: int)
    ensures MarkShown(rows, user, {}, now) == rows
  {
  }

  function Dismiss(rows: Rows, user: nat, url: string, now: int): Rows {
    var key := (user, url);
    rows[key := if key in rows then rows[key].(dismissed := Some(now)) else Row(0, None, Some(now))]
  }

  // ----- The endpoints

  class Store {
    var rows: Rows

    constructor ()
      ensures rows == map[]
    {
      rows := map[];
    }

    /** `user_history`: excluded are the candidates with a job of the user's that has not failed and those the
        user dismissed; shown are those shown to the user within the window. No query without candidates. */
    method UserHistory(jobs: Jobs.Table, user: nat, urls: set<string>, now: int)
      returns (excluded: set<string>, shown: set<string>)
      ensures forall u :: u in excluded <==>
                u in urls && ((exists id :: id in jobs && jobs[id].user == user && jobs[id].url == u
                                            && jobs[id].state != Jobs.Failed)
                              || IsDismissed(rows, user, u))
      ensures forall u :: u in shown <==>
                u in urls && (user, u) in rows && rows[(user, u)].lastShown.Some?
                && now - rows[(user, u)].lastShown.value < SHOWN_WINDOW
    {
      if urls == {} {
        return {}, {};
      }
      excluded := Requested(jobs, user, urls) + Dismissed(rows, user, urls);
      shown := RecentlyShown(rows, user, urls, now);
    }

    /** `recommend`, once the engine has answered: the exact re-rank under the user's history. Its tracks are
        counted and dated, each once, and no other row changes. */
    method Recommend(cfg: Config, jobs: Jobs.Table, user: nat, cands: seq<Track>, limit: int, now: int)
      returns (results: seq<Track>)
      modifies this
      ensures IsAnswer(results, cfg, jobs, old(rows), now, user, ForYou, cands, limit)
      ensures results == Picks(cfg, jobs, old(rows), now, user, ForYou, cands, limit)
      ensures rows == MarkShown(old(rows), user, Urls(results), now)
      ensures Shown(old(rows), rows, user, set t | t in results :: t.url, now)
    {
      PicksAreTheAnswer(cfg, jobs, rows, now, user, ForYou, cands, limit);
      var excluded, shown := UserHistory(jobs, user, Urls(cands), now);
      assert excluded == Requested(jobs, user, Urls(cands)) + Dismissed(rows, user, Urls(cands));
      assert shown == RecentlyShown(rows, user, Urls(cands), now);
      results := Rerank.Rerank(cands, Filter(excluded, shown, cfg.isAlt), Caps(limit, PER_ARTIST, cfg.norm));
      MarkShownMeans(rows, user, Urls(results), now);
      NoneShown(rows, user, now);
      if Urls(results) != {} {
        rows := MarkShown(rows, user, Urls(results), now);
      }
    }

    /** `build_mix`, once the builder has answered. */
    method BuildMix(cfg: Config, jobs: Jobs.Table, user: nat, cands: seq<Track>, limit: int, now: int)
      returns (results: seq<Track>)
      ensures IsAnswer(results, cfg, jobs, rows, now, user, Mix, cands, limit)
      ensures results == Picks(cfg, jobs, rows, now, user, Mix, cands, limit)
    {
      PicksAreTheAnswer(cfg, jobs, rows, now, user, Mix, cands, limit);
      var excluded, _ := UserHistory(jobs, user, Urls(cands), now);
      assert excluded == Requested(jobs, user, Urls(cands)) + Dismissed(rows, user, Urls(cands));
      results := Rerank.Rerank(cands, Filter(excluded, {}, cfg.isAlt), Caps(limit, Mixes.PER_ARTIST, cfg.norm));
    }

    /** `recommend_dismiss`. */
    method DismissUrl(user: nat, url: string, now: int)
      modifies this
      ensures rows == Dismiss(old(rows), user, url, now)
      ensures rows == old(rows)[(user, url) := if (user, url) in old(rows)
                                               then Row(old(rows)[(user, url)].shown, old(rows)[(user, url)].lastShown,
                                                        Some(now))
                                               else Row(0, None, Some(now))]
    {
      if (user, url) in rows {
        rows := rows[(user, url) := rows[(user, url)].(dismissed := Some(now))];
      } else {
        rows := rows[(user, url) := Row(0, None, Some(now))];
      }
    }
  }

  // ----- Runs

  /** A request that has read its history. Its transaction began earlier, and that is the time its queries take
      as now; `answeredAt` is when its response, and its shown rows, went out. */
  datatype Request = Request(user: nat, kind: Kind, tracks: seq<Track>, began: int, answeredAt: Option<int>)

  /** `answered` has the answered requests in the order of their responses. */
  datatype Sys = Sys(now: int, jobs: Jobs.Table, rows: Rows, requests: map<nat, Request>, answered: seq<Request>)

  /** The jobs table may change in any way between events. */
  datatype Event =
    | Tick(until: int)
    | JobsChange(jobs: Jobs.Table)
    | Read(h: nat, user: nat, kind: Kind, cands: seq<Track>, limit: int, began: int)
    | Respond(h: nat)
    | Dislike(user: nat, url: string)

  predicate Enabled(s: Sys, e: Event) {
    match e
    case Tick(t) => s.now <= t
    case JobsChange(_) => true
    case Read(h, _, _, _, _, began) => h !in s.requests && began <= s.now
    case Respond(h) => h in s.requests && s.requests[h].answeredAt.None?
    case Dislike(_, _) => true
  }

  function Apply(cfg: Config, s: Sys, e: Event): Sys
    requires Enabled(s, e)
  {
    match e
    case Tick(t) => s.(now := t)
    case JobsChange(jobs) => s.(jobs := jobs)
    case Read(h, user, kind, cands, limit, began) =>
      var tracks := Picks(cfg, s.jobs, s.rows, began, user, kind, cands, limit);
      s.(requests := s.requests[h := Request(user, kind, tracks, began, None)])
    case Respond(h) =>
      var r := s.requests[h].(answeredAt := Some(s.now));
      s.(requests := s.requests[h := r], answered := s.answered + [r],
         rows := if r.kind == ForYou then MarkShown(s.rows, r.user, Urls(r.tracks), r.began) else s.rows)
    case Dislike(user, url) => s.(rows := Dismiss(s.rows, user, url, s.now))
  }

  predicate Possible(cfg: Config, s: Sys, run: seq<Event>)
    decreases |run|, 0
  {
    run == [] || (Possible(cfg, s, run[..|run| - 1]) && Enabled(After(cfg, s, run[..|run| - 1]), run[|run| - 1]))
  }

  function After(cfg: Config, s: Sys, run: seq<Event>): Sys
    requires Possible(cfg, s, run)
    decreases |run|, 1
  {
    if run == [] then s else Apply(cfg, After(cfg, s, run[..|run| - 1]), run[|run| - 1])
  }

  function Init(now: int): Sys { Sys(now, map[], map[], map[], []) }

  /** Time may pass, the jobs change, requests read and users dislike at any time; each request reads once and is
      answered once. */
  lemma EventsAreOpen(cfg: Config, s: Sys, t: int, jobs: Jobs.Table, h: nat, user: nat, kind: Kind,
                      cands: seq<Track>, limit: int, began: int, url: string)
    ensures Enabled(s, JobsChange(jobs)) && Enabled(s, Dislike(user, url))
    ensures Enabled(s, Tick(t)) <==> s.now <= t
    ensures Enabled(s, Read(h, user, kind, cands, limit, began)) <==> h !in s.requests && began <= s.now
    ensures Enabled(s, Respond(h)) <==> h in s.requests && s.requests[h].answeredAt == None
    ensures Apply(cfg, s, JobsChange(jobs)).jobs == jobs && (s.now <= t ==> Apply(cfg, s, Tick(t)).now == t)
  {
  }

  // ----- What a request may contain

  /** Nothing the user has dismissed, or has asked to download and not seen fail, is picked. */
  lemma PicksAreFresh(cfg: Config, jobs: Jobs.Table, rows: Rows, now: int, user: nat, kind: Kind, cands: seq<Track>,
                      limit: int, t: Track)
    requires t in Picks(cfg, jobs, rows, now, user, kind, cands, limit)
    ensures t.url in Urls(cands) && !IsDismissed(rows, user, t.url)
    ensures forall id | id in jobs && jobs[id].user == user && jobs[id].url == t.url :: jobs[id].state == Jobs.Failed
  {
    var urls := Urls(cands);
    var excluded := Requested(jobs, user, urls) + Dismissed(rows, user, urls);
    var f := Filter(excluded, if kind == ForYou then RecentlyShown(rows, user, urls, now) else {}, cfg.isAlt);
    OutputIsFeasible(cands, f, Caps(limit, if kind == ForYou then PER_ARTIST else Mixes.PER_ARTIST, cfg.norm));
    var i := KeptFrom(cands, f, t);
    assert cands[i].url in urls;
    assert t.url !in excluded;
  }

  lemma DismissalStays(cfg: Config, s: Sys, e: Event, user: nat, url: string)
    requires Enabled(s, e) && IsDismissed(s.rows, user, url)
    ensures IsDismissed(Apply(cfg, s, e).rows, user, url)
  {
  }

  lemma DislikeDismisses(cfg: Config, s: Sys, user: nat, url: string)
    ensures IsDismissed(Apply(cfg, s, Dislike(user, url)).rows, user, url)
  {
  }

  /** Dismissal is forever: of all the requests of that user that read their history later in any run, none
      contains the URL, neither For You nor a mix. */
  lemma {:induction false} DismissalIsForever(cfg: Config, s: Sys, run: seq<Event>, user: nat, url: string, h: nat)
    requires Possible(cfg, s, run) && IsDismissed(s.rows, user, url)
    ensures IsDismissed(After(cfg, s, run).rows, user, url)
    ensures h in After(cfg, s, run).requests && h !in s.requests && After(cfg, s, run).requests[h].user == user ==>
              url !in Urls(After(cfg, s, run).requests[h].tracks)
  {
    if run != [] {
      var p, e := After(cfg, s, run[..|run| - 1]), run[|run| - 1];
      DismissalIsForever(cfg, s, run[..|run| - 1], user, url, h);
      DismissalStays(cfg, p, e, user, url);
      if e.Read? && e.h == h && e.user == user {
        ReadAvoids(cfg, p, e, url);
      }
    }
  }

  lemma ReadAvoids(cfg: Config, s: Sys, e: Event, url: string)
    requires e.Read? && Enabled(s, e) && IsDismissed(s.rows, e.user, url)
    ensures url !in Urls(Apply(cfg, s, e).requests[e.h].tracks)
  {
    forall t | t in Apply(cfg, s, e).requests[e.h].tracks ensures t.url != url {
      PicksAreFresh(cfg, s.jobs, s.rows, e.began, e.user, e.kind, e.cands, e.limit, t);
    }
  }

  lemma {:induction false} SplitRun(cfg: Config, s: Sys, a: seq<Event>, b: seq<Event>)
    requires Possible(cfg, s, a + b)
    ensures Possible(cfg, s, a) && Possible(cfg, After(cfg, s, a), b)
    ensures After(cfg, s, a + b) == After(cfg, After(cfg, s, a), b)
  {
    if b == [] {
      assert a + b == a;
    } else {
      var n := |b| - 1;
      assert (a + b)[..|a + b| - 1] == a + b[..n] && (a + b)[|a + b| - 1] == b[n];
      SplitRun(cfg, s, a, b[..n]);
    }
  }

  /** From the first request to the last: once a user has disliked a URL, no request of theirs that reads its
      history after that step contains it, whatever happened before and in between. */
  lemma DislikedNeverReturns(cfg: Config, now: int, before: seq<Event>, after: seq<Event>, user: nat, url: string,
                             h: nat)
    requires Possible(cfg, Init(now), before + [Dislike(user, url)] + after)
    requires h in After(cfg, Init(now), before + [Dislike(user, url)] + after).requests
    requires After(cfg, Init(now), before + [Dislike(user, url)] + after).requests[h].user == user
    ensures Possible(cfg, Init(now), before)
    ensures h !in After(cfg, Init(now), before).requests ==>
              url !in Urls(After(cfg, Init(now), before + [Dislike(user, url)] + after).requests[h].tracks)
  {
    var first := before + [Dislike(user, url)];
    SplitRun(cfg, Init(now), first, after);
    SplitRun(cfg, Init(now), before, [Dislike(user, url)]);
    assert first[..|first| - 1] == before;
    DislikeDismisses(cfg, After(cfg, Init(now), before), user, url);
    DismissalIsForever(cfg, After(cfg, Init(now), first), after, user, url, h);
  }

  /** And only the user's own dismissals do that. */
  lemma {:induction false} DismissedIff(cfg: Config, now: int, run: seq<Event>, user: nat, url: string)
    requires Possible(cfg, Init(now), run)
    ensures IsDismissed(After(cfg, Init(now), run).rows, user, url) <==> Dislike(user, url) in run
  {
    if run != [] {
      var r, e := run[..|run| - 1], run[|run| - 1];
      assert run == r + [e];
      DismissedIff(cfg, now, r, user, url);
      DismissStep(cfg, After(cfg, Init(now), r), e, user, url);
    }
  }

  lemma DismissStep(cfg: Config, s: Sys, e: Event, user: nat, url: string)
    requires Enabled(s, e)
    ensures IsDismissed(Apply(cfg, s, e).rows, user, url) <==> IsDismissed(s.rows, user, url) || e == Dislike(user, url)
  {
  }

  // ----- Other users

  ghost predicate SameRows(a: Rows, b: Rows, user: nat) {
    forall u: string :: ((user, u) in a <==> (user, u) in b) && ((user, u) in a ==> a[(user, u)] == b[(user, u)])
  }

  predicate ActsFor(s: Sys, e: Event, user: nat) {
    match e
    case Respond(h) => h in s.requests && s.requests[h].user == user
    case Dislike(u, _) => u == user
    case _ => false
  }

  /** No step of the run answers or dismisses for `user`. */
  ghost predicate Idle(cfg: Config, s: Sys, run: seq<Event>, user: nat)
    requires Possible(cfg, s, run)
  {
    run == [] || (Idle(cfg, s, run[..|run| - 1], user)
                  && !ActsFor(After(cfg, s, run[..|run| - 1]), run[|run| - 1], user))
  }

  lemma StepForOthers(cfg: Config, s: Sys, e: Event, user: nat)
    requires Enabled(s, e) && !ActsFor(s, e, user)
    ensures SameRows(s.rows, Apply(cfg, s, e).rows, user)
  {
  }

  /** What a user is offered depends on no other user's rows. */
  lemma OwnRowsDecide(cfg: Config, jobs: Jobs.Table, a: Rows, b: Rows, now: int, user: nat, kind: Kind,
                      cands: seq<Track>, limit: int)
    requires SameRows(a, b, user)
    ensures Picks(cfg, jobs, a, now, user, kind, cands, limit) == Picks(cfg, jobs, b, now, user, kind, cands, limit)
  {
    var urls := Urls(cands);
    assert Dismissed(a, user, urls) == Dismissed(b, user, urls);
    assert RecentlyShown(a, user, urls, now) == RecentlyShown(b, user, urls, now);
  }

  /** So whatever other users do in a run, this user is offered the same. */
  lemma {:induction false} OthersChangeNothing(cfg: Config, s: Sys, run: seq<Event>, jobs: Jobs.Table, now: int,
                                               user: nat, kind: Kind, cands: seq<Track>, limit: int)
    requires Possible(cfg, s, run) && Idle(cfg, s, run, user)
    ensures SameRows(s.rows, After(cfg, s, run).rows, user)
    ensures Picks(cfg, jobs, After(cfg, s, run).rows, now, user, kind, cands, limit)
            == Picks(cfg, jobs, s.rows, now, user, kind, cands, limit)
  {
    if run != [] {
      OthersChangeNothing(cfg, s, run[..|run| - 1], jobs, now, user, kind, cands, limit);
      StepForOthers(cfg, After(cfg, s, run[..|run| - 1]), run[|run| - 1], user);
    }
    OwnRowsDecide(cfg, jobs, After(cfg, s, run).rows, s.rows, now, user, kind, cands, limit);
  }

  /** A mix changes only with the user's dismissals and downloads: being shown, in For You or in a mix, does
      not move it. */
  lemma MixIgnoresShown(cfg: Config, jobs: Jobs.Table, a: Rows, b: Rows, now: int, later: int, user: nat,
                        cands: seq<Track>, limit: int)
    requires forall u :: IsDismissed(a, user, u) == IsDismissed(b, user, u)
    ensures Picks(cfg, jobs, a, now, user, Mix, cands, limit) == Picks(cfg, jobs, b, later, user, Mix, cands, limit)
  {
    var urls := Urls(cands);
    assert Dismissed(a, user, urls) == Dismissed(b, user, urls);
  }

  // ----- Counting what was shown

  function ShownCount(rows: Rows, user: nat, url: string): nat {
    if (user, url) in rows then rows[(user, url)].shown else 0
  }

  predicate Showed(r: Request, user: nat, url: string) {
    r.answeredAt.Some? && r.kind == ForYou && r.user == user && url in Urls(r.tracks)
  }

  /** The For You responses to this user that contained the URL. */
  function Shows(s: Sys, user: nat, url: string): set<nat> {
    set h | h in s.requests && Showed(s.requests[h], user, url)
  }

  lemma MarkShownCounts(rows: Rows, shownTo: nat, urls: set<string>, now: int, user: nat, url: string)
    ensures ShownCount(MarkShown(rows, shownTo, urls, now), user, url)
            == ShownCount(rows, user, url) + if user == shownTo && url in urls then 1 else 0
  {
  }

  lemma RespondShows(cfg: Config, s: Sys, h: nat, user: nat, url: string)
    requires Enabled(s, Respond(h))
    ensures var r := s.requests[h];
            |Shows(Apply(cfg, s, Respond(h)), user, url)| == |Shows(s, user, url)|
              + if r.kind == ForYou && r.user == user && url in Urls(r.tracks) then 1 else 0
  {
    var t := Apply(cfg, s, Respond(h));
    if Showed(t.requests[h], user, url) {
      assert Shows(t, user, url) == Shows(s, user, url) + {h};
    } else {
      assert Shows(t, user, url) == Shows(s, user, url);
    }
  }

  lemma RespondCounts(cfg: Config, s: Sys, h: nat, user: nat, url: string)
    requires Enabled(s, Respond(h))
    requires ShownCount(s.rows, user, url) == |Shows(s, user, url)|
    ensures ShownCount(Apply(cfg, s, Respond(h)).rows, user, url) == |Shows(Apply(cfg, s, Respond(h)), user, url)|
  {
    MarkShownCounts(s.rows, s.requests[h].user, Urls(s.requests[h].tracks), s.requests[h].began, user, url);
    RespondShows(cfg, s, h, user, url);
  }

  lemma OthersCount(cfg: Config, s: Sys, e: Event, user: nat, url: string)
    requires Enabled(s, e) && !e.Respond?
    ensures ShownCount(Apply(cfg, s, e).rows, user, url) == ShownCount(s.rows, user, url)
    ensures Shows(Apply(cfg, s, e), user, url) == Shows(s, user, url)
  {
  }

  /** In every run `shown_count` is the number of For You responses, never mixes, that contained the URL. */
  lemma {:induction false} CountIsResponses(cfg: Config, now: int, run: seq<Event>, user: nat, url: string)
    requires Possible(cfg, Init(now), run)
    ensures var s := After(cfg, Init(now), run); ShownCount(s.rows, user, url) == |Shows(s, user, url)|
  {
    if run != [] {
      var p, e := After(cfg, Init(now), run[..|run| - 1]), run[|run| - 1];
      CountIsResponses(cfg, now, run[..|run| - 1], user, url);
      if e.Respond? {
        RespondCounts(cfg, p, e.h, user, url);
      } else {
        OthersCount(cfg, p, e, user, url);
      }
    }
  }

  // ----- The seven days

  function LastShown(rows: Rows, user: nat, url: string): Option<int> {
    if (user, url) in rows then rows[(user, url)].lastShown else None
  }

  /** Of the answered requests `i` is the last that showed this user the URL. */
  predicate LastShow(answered: seq<Request>, i: int, user: nat, url: string) {
    && 0 <= i < |answered| && Showed(answered[i], user, url)
    && forall k | i < k < |answered| :: !Showed(answered[k], user, url)
  }

  /** The time on the row is when the request of the last such response began. */
  ghost predicate LatestShow(s: Sys, user: nat, url: string) {
    match LastShown(s.rows, user, url)
    case None => forall r | r in s.answered :: !Showed(r, user, url)
    case Some(t) => exists i :: LastShow(s.answered, i, user, url) && s.answered[i].began == t
  }

  lemma RespondLatest(cfg: Config, s: Sys, h: nat, user: nat, url: string)
    requires Enabled(s, Respond(h)) && LatestShow(s, user, url)
    ensures LatestShow(Apply(cfg, s, Respond(h)), user, url)
  {
    var t := Apply(cfg, s, Respond(h));
    if Showed(t.requests[h], user, url) {
      assert LastShow(t.answered, |s.answered|, user, url);
    } else if LastShown(s.rows, user, url).Some? {
      var i :| LastShow(s.answered, i, user, url) && s.answered[i].began == LastShown(s.rows, user, url).value;
      assert LastShow(t.answered, i, user, url);
    }
  }

  lemma OthersLatest(cfg: Config, s: Sys, e: Event, user: nat, url: string)
    requires Enabled(s, e) && !e.Respond? && LatestShow(s, user, url)
    ensures LatestShow(Apply(cfg, s, e), user, url)
  {
    assert LastShown(Apply(cfg, s, e).rows, user, url) == LastShown(s.rows, user, url);
  }

  lemma {:induction false} LatestShowKept(cfg: Config, now: int, run: seq<Event>, user: nat, url: string)
    requires Possible(cfg, Init(now), run)
    ensures LatestShow(After(cfg, Init(now), run), user, url)
  {
    if run != [] {
      var p, e := After(cfg, Init(now), run[..|run| - 1]), run[|run| - 1];
      LatestShowKept(cfg, now, run[..|run| - 1], user, url);
      if e.Respond? {
        RespondLatest(cfg, p, e.h, user, url);
      } else {
        OthersLatest(cfg, p, e, user, url);
      }
    }
  }

  /** A request whose transaction began at `at` finds the URL demoted exactly if the last For You response that
      contained it is of a request that began less than seven days earlier. */
  lemma RecentIffShown(cfg: Config, now: int, run: seq<Event>, user: nat, url: string, urls: set<string>, at: int)
    requires Possible(cfg, Init(now), run) && url in urls
    ensures var s := After(cfg, Init(now), run);
            url in RecentlyShown(s.rows, user, urls, at)
            <==> exists i :: LastShow(s.answered, i, user, url) && at - s.answered[i].began < SHOWN_WINDOW
  {
    LatestShowKept(cfg, now, run, user, url);
  }

  /** Shown within seven days of `at`, whichever response it was. */
  ghost predicate ShownWithin(answered: seq<Request>, user: nat, url: string, at: int) {
    exists i | 0 <= i < |answered| :: Showed(answered[i], user, url) && at - answered[i].began < SHOWN_WINDOW
  }

  /** No request that showed the URL began after the one that was answered last. */
  ghost predicate LastBeganLast(answered: seq<Request>, user: nat, url: string) {
    forall i, k | LastShow(answered, i, user, url) && 0 <= k < i && Showed(answered[k], user, url) ::
      answered[k].began <= answered[i].began
  }

  /** Seven days since any showing: the demotion means that at all times exactly if no request that showed the
      URL began after the one that was answered last, whose upsert moved the row back. */
  lemma WindowIff(cfg: Config, now: int, run: seq<Event>, user: nat, url: string)
    requires Possible(cfg, Init(now), run)
    ensures var s := After(cfg, Init(now), run);
            (forall at :: url in RecentlyShown(s.rows, user, {url}, at) <==> ShownWithin(s.answered, user, url, at))
            <==> LastBeganLast(s.answered, user, url)
  {
    var s := After(cfg, Init(now), run);
    LatestShowKept(cfg, now, run, user, url);
    if LastBeganLast(s.answered, user, url) {
      forall at ensures url in RecentlyShown(s.rows, user, {url}, at) <==> ShownWithin(s.answered, user, url, at) {
        SameWindow(s, user, url, at);
      }
    } else {
      var i, k :| LastShow(s.answered, i, user, url) && 0 <= k < i && Showed(s.answered[k], user, url)
                  && s.answered[k].began > s.answered[i].began;
      var at := s.answered[i].began + SHOWN_WINDOW;
      assert ShownWithin(s.answered, user, url, at);
      OneLast(s.answered, user, url, i);
      assert url !in RecentlyShown(s.rows, user, {url}, at);
    }
  }

  lemma OneLast(answered: seq<Request>, user: nat, url: string, i: int)
    requires LastShow(answered, i, user, url)
    ensures forall k | LastShow(answered, k, user, url) :: k == i
  {
  }

  lemma SameWindow(s: Sys, user: nat, url: string, at: int)
    requires LatestShow(s, user, url) && LastBeganLast(s.answered, user, url)
    ensures url in RecentlyShown(s.rows, user, {url}, at) <==> ShownWithin(s.answered, user, url, at)
  {
    if LastShown(s.rows, user, url).Some? {
      var i :| LastShow(s.answered, i, user, url) && s.answered[i].began == LastShown(s.rows, user, url).value;
      assert forall k | 0 <= k < |s.answered| && Showed(s.answered[k], user, url) ::
          k <= i && s.answered[k].began <= s.answered[i].began;
    }
  }

  /** Responses are in the order of their times, and no request is answered before it began. */
  ghost predicate InOrder(s: Sys) {
    && (forall r | r in s.answered :: r.answeredAt.Some? && r.began <= r.answeredAt.value <= s.now)
    && (forall i, k | 0 <= i < k < |s.answered| :: s.answered[i].answeredAt.value <= s.answered[k].answeredAt.value)
    && (forall h | h in s.requests :: s.requests[h].began <= s.now)
  }

  lemma {:induction false} InOrderKept(cfg: Config, now: int, run: seq<Event>)
    requires Possible(cfg, Init(now), run)
    ensures InOrder(After(cfg, Init(now), run))
  {
    if run != [] {
      InOrderKept(cfg, now, run[..|run| - 1]);
      InOrderStep(cfg, After(cfg, Init(now), run[..|run| - 1]), run[|run| - 1]);
    }
  }

  lemma InOrderStep(cfg: Config, s: Sys, e: Event)
    requires Enabled(s, e) && InOrder(s)
    ensures InOrder(Apply(cfg, s, e))
  {
  }

  /** Only a request under way during the whole of another can do so: it began before that one and was answered
      after it. */
  lemma MovedBackByOverlap(cfg: Config, now: int, run: seq<Event>, i: nat, k: nat)
    requires Possible(cfg, Init(now), run)
    requires i < k < |After(cfg, Init(now), run).answered|
    requires After(cfg, Init(now), run).answered[k].began < After(cfg, Init(now), run).answered[i].began
    ensures var a := After(cfg, Init(now), run).answered;
            && a[i].answeredAt.Some? && a[k].answeredAt.Some?
            && a[k].began < a[i].began <= a[i].answeredAt.value <= a[k].answeredAt.value
  {
    InOrderKept(cfg, now, run);
  }

  /** The only candidate is returned. */
  lemma LoneTrack(t: Track, f: Filter, c: Caps)
    requires !Dropped(t, f) && c.perArtist >= 1
    ensures Urls(Reranked([t], f, c)) == {t.url}
  {
    var k := Rescored(t, 0, f);
    assert [t][..0] == [];
    assert Kept([], f) == [];
    assert Kept([t], f) == [k];
    RankedIsKept([t], f);
    assert |Ranked([t], f)| == |multiset(Ranked([t], f))| == 1 && Ranked([t], f)[0] in Ranked([t], f);
    assert Ranked([t], f) == [k];
    assert [k][..0] == [];
    assert Pick([], c) == [];
    assert Pick([k], c) == [k];
  }

  lemma LonePick(cfg: Config, began: int, user: nat, t: Track, limit: int)
    requires !cfg.isAlt(t.title)
    ensures Urls(Picks(cfg, map[], map[], began, user, ForYou, [t], limit)) == {t.url}
  {
    LoneTrack(t, Filter({}, {}, cfg.isAlt), Caps(limit, PER_ARTIST, cfg.norm));
    assert Requested(map[], user, Urls([t])) + Dismissed(map[], user, Urls([t])) == {};
    assert RecentlyShown(map[], user, Urls([t]), began) == {};
  }

  lemma Extend(cfg: Config, s: Sys, run: seq<Event>, e: Event) returns (longer: seq<Event>)
    requires Possible(cfg, s, run) && Enabled(After(cfg, s, run), e)
    ensures longer == run + [e] && Possible(cfg, s, longer)
    ensures After(cfg, s, longer) == Apply(cfg, After(cfg, s, run), e)
  {
    longer := run + [e];
    assert longer[..|longer| - 1] == run;
  }

  /** It happens: two requests for the same track overlap and the one that began ten seconds earlier is answered
      last. For the ten seconds before the later showing is seven days old the track is not demoted. */
  lemma RowCanMoveBack(cfg: Config, user: nat, t: Track, limit: int) returns (run: seq<Event>)
    requires !cfg.isAlt(t.title)
    ensures Possible(cfg, Init(0), run) && !LastBeganLast(After(cfg, Init(0), run).answered, user, t.url)
  {
    LonePick(cfg, 0, user, t, limit);
    LonePick(cfg, 10, user, t, limit);
    run := Extend(cfg, Init(0), [], Tick(10));
    run := Extend(cfg, Init(0), run, Read(1, user, ForYou, [t], limit, 0));
    run := Extend(cfg, Init(0), run, Read(2, user, ForYou, [t], limit, 10));
    run := Extend(cfg, Init(0), run, Respond(2));
    run := Extend(cfg, Init(0), run, Respond(1));
    var answered := After(cfg, Init(0), run).answered;
    assert Showed(answered[0], user, t.url) && LastShow(answered, 1, user, t.url);
  }

  // ----- What that does to an answer

  /** Shown to the user less than seven days before `at`, by the last response that contained it. */
  ghost predicate Lately(s: Sys, user: nat, url: string, at: int) {
    exists i :: LastShow(s.answered, i, user, url) && at - s.answered[i].began < 604800
  }

  /** The user has no job for it that has not failed. */
  ghost predicate NotRequested(jobs: Jobs.Table, user: nat, url: string) {
    forall id | id in jobs && jobs[id].user == user && jobs[id].url == url :: jobs[id].state == Jobs.Failed
  }

  /** Requests in runs: of two tracks that the user neither dismissed in the run nor has asked to download, For
      You at a limit of one gives the one with the greater score, where three tenths of the engine's score
      counts for a track shown lately, and the first of the two if they score the same. */
  lemma ShownIsDemoted(cfg: Config, now: int, run: seq<Event>, user: nat, h: nat, a: Track, b: Track, began: int)
    requires Possible(cfg, Init(now), run) && h !in After(cfg, Init(now), run).requests
    requires began <= After(cfg, Init(now), run).now
    requires a.score.Some? && b.score.Some? && !cfg.isAlt(a.title) && !cfg.isAlt(b.title)
    requires NotRequested(After(cfg, Init(now), run).jobs, user, a.url) && Dislike(user, a.url) !in run
    requires NotRequested(After(cfg, Init(now), run).jobs, user, b.url) && Dislike(user, b.url) !in run
    ensures var s := After(cfg, Init(now), run);
            var x := if Lately(s, user, a.url, began) then a.score.value * 0.3 else a.score.value;
            var y := if Lately(s, user, b.url, began) then b.score.value * 0.3 else b.score.value;
            Enabled(s, Read(h, user, ForYou, [a, b], 1, began))
            && Apply(cfg, s, Read(h, user, ForYou, [a, b], 1, began)).requests[h].tracks
               == [if y > x then b.(score := Some(y)) else a.(score := Some(x))]
  {
    var s := After(cfg, Init(now), run);
    var urls := {a.url, b.url};
    RecentIffShown(cfg, now, run, user, a.url, urls, began);
    RecentIffShown(cfg, now, run, user, b.url, urls, began);
    DismissedIff(cfg, now, run, user, a.url);
    DismissedIff(cfg, now, run, user, b.url);
    FreshPair(cfg, s, user, a, b, began);
  }

  lemma FreshPair(cfg: Config, s: Sys, user: nat, a: Track, b: Track, began: int)
    requires a.score.Some? && b.score.Some? && !cfg.isAlt(a.title) && !cfg.isAlt(b.title)
    requires NotRequested(s.jobs, user, a.url) && !IsDismissed(s.rows, user, a.url)
    requires NotRequested(s.jobs, user, b.url) && !IsDismissed(s.rows, user, b.url)
    ensures var shown := RecentlyShown(s.rows, user, {a.url, b.url}, began);
            var x := if a.url in shown then a.score.value * 0.3 else a.score.value;
            var y := if b.url in shown then b.score.value * 0.3 else b.score.value;
            Picks(cfg, s.jobs, s.rows, began, user, ForYou, [a, b], 1)
            == [if y > x then b.(score := Some(y)) else a.(score := Some(x))]
  {
    var shown := RecentlyShown(s.rows, user, {a.url, b.url}, began);
    assert IsHistory({}, shown, s.jobs, s.rows, began, user, ForYou, {a.url, b.url});
    assert (set t | t in [a, b] :: t.url) == {a.url, b.url};
    PicksAreReranked(cfg, s.jobs, s.rows, began, user, ForYou, [a, b], 1, {}, shown);
    PairReranked(a, b, Filter({}, shown, cfg.isAlt), Caps(1, 2, cfg.norm));
  }

  lemma PairReranked(a: Track, b: Track, f: Filter, c: Caps)
    requires a.score.Some? && b.score.Some? && !f.isAlt(a.title) && !f.isAlt(b.title) && f.excluded == {}
    requires c.limit <= 1 && c.perArtist >= 1
    ensures var x := if a.url in f.shown then a.score.value * 0.3 else a.score.value;
            var y := if b.url in f.shown then b.score.value * 0.3 else b.score.value;
            Reranked([a, b], f, c) == [if y > x then b.(score := Some(y)) else a.(score := Some(x))]
  {
    BetterOfTwo(a, b, f, c);
  }
}
