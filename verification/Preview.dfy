/** The preview proxy: bounded upstream fetches stitched into one response (section 14.1.2 of RFC 9110).

    The upstream is a function from the range asked for to its reply, so it may fail anywhere, answer the
    wrong bytes or break off in the middle of a body.
 */
module Preview {
  import opened Wrappers
  import opened Decimal
  import opened Chunks

  const CHUNK := 1048576

  /** One upstream answer. `total` is the number after the slash of its Content-Range, if there is one; a
      `broken` body stops with an error after its chunks. */
  datatype Reply = Failed | Reply(status: nat, total: Option<int>, chunks: seq<Bytes>, broken: bool)

  type Upstream = (int, int) -> Reply

  /** `_open_chunk`: anything but a 206 counts as a failure. */
  function Open(up: Upstream, first: int, last: int): Option<Reply> {
    var r := up(first, last);
    if r.Reply? && r.status == 206 then Some(r) else None
  }

  // ----- The range asked for

  /** `bytes=(\d+)-(\d*)$`; the dollar also matches before one last line feed. */
  function MatchRange(h: string): (g: Spec)
    ensures g.Groups? ==> AllDigits(g.first) && AllDigits(g.last)
  {
    var g := MatchBytes(h);
    if g.Groups? && g.first != [] && (g.rest == [] || g.rest == "\n") then g else NoMatch
  }

  function Start(g: Spec): nat
    requires g.Groups? ==> AllDigits(g.first)
  {
    if g.Groups? then ParseNat(g.first) else 0
  }

  function WantEnd(g: Spec): Option<nat>
    requires g.Groups? ==> AllDigits(g.last)
  {
    if g.Groups? && g.last != [] then Some(ParseNat(g.last)) else None
  }

  /** The last position of the first fetch, made before the total is known. */
  function FirstEnd(start: nat, want: Option<nat>): int {
    if want.Some? && want.value < start + CHUNK - 1 then want.value else start + CHUNK - 1
  }

  /** The last position of the response. */
  function LastEnd(total: int, want: Option<nat>): int {
    if want.Some? && want.value < total - 1 then want.value else total - 1
  }

  // ----- The body

  /** What a client has received, the fetches made after the first, and whether the stream ended normally. */
  datatype Out = Out(body: Bytes, later: seq<(int, int)>, complete: bool)

  function NextEnd(pos: int, end: int): int { if pos + CHUNK - 1 < end then pos + CHUNK - 1 else end }

  /** The body from the reply open at `pos` on. */
  function Stream(up: Upstream, reply: Reply, pos: int, end: int): Out
    requires reply.Reply?
    decreases if end > pos then end - pos else 0
  {
    var here := Concat(reply.chunks);
    if reply.broken then Out(here, [], false)
    else if pos + CHUNK > end then Out(here, [], true)
    else
      var ask := (pos + CHUNK, NextEnd(pos + CHUNK, end));
      var next := Open(up, ask.0, ask.1);
      if next.None? then Out(here, [ask], false)
      else
        var rest := Stream(up, next.value, pos + CHUNK, end);
        Out(here + rest.body, [ask] + rest.later, rest.complete)
  }

  /** What was received before `rest`, and `rest`. */
  function Joined(body: Bytes, later: seq<(int, int)>, rest: Out): Out {
    Out(body + rest.body, later + rest.later, rest.complete)
  }

  lemma JoinedStep(body: Bytes, later: seq<(int, int)>, here: Bytes, ask: (int, int), rest: Out)
    ensures Joined(body, later, Out(here + rest.body, [ask] + rest.later, rest.complete))
            == Joined(body + here, later + [ask], rest)
  {
    assert body + (here + rest.body) == (body + here) + rest.body;
    assert later + ([ask] + rest.later) == (later + [ask]) + rest.later;
  }

  lemma JoinedEnd(body: Bytes, later: seq<(int, int)>, here: Bytes, asks: seq<(int, int)>, complete: bool)
    ensures Joined(body, later, Out(here, asks, complete)) == Out(body + here, later + asks, complete)
    ensures later + [] == later
  {
  }

  method Body(up: Upstream, first: Reply, start: int, end: int) returns (out: Out)
    requires first.Reply?
    ensures out == Stream(up, first, start, end)
  {
    var reply, pos := first, start;
    var body: Bytes := [];
    var later: seq<(int, int)> := [];
    while true
      invariant reply.Reply?
      invariant Joined(body, later, Stream(up, reply, pos, end)) == Stream(up, first, start, end)
      decreases if end > pos then end - pos else 0
    {
      var here := Concat(reply.chunks);
      if reply.broken {
        assert Stream(up, reply, pos, end) == Out(here, [], false);
        JoinedEnd(body, later, here, [], false);
        return Out(body + here, later, false);
      }
      if pos + CHUNK > end {
        assert Stream(up, reply, pos, end) == Out(here, [], true);
        JoinedEnd(body, later, here, [], true);
        return Out(body + here, later, true);
      }
      var ask := (pos + CHUNK, NextEnd(pos + CHUNK, end));
      var next := Open(up, ask.0, ask.1);
      if next.None? {
        assert Stream(up, reply, pos, end) == Out(here, [ask], false);
        JoinedEnd(body, later, here, [ask], false);
        return Out(body + here, later + [ask], false);
      }
      JoinedStep(body, later, here, ask, Stream(up, next.value, pos + CHUNK, end));
      body, later := body + here, later + [ask];
      reply, pos := next.value, pos + CHUNK;
    }
  }

  // ----- The endpoint

  /** What the resolver made of the track's URL. */
  datatype Resolved = Unsupported | Unavailable | ResolveError | Direct(up: Upstream)

  datatype Answer =
    | Refused(status: nat)
    | Streaming(status: nat, contentLength: int, contentRange: Option<(nat, int, int)>, first: (int, int), out: Out)

  /** The answer for one range; `ranged` when the client sent one. */
  function Serve(up: Upstream, ranged: bool, start: nat, want: Option<nat>): Answer {
    var first := Open(up, start, FirstEnd(start, want));
    if first.None? || first.value.total.None? then Refused(502)
    else
      var total := first.value.total.value;
      if start >= total then Refused(416)
      else
        var end := LastEnd(total, want);
        Streaming(if ranged then 206 else 200, end - start + 1, if ranged then Some((start, end, total)) else None,
                  (start, FirstEnd(start, want)), Stream(up, first.value, start, end))
  }

  /** The endpoint's answer once there is a direct URL. */
  function Proxied(up: Upstream, header: string): Answer {
    var g := MatchRange(header);
    Serve(up, g.Groups?, Start(g), WantEnd(g))
  }

  method ServeRange(up: Upstream, ranged: bool, start: nat, want: Option<nat>) returns (r: Answer)
    ensures r == Serve(up, ranged, start, want)
  {
    var first := Open(up, start, FirstEnd(start, want));
    if first.None? || first.value.total.None? {
      return Refused(502);
    }
    var total := first.value.total.value;
    if start >= total {
      return Refused(416);
    }
    var end := if want.None? then total - 1 else if want.value < total - 1 then want.value else total - 1;
    var out := Body(up, first.value, start, end);
    return Streaming(if ranged then 206 else 200, end - start + 1, if ranged then Some((start, end, total)) else None,
                     (start, FirstEnd(start, want)), out);
  }

  /** `preview_stream`. */
  method PreviewStream(enabled: bool, resolved: Resolved, header: string) returns (r: Answer)
    ensures !enabled ==> r == Refused(404)
    ensures enabled && resolved.Unsupported? ==> r == Refused(422)
    ensures enabled && resolved.Unavailable? ==> r == Refused(404)
    ensures enabled && resolved.ResolveError? ==> r == Refused(502)
    ensures enabled && resolved.Direct? ==> r == Proxied(resolved.up, header)
  {
    if !enabled {
      return Refused(404);
    }
    match resolved {
      case Unsupported => return Refused(422);
      case Unavailable => return Refused(404);
      case ResolveError => return Refused(502);
      case Direct(up) =>
        var g := MatchRange(header);
        r := ServeRange(up, g.Groups?, Start(g), WantEnd(g));
    }
  }

  // ----- Upstreams

  /** Serves `file`: a reply to a proper range that starts inside it carries the right total and the bytes
      asked for, all of them unless the body breaks off. It may also fail. */
  ghost predicate Faithful(up: Upstream, file: Bytes) {
    forall s, e {:trigger FaithfulAt(up(s, e), file, s, e)} | 0 <= s <= e && s < |file| ::
      FaithfulAt(up(s, e), file, s, e)
  }

  /** A prefix of `want`, and all of it unless the body broke off. */
  predicate Brings(r: Reply, want: Bytes)
    requires r.Reply?
  {
    Concat(r.chunks) <= want && (!r.broken ==> Concat(r.chunks) == want)
  }

  predicate FaithfulAt(r: Reply, file: Bytes, s: int, e: int) {
    r.Reply? && r.status == 206 ==> r.total == Some(|file|) && Brings(r, Clip(file, s, e + 1))
  }

  /** Faithful and never fails. */
  ghost predicate Honest(up: Upstream, file: Bytes) {
    && Faithful(up, file)
    && forall s, e | 0 <= s <= e && s < |file| :: up(s, e).Reply? && up(s, e).status == 206 && !up(s, e).broken
  }

  /** Every fetch asks for between one byte and `CHUNK` bytes. */
  predicate Bounded(asks: seq<(int, int)>) {
    forall i | 0 <= i < |asks| :: 1 <= asks[i].1 - asks[i].0 + 1 <= CHUNK
  }

  /** Whole chunks needed for `n` bytes. */
  function ChunksFor(n: int): int { (n + CHUNK - 1) / CHUNK }

  lemma {:induction false} LaterFetches(up: Upstream, reply: Reply, pos: int, end: int)
    requires reply.Reply? && pos <= end
    ensures var out := Stream(up, reply, pos, end);
            && Bounded(out.later)
            && 1 + |out.later| <= ChunksFor(end - pos + 1)
            && (out.complete ==> 1 + |out.later| == ChunksFor(end - pos + 1))
    decreases end - pos
  {
    if !reply.broken && pos + CHUNK <= end {
      var next := Open(up, pos + CHUNK, NextEnd(pos + CHUNK, end));
      if next.Some? {
        LaterFetches(up, next.value, pos + CHUNK, end);
      }
    }
  }

  /** A prefix of `want`, and all of it when the stream ended normally. */
  predicate Carries(out: Out, want: Bytes) { out.body <= want && (out.complete ==> out.body == want) }

  lemma GoesOn(up: Upstream, reply: Reply, pos: int, end: int, here: Bytes, next: Reply, rest: Bytes)
    requires reply.Reply? && !reply.broken && pos + CHUNK <= end && Brings(reply, here)
    requires Open(up, pos + CHUNK, NextEnd(pos + CHUNK, end)) == Some(next)
    requires Carries(Stream(up, next, pos + CHUNK, end), rest)
    ensures Carries(Stream(up, reply, pos, end), here + rest)
  {
  }

  lemma BreaksOff(up: Upstream, reply: Reply, pos: int, end: int, here: Bytes, rest: Bytes)
    requires reply.Reply? && pos + CHUNK <= end && Brings(reply, here)
    requires reply.broken || Open(up, pos + CHUNK, NextEnd(pos + CHUNK, end)).None?
    ensures Carries(Stream(up, reply, pos, end), here + rest)
  {
  }

  lemma EndsHere(up: Upstream, reply: Reply, pos: int, end: int, here: Bytes)
    requires reply.Reply? && pos + CHUNK > end && Brings(reply, here)
    ensures Carries(Stream(up, reply, pos, end), here)
  {
  }

  lemma OpenBrings(up: Upstream, file: Bytes, s: int, e: int)
    requires Faithful(up, file) && 0 <= s <= e && s < |file| && Open(up, s, e).Some?
    ensures Open(up, s, e).value.total == Some(|file|) && Brings(Open(up, s, e).value, Clip(file, s, e + 1))
  {
    assert FaithfulAt(up(s, e), file, s, e);
  }

  lemma StreamStep(up: Upstream, file: Bytes, reply: Reply, pos: int, end: int)
    requires 0 <= pos && pos + CHUNK <= end && reply.Reply? && Brings(reply, Clip(file, pos, pos + CHUNK))
    requires var next := Open(up, pos + CHUNK, NextEnd(pos + CHUNK, end));
             !reply.broken && next.Some? ==>
               Carries(Stream(up, next.value, pos + CHUNK, end), Clip(file, pos + CHUNK, end + 1))
    ensures Carries(Stream(up, reply, pos, end), Clip(file, pos, end + 1))
  {
    var mid := pos + CHUNK;
    var here, rest := Clip(file, pos, mid), Clip(file, mid, end + 1);
    var next := Open(up, mid, NextEnd(mid, end));
    ClipSplit(file, pos, mid, end + 1);
    if reply.broken || next.None? {
      BreaksOff(up, reply, pos, end, here, rest);
    } else {
      GoesOn(up, reply, pos, end, here, next.value, rest);
    }
  }

  /** However the upstream fails, the client has a prefix of the bytes asked for, and all of them when the
      stream ends normally. */
  lemma {:induction false} StreamIsPrefix(up: Upstream, file: Bytes, reply: Reply, pos: int, end: int)
    requires Faithful(up, file) && 0 <= pos <= end < |file|
    requires reply.Reply? && Brings(reply, Clip(file, pos, NextEnd(pos, end) + 1))
    ensures Carries(Stream(up, reply, pos, end), Clip(file, pos, end + 1))
    decreases end - pos
  {
    if pos + CHUNK > end {
      EndsHere(up, reply, pos, end, Clip(file, pos, end + 1));
    } else {
      var mid, last := pos + CHUNK, NextEnd(pos + CHUNK, end);
      if Open(up, mid, last).Some? {
        OpenBrings(up, file, mid, last);
        StreamIsPrefix(up, file, Open(up, mid, last).value, mid, end);
      }
      StreamStep(up, file, reply, pos, end);
    }
  }

  lemma {:induction false} HonestCompletes(up: Upstream, file: Bytes, reply: Reply, pos: int, end: int)
    requires Honest(up, file) && 0 <= pos <= end < |file| && reply.Reply? && !reply.broken
    ensures Stream(up, reply, pos, end).complete
    decreases end - pos
  {
    if pos + CHUNK <= end {
      var last := NextEnd(pos + CHUNK, end);
      assert up(pos + CHUNK, last).Reply?;
      HonestCompletes(up, file, up(pos + CHUNK, last), pos + CHUNK, end);
    }
  }

  lemma FirstFetchEnds(size: nat, start: nat, want: Option<nat>)
    requires start < size && (want.Some? ==> start <= want.value)
    ensures var end, ask := LastEnd(size, want), FirstEnd(start, want);
            && start <= end < size && start <= ask && 1 <= ask - start + 1 <= CHUNK
            && (ask == NextEnd(start, end) || size - 1 == NextEnd(start, end) < ask)
  {
  }

  lemma SameClip(file: Bytes, start: int, last: int, ask: int)
    requires ask == last || |file| - 1 == last < ask
    ensures Clip(file, start, ask + 1) == Clip(file, start, last + 1)
  {
    if last < ask {
      ClipBeyond(file, start, last + 1, ask + 1);
    }
  }

  lemma FirstFetchFits(file: Bytes, start: nat, want: Option<nat>)
    requires start < |file| && (want.Some? ==> start <= want.value)
    ensures Clip(file, start, FirstEnd(start, want) + 1)
            == Clip(file, start, NextEnd(start, LastEnd(|file|, want)) + 1)
  {
    FirstFetchEnds(|file|, start, want);
    SameClip(file, start, NextEnd(start, LastEnd(|file|, want)), FirstEnd(start, want));
  }

  /** Not `bytes=5-3`. */
  predicate Forward(header: string) {
    var g := MatchRange(header);
    WantEnd(g).Some? ==> Start(g) <= WantEnd(g).value
  }

  /** An answer that announces file[start..end] and carries a prefix of it, all of it if it ends normally. */
  predicate Slices(r: Answer, file: Bytes, ranged: bool, start: nat, end: int)
    requires start <= end < |file|
  {
    && r.Streaming?
    && r.status == (if ranged then 206 else 200)
    && r.contentRange == (if ranged then Some((start, end, |file|)) else None)
    && r.contentLength == end + 1 - start
    && Carries(r.out, file[start..end + 1])
  }

  lemma FirstReplyCarries(up: Upstream, file: Bytes, start: nat, want: Option<nat>)
    requires Faithful(up, file) && start < |file| && (want.Some? ==> start <= want.value)
    requires Open(up, start, FirstEnd(start, want)).Some?
    ensures var first, end := Open(up, start, FirstEnd(start, want)).value, LastEnd(|file|, want);
            first.total == Some(|file|) && Carries(Stream(up, first, start, end), Clip(file, start, end + 1))
  {
    var ask := FirstEnd(start, want);
    FirstFetchEnds(|file|, start, want);
    FirstFetchFits(file, start, want);
    OpenBrings(up, file, start, ask);
    StreamIsPrefix(up, file, up(start, ask), start, LastEnd(|file|, want));
  }

  lemma ServeSlices(up: Upstream, file: Bytes, ranged: bool, start: nat, want: Option<nat>)
    requires Faithful(up, file) && start < |file| && (want.Some? ==> start <= want.value)
    ensures start <= LastEnd(|file|, want) < |file|
    ensures Serve(up, ranged, start, want) == Refused(502)
            || Slices(Serve(up, ranged, start, want), file, ranged, start, LastEnd(|file|, want))
  {
    if Open(up, start, FirstEnd(start, want)).Some? {
      FirstReplyCarries(up, file, start, want);
    }
    ClipInside(file, start, LastEnd(|file|, want) + 1);
  }

  /** Stitching is slicing. For a range that is not reversed and starts inside the file, whatever the upstream
      does: a response announces file[start..end] in its status, Content-Range and Content-Length, its body is
      a prefix of those bytes, and all of them when the stream ends normally. */
  lemma StitchingIsSlicing(up: Upstream, file: Bytes, header: string)
    requires Faithful(up, file) && Start(MatchRange(header)) < |file| && Forward(header)
    ensures var g := MatchRange(header); var end := LastEnd(|file|, WantEnd(g));
            && Start(g) <= end < |file|
            && (Proxied(up, header) == Refused(502) || Slices(Proxied(up, header), file, g.Groups?, Start(g), end))
  {
    var g := MatchRange(header);
    ServeSlices(up, file, g.Groups?, Start(g), WantEnd(g));
  }

  /** The fetch every request with a direct URL makes first, refused or not. */
  function FirstAsk(header: string): (int, int) {
    var g := MatchRange(header);
    (Start(g), FirstEnd(Start(g), WantEnd(g)))
  }

  /** The first fetch, or one the response lists. */
  predicate Asked(r: Answer, header: string, ask: (int, int)) {
    ask == FirstAsk(header) || (r.Streaming? && ask in r.out.later)
  }

  lemma {:induction false} StreamAsks(up: Upstream, other: Upstream, reply: Reply, pos: int, end: int)
    requires reply.Reply?
    requires forall a | a in Stream(up, reply, pos, end).later :: up(a.0, a.1) == other(a.0, a.1)
    ensures Stream(up, reply, pos, end) == Stream(other, reply, pos, end)
    decreases if end > pos then end - pos else 0
  {
    if !reply.broken && pos + CHUNK <= end {
      var ask := (pos + CHUNK, NextEnd(pos + CHUNK, end));
      assert ask in Stream(up, reply, pos, end).later;
      var next := Open(up, ask.0, ask.1);
      if next.Some? {
        assert forall a | a in Stream(up, next.value, pos + CHUNK, end).later :: a in Stream(up, reply, pos, end).later;
        StreamAsks(up, other, next.value, pos + CHUNK, end);
      }
    }
  }

  /** The fetches listed are all there are: two upstreams that agree on them get the same answer. */
  lemma FetchesAreAll(up: Upstream, other: Upstream, header: string)
    requires forall a | Asked(Proxied(up, header), header, a) :: up(a.0, a.1) == other(a.0, a.1)
    ensures Proxied(up, header) == Proxied(other, header)
  {
    var g := MatchRange(header);
    var start, want, ask := Start(g), WantEnd(g), FirstAsk(header);
    assert Asked(Proxied(up, header), header, ask);
    assert Open(up, ask.0, ask.1) == Open(other, ask.0, ask.1);
    if Proxied(up, header).Streaming? {
      var first := Open(up, ask.0, ask.1).value;
      var end := LastEnd(first.total.value, want);
      forall a | a in Stream(up, first, start, end).later ensures up(a.0, a.1) == other(a.0, a.1) {
        assert Asked(Proxied(up, header), header, a);
      }
      StreamAsks(up, other, first, start, end);
    }
  }

  /** Whatever the upstream answers, the first fetch asks for between one byte and one chunk exactly when the
      range is not reversed. Then so does every fetch for a response, and there are at most as many as the
      response has chunks, exactly so many when the stream ends normally. */
  lemma FetchesAreBounded(up: Upstream, header: string)
    ensures Bounded([FirstAsk(header)]) <==> Forward(header)
    ensures var r := Proxied(up, header);
            r.Streaming? && Forward(header) ==>
              && r.first == FirstAsk(header)
              && Bounded([r.first] + r.out.later)
              && 1 + |r.out.later| <= ChunksFor(r.contentLength)
              && (r.out.complete ==> 1 + |r.out.later| == ChunksFor(r.contentLength))
  {
    var start, want, ask := Start(MatchRange(header)), WantEnd(MatchRange(header)), FirstAsk(header);
    assert [ask][0] == ask;
    var first := Open(up, ask.0, ask.1);
    if Proxied(up, header).Streaming? && Forward(header) {
      LaterFetches(up, first.value, start, LastEnd(first.value.total.value, want));
    }
  }

  lemma HonestServes(up: Upstream, file: Bytes, ranged: bool, start: nat, want: Option<nat>)
    requires Honest(up, file) && start < |file| && (want.Some? ==> start <= want.value)
    ensures Serve(up, ranged, start, want).Streaming? && Serve(up, ranged, start, want).out.complete
  {
    var ask := FirstEnd(start, want);
    FirstFetchEnds(|file|, start, want);
    assert up(start, ask).Reply?;
    OpenBrings(up, file, start, ask);
    HonestCompletes(up, file, up(start, ask), start, LastEnd(|file|, want));
  }

  /** And when the upstream never fails, the client gets all of it. */
  lemma HonestIsWhole(up: Upstream, file: Bytes, header: string)
    requires Honest(up, file) && Start(MatchRange(header)) < |file| && Forward(header)
    ensures var g := MatchRange(header); var r := Proxied(up, header);
            && r.Streaming? && r.out.complete
            && Start(g) <= LastEnd(|file|, WantEnd(g)) < |file|
            && r.out.body == file[Start(g)..LastEnd(|file|, WantEnd(g)) + 1]
            && |r.out.body| == r.contentLength
  {
    var g := MatchRange(header);
    HonestServes(up, file, g.Groups?, Start(g), WantEnd(g));
    ServeSlices(up, file, g.Groups?, Start(g), WantEnd(g));
  }

  /** The Content-Length of a response is a length exactly when the range is not reversed. */
  lemma LengthIffNotReversed(up: Upstream, header: string)
    requires Proxied(up, header).Streaming?
    ensures Proxied(up, header).contentLength >= 1 <==> Forward(header)
  {
  }

  /** So a Content-Length below one is announced exactly when the range is reversed and the upstream, asked
      for it all the same, answers 206 with a total beyond its start; a local range is refused there. */
  lemma BadLengthIff(up: Upstream, header: string)
    ensures var g := MatchRange(header); var first := Open(up, Start(g), FirstEnd(Start(g), WantEnd(g)));
            Proxied(up, header).Streaming? && Proxied(up, header).contentLength < 1
            <==> !Forward(header) && first.Some? && first.value.total.Some? && Start(g) < first.value.total.value
  {
    if Proxied(up, header).Streaming? {
      LengthIffNotReversed(up, header);
    }
  }

  lemma PrintedMatches(s: nat, e: nat)
    ensures var g := MatchRange(Printed(s, e)); g.Groups? && Start(g) == s && WantEnd(g) == Some(e)
  {
    MatchMeans(Printed(s, e), PrintNat(s), PrintNat(e), []);
    ParsePrint(s);
    ParsePrint(e);
  }

  /** `bytes=5-3` on an upstream that answers such a fetch with 206 and a total of ten: a Content-Length of
      minus one. On one that ignores the range and answers 200 the proxy answers 502. */
  lemma ReversedRange(kind: nat) returns (up: Upstream)
    ensures up(5, 3) == Reply(kind, Some(10), [], false)
    ensures kind == 206 ==> Proxied(up, Printed(5, 3)).Streaming? && Proxied(up, Printed(5, 3)).contentLength == -1
    ensures kind != 206 ==> Proxied(up, Printed(5, 3)) == Refused(502)
  {
    PrintedMatches(5, 3);
    up := (s, e) => Reply(kind, Some(10), [], false);
  }

  /** A printed range is read back, so a client that asks for `bytes=s-e` is served exactly those bytes. */
  lemma PrintedRange(up: Upstream, file: Bytes, s: nat, e: nat)
    requires Honest(up, file) && s <= e < |file|
    ensures var r := Proxied(up, Printed(s, e));
            r.Streaming? && r.status == 206 && r.contentRange == Some((s, e, |file|)) && r.out.complete
            && r.out.body == file[s..e + 1]
  {
    PrintedMatches(s, e);
    StitchingIsSlicing(up, file, Printed(s, e));
    HonestIsWhole(up, file, Printed(s, e));
  }

  // ----- From the text of the header

  /** A header in the form `bytes=<first>-<last>` with at least one digit before the dash; a line feed may follow. */
  predicate Names(header: string, first: string, last: string) {
    && AllDigits(first) && AllDigits(last) && first != []
    && (header == "bytes=" + first + "-" + last || header == "bytes=" + first + "-" + last + "\n")
  }

  /** `MatchRange` is the regular expression. */
  lemma MatchRangeMeans(h: string, first: string, last: string, rest: string)
    ensures MatchRange(h) == Groups(first, last, rest)
            <==> h == "bytes=" + first + "-" + last + rest && AllDigits(first) && AllDigits(last) && first != []
                 && (rest == [] || rest == "\n")
  {
    MatchMeans(h, first, last, rest);
    PairIs(first, last, rest);
  }

  lemma NamesMeans(header: string, first: string, last: string)
    ensures Names(header, first, last) <==>
            var g := MatchRange(header); g.Groups? && g.first == first && g.last == last
  {
    var g := MatchRange(header);
    MatchRangeMeans(header, first, last, []);
    MatchRangeMeans(header, first, last, "\n");
    if g.Groups? {
      MatchRangeMeans(header, g.first, g.last, g.rest);
    }
    assert "bytes=" + first + "-" + last + [] == "bytes=" + first + "-" + last;
  }

  lemma NoNames(header: string)
    requires forall first, last :: !Names(header, first, last)
    ensures MatchRange(header) == NoMatch
  {
    var g := MatchRange(header);
    if g.Groups? {
      NamesMeans(header, g.first, g.last);
    }
  }

  lemma GroupsAreServed(up: Upstream, file: Bytes, header: string, first: string, last: string)
    requires var g := MatchRange(header); g.Groups? && g.first == first && g.last == last
    requires Honest(up, file) && ParseNat(first) < |file| && (last != [] ==> ParseNat(first) <= ParseNat(last))
    ensures var r, s := Proxied(up, header), ParseNat(first);
            var end := if last == [] || ParseNat(last) >= |file| then |file| else ParseNat(last) + 1;
            && r.Streaming? && r.status == 206 && r.contentRange == Some((s, end - 1, |file|))
            && r.contentLength == end - s && r.out.complete && s < end <= |file| && r.out.body == file[s..end]
  {
    StitchingIsSlicing(up, file, header);
    HonestIsWhole(up, file, header);
  }

  /** The bytes a header names, as far as the file has them: `bytes=<first>-`, what a player sends on a seek, names
      the rest of the file. The client gets exactly those. */
  lemma RangeIsServed(up: Upstream, file: Bytes, header: string, first: string, last: string)
    requires Honest(up, file) && Names(header, first, last) && ParseNat(first) < |file|
    requires last != [] ==> ParseNat(first) <= ParseNat(last)
    ensures var r, s := Proxied(up, header), ParseNat(first);
            var end := if last == [] || ParseNat(last) >= |file| then |file| else ParseNat(last) + 1;
            && r.Streaming? && r.status == 206 && r.contentRange == Some((s, end - 1, |file|))
            && r.contentLength == end - s && r.out.complete && s < end <= |file| && r.out.body == file[s..end]
  {
    NamesMeans(header, first, last);
    GroupsAreServed(up, file, header, first, last);
  }

  /** Any other header, and none, gets the whole file with 200. */
  lemma NoRangeIsWhole(up: Upstream, file: Bytes, header: string)
    requires Honest(up, file) && file != [] && forall first, last :: !Names(header, first, last)
    ensures var r := Proxied(up, header);
            && r.Streaming? && r.status == 200 && r.contentRange == None && r.contentLength == |file|
            && r.out.complete && r.out.body == file
  {
    NoNames(header);
    StitchingIsSlicing(up, file, header);
    HonestIsWhole(up, file, header);
  }

  /** What the reply to the first fetch makes of the answer, for any upstream. */
  ghost predicate Decides(reply: Reply, start: nat, ranged: bool, r: Answer) {
    if reply.Failed? || reply.status != 206 || reply.total.None? then r == Refused(502)
    else if reply.total.value <= start then r == Refused(416)
    else r.Streaming? && r.status == if ranged then 206 else 200
  }

  lemma ServeDecides(up: Upstream, ranged: bool, start: nat, want: Option<nat>)
    ensures Decides(up(start, FirstEnd(start, want)), start, ranged, Serve(up, ranged, start, want))
  {
  }

  lemma GroupsDecide(up: Upstream, header: string, first: string, last: string)
    requires var g := MatchRange(header); g.Groups? && g.first == first && g.last == last
    ensures var s := ParseNat(first);
            var end := if last != [] && ParseNat(last) < s + 1048575 then ParseNat(last) else s + 1048575;
            Decides(up(s, end), s, true, Proxied(up, header))
  {
    ServeDecides(up, true, ParseNat(first), if last != [] then Some(ParseNat(last)) else None);
  }

  lemma NamedDecides(up: Upstream, header: string, first: string, last: string)
    requires Names(header, first, last)
    ensures var s := ParseNat(first);
            var end := if last != [] && ParseNat(last) < s + 1048575 then ParseNat(last) else s + 1048575;
            Decides(up(s, end), s, true, Proxied(up, header))
  {
    NamesMeans(header, first, last);
    GroupsDecide(up, header, first, last);
  }

  lemma NoneDecides(up: Upstream, header: string)
    requires forall first, last :: !Names(header, first, last)
    ensures Decides(up(0, 1048575), 0, false, Proxied(up, header))
  {
    NoNames(header);
    ServeDecides(up, false, 0, None);
  }

  /** The first fetch asks for no more than a mebibyte from the start the header names, or from the beginning, and
      its reply decides: 502 unless it is a 206 with a total, 416 when the total is at or below the start. */
  lemma FirstReplyDecides(up: Upstream, header: string)
    ensures forall first, last | Names(header, first, last) ::
              var s := ParseNat(first);
              var end := if last != [] && ParseNat(last) < s + 1048575 then ParseNat(last) else s + 1048575;
              Decides(up(s, end), s, true, Proxied(up, header))
    ensures (forall first, last :: !Names(header, first, last)) ==>
              Decides(up(0, 1048575), 0, false, Proxied(up, header))
  {
    forall first, last | Names(header, first, last)
      ensures var s := ParseNat(first);
              var end := if last != [] && ParseNat(last) < s + 1048575 then ParseNat(last) else s + 1048575;
              Decides(up(s, end), s, true, Proxied(up, header))
    {
      NamedDecides(up, header, first, last);
    }
    if forall first, last :: !Names(header, first, last) {
      NoneDecides(up, header);
    }
  }
}
