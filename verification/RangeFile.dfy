/** Byte ranges over a local file: the Range header parser, the chunked reader, and the endpoint that serves
    a downloaded episode with them (section 14.1.2 of RFC 9110). */
module RangeFile {
  import opened Wrappers
  import opened Decimal
  import opened Chunks

  const CHUNK_BYTES := 262144

  // ----- parse_range

  /** The characters `str.strip` removes, as far as a header decoded byte by byte can hold them. */
  predicate IsSpace(c: char) {
    var n := c as int;
    9 <= n <= 13 || 28 <= n <= 32 || n == 133 || n == 160
  }

  function Strip(s: string): string {
    if s == [] then s
    else if IsSpace(s[0]) then Strip(s[1..])
    else if IsSpace(s[|s| - 1]) then Strip(s[..|s| - 1])
    else s
  }

  datatype Parsed = Whole | Part(start: nat, end: nat) | Unsatisfiable

  function Resolve(first: string, last: string, size: nat): Parsed
    requires AllDigits(first) && AllDigits(last)
  {
    var start := if first == [] then (if ParseNat(last) < size then size - ParseNat(last) else 0) else ParseNat(first);
    var end := if first == [] || last == [] then size - 1 else ParseNat(last);
    if size == 0 || start >= size || start > end then Unsatisfiable
    else Part(start, if end < size - 1 then end else size - 1)
  }

  function Parse(header: Option<string>, size: nat): Parsed {
    if header.None? || header.value == [] then Whole else
      match MatchBytes(Strip(header.value))
      case NoMatch => Whole
      case Groups(first, last, _) => if first == [] && last == [] then Whole else Resolve(first, last, size)
  }

  /** Whether a range spec asks for position `k`: the last so many positions when there is no first one,
      otherwise from the first to the last, or to the end. */
  predicate Wants(first: string, last: string, size: nat, k: nat)
    requires AllDigits(first) && AllDigits(last)
  {
    if first == [] then size - k <= ParseNat(last)
    else ParseNat(first) <= k && (last == [] || k <= ParseNat(last))
  }

  /** A range is exactly the requested positions the file has, and is refused exactly when it has none of
      them. */
  lemma RangeIsTheRequest(h: string, size: nat)
    requires MatchBytes(Strip(h)).Groups? && h != []
    requires var g := MatchBytes(Strip(h)); g.first != [] || g.last != []
    ensures !Parse(Some(h), size).Whole?
    ensures var g := MatchBytes(Strip(h));
            Parse(Some(h), size).Unsatisfiable? <==> forall k: nat | k < size :: !Wants(g.first, g.last, size, k)
    ensures var g := MatchBytes(Strip(h)); var r := Parse(Some(h), size);
            r.Part? ==> r.start <= r.end < size
                        && forall k: nat | k < size :: Wants(g.first, g.last, size, k) <==> r.start <= k <= r.end
  {
    var g := MatchBytes(Strip(h));
    var r := Parse(Some(h), size);
    if r.Part? {
      assert Wants(g.first, g.last, size, r.start);
    }
  }

  predicate AllSpace(s: string) { forall i | 0 <= i < |s| :: IsSpace(s[i]) }

  lemma {:induction false} StripFront(pre: string, s: string)
    requires AllSpace(pre)
    ensures Strip(pre + s) == Strip(s)
  {
    if pre == [] {
      assert pre + s == s;
    } else {
      StripFront(pre[1..], s);
      assert (pre + s)[1..] == pre[1..] + s;
    }
  }

  lemma {:induction false} StripBack(core: string, post: string)
    requires AllSpace(post) && core != [] && !IsSpace(core[0]) && !IsSpace(core[|core| - 1])
    ensures Strip(core + post) == core
  {
    if post == [] {
      assert core + post == core;
    } else {
      var r := post[..|post| - 1];
      StripBack(core, r);
      assert (core + post)[..|core + post| - 1] == core + r;
    }
  }

  lemma StripPadding(pre: string, core: string, post: string)
    requires AllSpace(pre) && AllSpace(post) && core != [] && !IsSpace(core[0]) && !IsSpace(core[|core| - 1])
    ensures Strip(pre + core + post) == core
  {
    assert pre + core + post == pre + (core + post);
    StripFront(pre, core + post);
    StripBack(core, post);
  }

  lemma PrintedIsBare(s: nat, e: nat)
    ensures Printed(s, e) != [] && !IsSpace(Printed(s, e)[0]) && !IsSpace(Printed(s, e)[|Printed(s, e)| - 1])
    ensures MatchBytes(Printed(s, e)) == Groups(PrintNat(s), PrintNat(e), [])
  {
    var p := Printed(s, e);
    assert p[0] == BYTES[0] == 'b';
    assert p[|p| - 1] == PrintNat(e)[|PrintNat(e)| - 1];
    MatchMeans(p, PrintNat(s), PrintNat(e), []);
  }

  /** Parsing a printed range gives it back, cut to the file, with any white space around it. */
  lemma ParseRoundTrip(pre: string, s: nat, e: nat, post: string, size: nat)
    requires AllSpace(pre) && AllSpace(post)
    ensures Parse(Some(pre + Printed(s, e) + post), size)
            == if s <= e && s < size then Part(s, if e < size - 1 then e else size - 1) else Unsatisfiable
  {
    PrintedIsBare(s, e);
    StripPadding(pre, Printed(s, e), post);
    ParsePrint(s);
    ParsePrint(e);
  }

  // ----- From the text of the header

  /** The header, after white space, has the form `bytes=<first>-<last>` with a digit on one side at least; anything
      may follow the digits. */
  ghost predicate Names(header: string, first: string, last: string) {
    exists pre, rest ::
      && AllSpace(pre) && Splits(first, last, rest) && (first != [] || last != [])
      && header == pre + ("bytes=" + first + "-" + last + rest)
  }

  ghost predicate NoRange(header: Option<string>) {
    header.None? || forall first, last :: !Names(header.value, first, last)
  }

  lemma SpaceAround(c: char, s: string)
    requires IsSpace(c) && AllSpace(s)
    ensures AllSpace([c] + s) && AllSpace(s + [c])
  {
  }

  lemma {:induction false} StripSplits(s: string) returns (pre: string, post: string)
    ensures s == pre + Strip(s) + post && AllSpace(pre) && AllSpace(post)
  {
    pre, post := [], [];
    if s == [] {
    } else if IsSpace(s[0]) {
      pre, post := StripSplits(s[1..]);
      SpaceAround(s[0], pre);
      assert s == [s[0]] + (pre + Strip(s) + post);
      assert [s[0]] + (pre + Strip(s) + post) == ([s[0]] + pre) + Strip(s) + post;
      pre := [s[0]] + pre;
    } else if IsSpace(s[|s| - 1]) {
      var c := s[|s| - 1];
      pre, post := StripSplits(s[..|s| - 1]);
      SpaceAround(c, post);
      assert s == (pre + Strip(s) + post) + [c];
      assert (pre + Strip(s) + post) + [c] == pre + Strip(s) + (post + [c]);
      post := post + [c];
    }
  }

  /** White space after `core` is cut off, and no more than the tail that follows its first `n` characters. */
  lemma {:induction false} StripTail(core: string, n: nat) returns (m: nat)
    requires 0 < n <= |core| && !IsSpace(core[0]) && !IsSpace(core[n - 1])
    ensures n <= m <= |core| && Strip(core) == core[..m]
  {
    if IsSpace(core[|core| - 1]) {
      m := StripTail(core[..|core| - 1], n);
      assert core[..|core| - 1][..m] == core[..m];
    } else {
      m := |core|;
    }
  }

  /** The front of a range header. */
  function Front(first: string, last: string): string { BYTES + Pair(first, last, []) }

  lemma FrontAndRest(first: string, last: string, rest: string)
    ensures BYTES + Pair(first, last, rest) == Front(first, last) + rest
    ensures Front(first, last) + rest == "bytes=" + first + "-" + last + rest
  {
    PairIs(first, last, rest);
    PairIs(first, last, []);
    assert last + [] == last;
  }

  lemma FrontIsBare(first: string, last: string)
    requires AllDigits(last)
    ensures var h := Front(first, last); h != [] && !IsSpace(h[0]) && !IsSpace(h[|h| - 1])
  {
    var h := Front(first, last);
    FrontAndRest(first, last, []);
    assert h[0] == 'b';
    assert last + [] == last;
    assert h[|h| - 1] == if last == [] then '-' else last[|last| - 1];
  }

  lemma MatchedTail(first: string, last: string, tail: string)
    requires Splits(first, last, tail)
    ensures MatchBytes(Front(first, last) + tail) == Groups(first, last, tail)
  {
    FrontAndRest(first, last, tail);
    MatchMeans(Front(first, last) + tail, first, last, tail);
  }

  lemma NamedIsMatched(pre: string, first: string, last: string, rest: string)
    requires AllSpace(pre) && Splits(first, last, rest)
    ensures var g := MatchBytes(Strip(pre + (Front(first, last) + rest)));
            g.Groups? && g.first == first && g.last == last
  {
    var head := Front(first, last);
    FrontIsBare(first, last);
    StripFront(pre, head + rest);
    var m := StripTail(head + rest, |head|);
    assert (head + rest)[..m] == head + rest[..m - |head|];
    MatchedTail(first, last, rest[..m - |head|]);
  }

  lemma MatchedIsNamed(header: string)
    requires MatchBytes(Strip(header)).Groups?
    requires var g := MatchBytes(Strip(header)); g.first != [] || g.last != []
    ensures var g := MatchBytes(Strip(header)); Names(header, g.first, g.last)
  {
    var g := MatchBytes(Strip(header));
    var pre, post := StripSplits(header);
    MatchMeans(Strip(header), g.first, g.last, g.rest);
    FrontAndRest(g.first, g.last, g.rest);
    NameIt(header, pre, g.first, g.last, g.rest, post);
  }

  lemma NameIt(header: string, pre: string, first: string, last: string, rest: string, post: string)
    requires AllSpace(pre) && AllSpace(post) && Splits(first, last, rest) && (first != [] || last != [])
    requires header == pre + (Front(first, last) + rest) + post
    ensures Names(header, first, last)
  {
    FrontAndRest(first, last, rest + post);
    assert Front(first, last) + rest + post == Front(first, last) + (rest + post);
    assert header == pre + (Front(first, last) + (rest + post));
    assert post != [] && rest == [] ==> (rest + post)[0] == post[0] && !IsDigit(post[0]);
    assert Splits(first, last, rest + post);
  }

  /** No header, another unit, no digits: the whole file. Everything else is a range. */
  lemma WholeIff(header: Option<string>, size: nat)
    ensures Parse(header, size).Whole? <==> NoRange(header)
  {
    if header.Some? && header.value != [] {
      var g := MatchBytes(Strip(header.value));
      if g.Groups? && (g.first != [] || g.last != []) {
        MatchedIsNamed(header.value);
      } else {
        forall first, last ensures !Names(header.value, first, last) {
          if Names(header.value, first, last) {
            var pre, rest :| AllSpace(pre) && Splits(first, last, rest) && (first != [] || last != [])
                             && header.value == pre + ("bytes=" + first + "-" + last + rest);
            FrontAndRest(first, last, rest);
            NamedIsMatched(pre, first, last, rest);
            assert false;
          }
        }
      }
    }
  }

  /** The range such a header gets: the last so many positions, or from the first to the last named or to the end,
      as far as the file has them; refused exactly when it has none. */
  lemma RangeMeans(header: string, first: string, last: string, size: nat)
    requires Names(header, first, last)
    ensures var r := Parse(Some(header), size);
            var from := if first != [] then ParseNat(first)
                        else if ParseNat(last) < size then size - ParseNat(last) else 0;
            var upto := if first == [] || last == [] || ParseNat(last) >= size then size else ParseNat(last) + 1;
            r == if from < upto && from < size then Part(from, upto - 1) else Unsatisfiable
  {
    var pre, rest :| AllSpace(pre) && Splits(first, last, rest) && (first != [] || last != [])
                     && header == pre + ("bytes=" + first + "-" + last + rest);
    FrontAndRest(first, last, rest);
    NamedIsMatched(pre, first, last, rest);
  }

  lemma SpacesAre(c: char)
    ensures c in " \t\n\r" ==> IsSpace(c)
    ensures IsSpace(c) ==> c < '!' || c > '~'
  {
  }

  // ----- iter_file_range

  /** How many bytes one read gives: at least one while there are any, at most what was asked for. `pick` is
      the file system's choice. */
  function ReadLength(available: nat, want: nat, pick: nat): nat {
    var most := if available < want then available else want;
    if most == 0 then 0 else if pick < 1 then 1 else if pick > most then most else pick
  }

  /** `f.read(want)` at position `pos`: some of the next bytes, none only at the end. */
  method Read(data: Bytes, pos: nat, want: nat, pick: nat) returns (chunk: Bytes)
    requires want > 0
    ensures chunk == Clip(data, pos, pos + |chunk|) && |chunk| <= want
    ensures chunk == [] <==> |data| <= pos
  {
    var n := ReadLength(if pos < |data| then |data| - pos else 0, want, pick);
    if n == 0 {
      return [];
    }
    ClipInside(data, pos, pos + n);
    return data[pos..pos + n];
  }

  /** The chunks read from `start` up to `pos`. */
  ghost predicate ReadUpTo(data: Bytes, start: int, pos: int, chunks: seq<Bytes>) {
    Concat(chunks) == Clip(data, start, pos) && forall c | c in chunks :: 0 < |c| <= CHUNK_BYTES
  }

  lemma ReadNothing(data: Bytes, start: nat)
    ensures ReadUpTo(data, start, start, [])
  {
  }

  lemma ReadStep(data: Bytes, start: int, pos: int, chunk: Bytes, chunks: seq<Bytes>)
    requires 0 <= start <= pos && chunk == Clip(data, pos, pos + |chunk|) && 0 < |chunk| <= CHUNK_BYTES
    requires ReadUpTo(data, start, pos, chunks)
    ensures ReadUpTo(data, start, pos + |chunk|, chunks + [chunk])
  {
    ConcatSnoc(chunks, chunk);
    ClipSplit(data, start, pos, pos + |chunk|);
  }

  lemma ReadEnds(data: Bytes, start: int, pos: int, to: int, chunks: seq<Bytes>)
    requires 0 <= start <= pos && (pos == to || (pos == start && to < start) || |data| <= pos <= to)
    requires ReadUpTo(data, start, pos, chunks)
    ensures ReadUpTo(data, start, to, chunks)
  {
    if |data| <= pos <= to {
      ClipBeyond(data, start, pos, to);
    }
  }

  /** `iter_file_range` over a file that holds `data`, however short its reads are and even when the file has
      shrunk since its size was taken: the chunks put together are the bytes asked for. */
  method IterFileRange(data: Bytes, start: nat, end: int, picks: nat -> nat) returns (chunks: seq<Bytes>)
    ensures Concat(chunks) == Clip(data, start, end + 1)
    ensures forall c | c in chunks :: 0 < |c| <= CHUNK_BYTES
  {
    chunks := [];
    ReadNothing(data, start);
    var remaining := end - start + 1;
    var pos := start;
    while remaining > 0
      invariant start <= pos && pos + remaining == end + 1 && (remaining < 0 ==> pos == start)
      invariant ReadUpTo(data, start, pos, chunks)
      decreases remaining
    {
      var chunk := Read(data, pos, if CHUNK_BYTES < remaining then CHUNK_BYTES else remaining, picks(pos));
      if chunk == [] {
        break;
      }
      ReadStep(data, start, pos, chunk, chunks);
      remaining := remaining - |chunk|;
      pos := pos + |chunk|;
      chunks := chunks + [chunk];
    }
    ReadEnds(data, start, pos, end + 1, chunks);
  }

  // ----- stream_episode_audio

  datatype AudioAnswer =
    | NotDownloaded
    | MissingOnDisk
    | NotSatisfiable(contentRange: string)
    | Audio(status: nat, contentLength: int, sentRange: Option<string>, body: Bytes)

  /** `f"bytes {start}-{end}/{size}"`. */
  function ContentRange(start: nat, end: nat, size: nat): string {
    "bytes " + PrintNat(start) + "-" + PrintNat(end) + "/" + PrintNat(size)
  }

  // The Content-Range of a refusal: an asterisk for the range, then the size.
  function UnknownRange(size: nat): string { "bytes */" + PrintNat(size) }

  lemma HeadersAre()
    ensures ContentRange(5, 7, 9) == "bytes 5-7/9" && UnknownRange(9) == "bytes */9"
  {
    assert PrintNat(5) == "5" && PrintNat(7) == "7" && PrintNat(9) == "9";
  }

  /** On disk: the size the endpoint finds, and what the file holds when it is read afterwards. */
  datatype Episode = Absent | NoPath | Lost | OnDisk(size: nat, data: Bytes)

  lemma PartBounds(header: Option<string>, size: nat)
    ensures var p := Parse(header, size); p.Part? ==> p.start <= p.end < size
  {
  }

  /** The first position of the response and the one after its last. */
  function Extent(p: Parsed, size: nat): (int, int)
    requires !p.Unsatisfiable?
  {
    if p.Part? then (p.start, p.end + 1) else (0, size)
  }

  /** The answer for a file on disk, once the header is parsed. */
  method ServeFile(size: nat, data: Bytes, rng: Parsed, picks: nat -> nat) returns (r: AudioAnswer)
    ensures rng.Unsatisfiable? ==> r == NotSatisfiable(UnknownRange(size))
    ensures rng.Whole? ==> r == Audio(200, size, None, Clip(data, 0, size))
    ensures rng.Part? ==> r == Audio(206, rng.end + 1 - rng.start, Some(ContentRange(rng.start, rng.end, size)),
                                     Clip(data, rng.start, rng.end + 1))
  {
    if rng.Unsatisfiable? {
      return NotSatisfiable(UnknownRange(size));
    }
    var start := if rng.Part? then rng.start else 0;
    var end := if rng.Part? then rng.end else size - 1;
    var chunks := IterFileRange(data, start, end, picks);
    return Audio(if rng.Part? then 206 else 200, end - start + 1,
                 if rng.Part? then Some(ContentRange(rng.start, rng.end, size)) else None, Concat(chunks));
  }

  lemma ExtentFits(header: Option<string>, size: nat, data: Bytes)
    requires !Parse(header, size).Unsatisfiable?
    ensures var (from, upto) := Extent(Parse(header, size), size);
            && (0 <= from < upto || from == upto == 0)
            && |Clip(data, from, upto)| <= upto - from
            && (|Clip(data, from, upto)| == upto - from <==> upto <= |data|)
            && (upto <= |data| ==> Clip(data, from, upto) == data[from..upto])
  {
    PartBounds(header, size);
    var (from, upto) := Extent(Parse(header, size), size);
    ClipLength(data, from, upto);
    if upto <= |data| {
      ClipInside(data, from, upto);
    }
  }

  /** The headers agree with the parsed range and the size. The body is exactly those bytes, of the announced
      length, as long as the file still has them all when it is read; otherwise, and only then, it is shorter. */
  method StreamEpisode(episode: Episode, header: Option<string>, picks: nat -> nat) returns (r: AudioAnswer)
    ensures r.NotDownloaded? <==> episode.Absent? || episode.NoPath?
    ensures r.MissingOnDisk? <==> episode.Lost?
    ensures episode.OnDisk? ==> (r.NotSatisfiable? <==> Parse(header, episode.size).Unsatisfiable?)
    ensures r.NotSatisfiable? ==> r.contentRange == UnknownRange(episode.size)
    ensures episode.OnDisk? && NoRange(header) ==>
              r.Audio? && r.status == 200 && r.sentRange == None && r.contentLength == episode.size
              && (episode.size <= |episode.data| ==> r.body == episode.data[..episode.size])
    ensures r.Audio? ==>
              var p := Parse(header, episode.size);
              && (p.Whole? ==> r.status == 200 && r.sentRange == None)
              && (p.Part? ==> r.status == 206 && p.start <= p.end < episode.size
                              && r.sentRange == Some(ContentRange(p.start, p.end, episode.size)))
    ensures r.Audio? ==>
              var (from, upto) := Extent(Parse(header, episode.size), episode.size);
              && r.contentLength == upto - from
              && (|r.body| == r.contentLength <==> upto <= |episode.data|)
              && (0 <= from <= upto <= |episode.data| ==> r.body == episode.data[from..upto])
              && r.body == Clip(episode.data, from, upto) && |r.body| <= r.contentLength
  {
    match episode {
      case Absent => return NotDownloaded;
      case NoPath => return NotDownloaded;
      case Lost => return MissingOnDisk;
      case OnDisk(size, data) =>
        PartBounds(header, size);
        r := ServeFile(size, data, Parse(header, size), picks);
        WholeIff(header, size);
        if r.Audio? {
          ExtentFits(header, size, data);
        }
    }
  }

  /** `bytes=k-`, what a player sends to resume. */
  function ResumeFrom(k: nat): string { BYTES + Pair(PrintNat(k), [], []) }

  lemma ResumeMatches(k: nat)
    ensures ResumeFrom(k) != [] && MatchBytes(Strip(ResumeFrom(k))) == Groups(PrintNat(k), [], [])
  {
    var h := ResumeFrom(k);
    assert h[0] == BYTES[0] == 'b';
    assert h[|h| - 1] == '-';
    StripBack(h, []);
    assert h + [] == h;
    MatchMeans(h, PrintNat(k), [], []);
  }

  /** The answer to a resume is exactly the rest of the file. */
  lemma ResumeIsTheRest(k: nat, data: Bytes)
    requires k < |data|
    ensures Parse(Some(ResumeFrom(k)), |data|) == Part(k, |data| - 1)
    ensures data[..k] + data[k..|data| - 1 + 1] == data
  {
    ResumeMatches(k);
    ParsePrint(k);
  }
}
