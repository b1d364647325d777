/**
 The incremental NDJSON decoder of the control-plane client.

 `Decode` is the specification: it reads a complete byte stream line by line. `NdjsonDecoder`
 is the decoder as the client runs it: it is fed the stream in chunks of any size, keeps one
 partial line, and never looks at a byte twice.
 */
module Framing {
  import opened Bytes

  const LF: byte := 10
  const CR: byte := 13

  datatype FramingError = FrameTooLarge | InvalidUtf8 | IncompleteFrame | AlreadyEnded

  /** What a stream decodes to: its frames in order, closed by the partial line left over or by
      the first error. */
  datatype Decoded = Frame(frame: seq<byte>, next: Decoded) | Partial(line: seq<byte>) | Bad(error: FramingError)

  function Frames(d: Decoded): seq<seq<byte>> {
    if d.Frame? then [d.frame] + Frames(d.next) else []
  }

  /** The partial line or the error behind the last frame. */
  function End(d: Decoded): (e: Decoded)
    ensures !e.Frame?
  {
    if d.Frame? then End(d.next) else d
  }

  /** `d` followed by `e` in place of its end. */
  function Then(d: Decoded, e: Decoded): Decoded {
    if d.Frame? then Frame(d.frame, Then(d.next, e)) else e
  }

  /** The frames `fs` followed by `e`. */
  function Released(fs: seq<seq<byte>>, e: Decoded): Decoded {
    if fs == [] then e else Released(fs[..|fs| - 1], Frame(fs[|fs| - 1], e))
  }

  // ----- UTF-8 validity, section 4 of RFC 3629 -----

  predicate Tail(b: byte) { 0x80 <= b <= 0xBF }

  /** Length of the well-formed UTF-8 sequence at the start of `s`, or 0 if there is none. */
  function Utf8Length(s: seq<byte>): (n: nat)
    ensures n <= |s|
  {
    if |s| >= 1 && s[0] <= 0x7F then 1
    else if |s| >= 2 && 0xC2 <= s[0] <= 0xDF && Tail(s[1]) then 2
    else if |s| >= 3 && Tail(s[2])
            && ((s[0] == 0xE0 && 0xA0 <= s[1] <= 0xBF)
                || (s[0] == 0xED && 0x80 <= s[1] <= 0x9F)
                || (0xE1 <= s[0] <= 0xEF && s[0] != 0xED && Tail(s[1]))) then 3
    else if |s| >= 4 && Tail(s[2]) && Tail(s[3])
            && ((s[0] == 0xF0 && 0x90 <= s[1] <= 0xBF)
                || (s[0] == 0xF4 && 0x80 <= s[1] <= 0x8F)
                || (0xF1 <= s[0] <= 0xF3 && Tail(s[1]))) then 4
    else 0
  }

  predicate ValidUtf8(s: seq<byte>) {
    |s| == 0 || (Utf8Length(s) > 0 && ValidUtf8(s[Utf8Length(s)..]))
  }

  /** The frame limit and the text encoding every frame has to respect. */
  datatype Rules = Rules(max: nat, valid: seq<byte> -> bool)

  // ----- Specification -----

  /** Where the frame in line `s[from..to]` ends: one trailing carriage return is not part of it. */
  function FrameEnd(s: seq<byte>, from: nat, to: nat): (n: nat)
    requires from <= to <= |s|
    ensures from <= n <= to
  {
    if from < to && s[to - 1] == CR then to - 1 else to
  }

  /** A partial line that no continuation can turn into an acceptable frame. */
  predicate Overlong(s: seq<byte>, from: nat, to: nat, max: nat)
    requires from <= to <= |s|
  {
    to - from > max && !(to - from == max + 1 && s[to - 1] == CR)
  }

  /** Reads the stream from `at` on, where the current line began at `from`, up to the first error.
      Lines end at line feeds, and a line is only judged when it ends. */
  function DecodeFrom(s: seq<byte>, from: nat, at: nat, rules: Rules): (d: Decoded)
    requires from <= at <= |s|
    decreases |s| - at
  {
    if at == |s| then
      if Overlong(s, from, at, rules.max) then Bad(FrameTooLarge) else Partial(s[from..])
    else if s[at] != LF then DecodeFrom(s, from, at + 1, rules)
    else
      var frame := s[from..FrameEnd(s, from, at)];
      if |frame| > rules.max then Bad(FrameTooLarge)
      else if !rules.valid(frame) then Bad(InvalidUtf8)
      else Frame(frame, DecodeFrom(s, at + 1, at + 1, rules))
  }

  function Decode(s: seq<byte>, rules: Rules): Decoded {
    DecodeFrom(s, 0, 0, rules)
  }

  // ----- Properties of the specification -----

  lemma {:induction false} ReleasedFrames(fs: seq<seq<byte>>, e: Decoded)
    ensures Frames(Released(fs, e)) == fs + Frames(e) && End(Released(fs, e)) == End(e)
  {
    if fs != [] {
      var init, last := fs[..|fs| - 1], fs[|fs| - 1];
      ReleasedFrames(init, Frame(last, e));
      assert fs == init + [last];
    }
  }

  lemma {:induction false} ThenFrames(d: Decoded, e: Decoded)
    ensures Frames(Then(d, e)) == Frames(d) + Frames(e) && End(Then(d, e)) == End(e)
  {
    if d.Frame? {
      ThenFrames(d.next, e);
    }
  }

  predicate NoLf(s: seq<byte>, from: nat, to: nat)
    requires from <= to <= |s|
  {
    forall i :: from <= i < to ==> s[i] != LF
  }

  /** An error of the decoder's two kinds, or a partial line that is the end of the stream, holds no line
      feed and is at most one byte over the limit. */
  predicate RestOk(s: seq<byte>, from: nat, end: Decoded, max: nat)
    requires from <= |s| && !end.Frame?
  {
    match end
    case Partial(line) =>
      && |line| <= max + 1 && |line| <= |s| - from && line == s[|s| - |line|..]
      && NoLf(line, 0, |line|) && !Overlong(line, 0, |line|, max)
    case Bad(error) => error == FrameTooLarge || error == InvalidUtf8
  }

  lemma LastLine(s: seq<byte>, from: nat, max: nat)
    requires from <= |s| && NoLf(s, from, |s|) && !Overlong(s, from, |s|, max)
    ensures RestOk(s, from, Partial(s[from..]), max)
  {
    assert forall i :: 0 <= i < |s| - from ==> s[from..][i] == s[from + i];
  }

  lemma EarlierLine(s: seq<byte>, earlier: nat, from: nat, end: Decoded, max: nat)
    requires earlier <= from <= |s| && !end.Frame? && RestOk(s, from, end, max)
    ensures RestOk(s, earlier, end, max)
  {
  }

  /** What a decode leaves over is within bounds. */
  lemma {:induction false} RestBounded(s: seq<byte>, from: nat, at: nat, rules: Rules)
    requires from <= at <= |s| && NoLf(s, from, at)
    ensures RestOk(s, from, End(DecodeFrom(s, from, at, rules)), rules.max)
    decreases |s| - at
  {
    if at == |s| {
      if !Overlong(s, from, at, rules.max) {
        LastLine(s, from, rules.max);
      }
    } else if s[at] != LF {
      RestBounded(s, from, at + 1, rules);
    } else {
      RestBounded(s, at + 1, at + 1, rules);
      EarlierLine(s, from, at + 1, End(DecodeFrom(s, at + 1, at + 1, rules)), rules.max);
    }
  }

  /** Every frame obeys the limit, is validly encoded and holds no line feed. */
  lemma {:induction false} FramesBounded(s: seq<byte>, from: nat, at: nat, rules: Rules)
    requires from <= at <= |s| && NoLf(s, from, at)
    ensures forall f :: f in Frames(DecodeFrom(s, from, at, rules)) ==> |f| <= rules.max && rules.valid(f) && LF !in f
    decreases |s| - at
  {
    if at < |s| {
      if s[at] != LF {
        FramesBounded(s, from, at + 1, rules);
      } else {
        FramesBounded(s, at + 1, at + 1, rules);
      }
    }
  }

  /** Decoding from the middle of a stream only depends on what follows. */
  lemma {:induction false} DecodeSuffix(s: seq<byte>, k: nat, from: nat, at: nat, rules: Rules)
    requires k <= from <= at <= |s|
    ensures DecodeFrom(s, from, at, rules) == DecodeFrom(s[k..], from - k, at - k, rules)
    decreases |s| - at
  {
    if at == |s| {
      assert s[k..][from - k..] == s[from..];
    } else if s[at] != LF {
      DecodeSuffix(s, k, from, at + 1, rules);
    } else {
      var e := FrameEnd(s, from, at);
      assert s[k..][from - k..e - k] == s[from..e];
      DecodeSuffix(s, k, at + 1, at + 1, rules);
    }
  }

  /** A line that is too long already stays too long, whatever follows. */
  lemma {:induction false} OverlongStays(s: seq<byte>, from: nat, at: nat, rules: Rules)
    requires from <= at <= |s| && NoLf(s, from, at) && at - from > rules.max
    requires at - from == rules.max + 1 ==> s[at - 1] != CR || (at < |s| && s[at] != LF)
    ensures DecodeFrom(s, from, at, rules) == Bad(FrameTooLarge)
    decreases |s| - at
  {
    if at < |s| && s[at] != LF {
      OverlongStays(s, from, at + 1, rules);
    }
  }

  /** Once a stream is in error, no continuation changes the error or the frames before it. */
  lemma {:induction false} ErrorIsFinal(a: seq<byte>, b: seq<byte>, from: nat, at: nat, rules: Rules)
    requires from <= at <= |a| && NoLf(a, from, at) && End(DecodeFrom(a, from, at, rules)).Bad?
    ensures DecodeFrom(a + b, from, at, rules) == DecodeFrom(a, from, at, rules)
    decreases |a| - at
  {
    if at == |a| {
      OverlongStays(a + b, from, at, rules);
    } else if a[at] != LF {
      ErrorIsFinal(a, b, from, at + 1, rules);
    } else {
      var e := FrameEnd(a, from, at);
      assert (a + b)[from..e] == a[from..e];
      if DecodeFrom(a, from, at, rules).Frame? {
        ErrorIsFinal(a, b, at + 1, at + 1, rules);
      }
    }
  }

  /** Appending to a stream in good order leaves its complete lines alone. */
  lemma {:induction false} DecodeAppended(a: seq<byte>, b: seq<byte>, from: nat, at: nat, k: nat, rules: Rules)
    requires from <= at <= |a| && NoLf(a, from, at)
    requires k <= |a| && NoLf(a, k, |a|) && End(DecodeFrom(a, from, at, rules)) == Partial(a[k..])
    ensures DecodeFrom(a + b, from, at, rules)
         == Then(DecodeFrom(a, from, at, rules), DecodeFrom(a + b, k, |a|, rules))
    decreases |a| - at
  {
    if at == |a| {
      assert |a[k..]| == |a[from..]|;
    } else if a[at] != LF {
      DecodeAppended(a, b, from, at + 1, k, rules);
    } else {
      var e := FrameEnd(a, from, at);
      assert (a + b)[from..e] == a[from..e];
      DecodeAppended(a, b, at + 1, at + 1, k, rules);
    }
  }

  /** Bytes of the current line may be skipped once they are known to hold no line feed. */
  lemma {:induction false} SkipScanned(s: seq<byte>, from: nat, at: nat, to: nat, rules: Rules)
    requires from <= at <= to <= |s| && NoLf(s, at, to)
    ensures DecodeFrom(s, from, at, rules) == DecodeFrom(s, from, to, rules)
    decreases |s| - at
  {
    if at < to {
      SkipScanned(s, from, at + 1, to, rules);
    }
  }

  /** Decoding may stop at any byte and continue later from the partial line alone. */
  lemma DecodeResumes(a: seq<byte>, b: seq<byte>, rules: Rules)
    requires End(Decode(a, rules)).Partial?
    ensures Decode(a + b, rules) == Then(Decode(a, rules), Decode(End(Decode(a, rules)).line + b, rules))
  {
    RestBounded(a, 0, 0, rules);
    var line := End(Decode(a, rules)).line;
    var k := |a| - |line|;
    assert forall i :: k <= i < |a| ==> a[i] == line[i - k];
    DecodeAppended(a, b, 0, 0, k, rules);
    DecodeSuffix(a + b, k, k, |a|, rules);
    assert (a + b)[k..] == line + b;
    SkipScanned(line + b, 0, 0, |line|, rules);
  }

  // ----- Any split of a stream into chunks -----

  function Flatten(chunks: seq<seq<byte>>): seq<byte> {
    if chunks == [] then [] else Flatten(chunks[..|chunks| - 1]) + chunks[|chunks| - 1]
  }

  /** What a caller has seen: the frames of the pushes that succeeded, and how things stand now. */
  datatype Seen = Seen(frames: seq<seq<byte>>, end: Decoded)

  /** What a caller has seen after pushing `chunks` one by one. A push that fails releases none of
      the frames it decoded itself. */
  function PushAll(chunks: seq<seq<byte>>, rules: Rules): (seen: Seen)
    ensures !seen.end.Frame?
  {
    if chunks == [] then Seen([], Partial([]))
    else
      var before := PushAll(chunks[..|chunks| - 1], rules);
      if before.end.Bad? then before
      else
        var now := Decode(before.end.line + chunks[|chunks| - 1], rules);
        if End(now).Bad? then Seen(before.frames, End(now))
        else Seen(before.frames + Frames(now), End(now))
  }

  /** Chunk boundaries are invisible: the error is that of the whole stream, and without one the
      frames and the partial line are too. Frames released before an error are a prefix of the
      frames the stream holds before it. */
  lemma {:induction false} ChunkingInvisible(chunks: seq<seq<byte>>, rules: Rules)
    ensures var seen, whole := PushAll(chunks, rules), Decode(Flatten(chunks), rules);
            && seen.end == End(whole)
            && seen.frames <= Frames(whole)
            && (seen.end.Partial? ==> seen.frames == Frames(whole))
  {
    if chunks != [] {
      var init, last := chunks[..|chunks| - 1], chunks[|chunks| - 1];
      ChunkingInvisible(init, rules);
      var before := Decode(Flatten(init), rules);
      if End(before).Bad? {
        ErrorIsFinal(Flatten(init), last, 0, 0, rules);
      } else {
        DecodeResumes(Flatten(init), last, rules);
        ThenFrames(before, Decode(End(before).line + last, rules));
      }
    }
  }

  /** What one more chunk adds, given that all earlier ones succeeded. */
  lemma PushedOne(chunks: seq<seq<byte>>, chunk: seq<byte>, rules: Rules)
    requires PushAll(chunks, rules).end.Partial?
    ensures var before, after := PushAll(chunks, rules), PushAll(chunks + [chunk], rules);
            var now := Decode(before.end.line + chunk, rules);
            && after.end == End(now) == End(Decode(Flatten(chunks + [chunk]), rules))
            && (End(now).Partial? ==> after.frames == before.frames + Frames(now))
  {
    assert (chunks + [chunk])[..|chunks|] == chunks;
    ChunkingInvisible(chunks + [chunk], rules);
  }

  /** Two splits of the same stream agree on failure and on the kind of error. */
  lemma SplitsAgree(left: seq<seq<byte>>, right: seq<seq<byte>>, rules: Rules)
    requires Flatten(left) == Flatten(right)
    ensures PushAll(left, rules).end == PushAll(right, rules).end
    ensures PushAll(left, rules).end.Partial? ==> PushAll(left, rules) == PushAll(right, rules)
  {
    ChunkingInvisible(left, rules);
    ChunkingInvisible(right, rules);
  }

  // ----- Round trip -----

  datatype Line = Line(frame: seq<byte>, crlf: bool)

  predicate Printable(l: Line, rules: Rules) {
    && |l.frame| <= rules.max && LF !in l.frame && rules.valid(l.frame)
    && (!l.crlf ==> FrameEnd(l.frame, 0, |l.frame|) == |l.frame|)
  }

  function PrintLine(l: Line): seq<byte> {
    l.frame + (if l.crlf then [CR, LF] else [LF])
  }

  function PrintLines(lines: seq<Line>): seq<byte> {
    if lines == [] then [] else PrintLine(lines[0]) + PrintLines(lines[1..])
  }

  function FramesOf(lines: seq<Line>): seq<seq<byte>> {
    if lines == [] then [] else [lines[0].frame] + FramesOf(lines[1..])
  }

  /** One printed line is read as its frame, and reading goes on behind it. */
  lemma PrintedLineDecodes(l: Line, more: seq<byte>, rules: Rules)
    requires Printable(l, rules)
    ensures Decode(PrintLine(l) + more, rules) == Frame(l.frame, Decode(more, rules))
  {
    var s := PrintLine(l) + more;
    var n := |PrintLine(l)| - 1;
    SkipScanned(s, 0, 0, n, rules);
    assert s[0..FrameEnd(s, 0, n)] == l.frame;
    DecodeSuffix(s, n + 1, n + 1, n + 1, rules);
    assert s[n + 1..] == more;
  }

  /** Any frames within the limits, written with either line ending, are read back unchanged. */
  lemma {:induction false} PrintedLinesDecode(lines: seq<Line>, rules: Rules)
    requires forall l :: l in lines ==> Printable(l, rules)
    ensures Frames(Decode(PrintLines(lines), rules)) == FramesOf(lines)
    ensures End(Decode(PrintLines(lines), rules)) == Partial([])
  {
    if lines != [] {
      assert Printable(lines[0], rules);
      PrintedLinesDecode(lines[1..], rules);
      PrintedLineDecodes(lines[0], PrintLines(lines[1..]), rules);
    }
  }

  // ----- The scan -----

  /** The scan of `s` has released `frames`, stands at `index` in the line starting at `start`,
      and has found nothing wrong so far. */
  predicate Scanned(s: seq<byte>, frames: seq<seq<byte>>, start: nat, index: nat, rules: Rules) {
    && start <= index <= |s|
    && NoLf(s, start, index)
    && !Overlong(s, start, index, rules.max)
    && Decode(s, rules) == Released(frames, DecodeFrom(s, start, index, rules))
  }

  /** At a line feed the specification takes the same line, which is within the limit. */
  lemma LineScanned(s: seq<byte>, frames: seq<seq<byte>>, start: nat, index: nat, rules: Rules)
    requires index < |s| && Scanned(s, frames, start, index, rules) && s[index] == LF
    ensures var frame := s[start..FrameEnd(s, start, index)];
            && |frame| <= rules.max
            && (if rules.valid(frame) then Scanned(s, frames + [frame], index + 1, index + 1, rules)
                else End(Decode(s, rules)) == Bad(InvalidUtf8))
  {
    var frame := s[start..FrameEnd(s, start, index)];
    assert (frames + [frame])[..|frames|] == frames;
    ReleasedFrames(frames, Bad(InvalidUtf8));
  }

  lemma ScanEnds(s: seq<byte>, frames: seq<seq<byte>>, start: nat, rules: Rules)
    requires Scanned(s, frames, start, |s|, rules)
    ensures Frames(Decode(s, rules)) == frames && End(Decode(s, rules)) == Partial(s[start..])
  {
    ReleasedFrames(frames, Partial(s[start..]));
  }

  /** A line with no line feed up to `index` that reaches over the limit there cannot decode,
      unless that byte is the carriage return of a line ending right behind it. */
  lemma OverlongLineFails(s: seq<byte>, frames: seq<seq<byte>>, start: nat, index: nat, rules: Rules)
    requires index < |s| && Scanned(s, frames, start, index, rules) && s[index] != LF
    requires index - start + 1 > rules.max
    requires !(index - start == rules.max && s[index] == CR && (index + 1 == |s| || s[index + 1] == LF))
    ensures End(Decode(s, rules)) == Bad(FrameTooLarge)
  {
    OverlongStays(s, start, index + 1, rules);
    ReleasedFrames(frames, Bad(FrameTooLarge));
  }

  /** The scan loop of a push: splits `s` into the frames it completes and the line that starts at
      `frameStart`, looking at no byte before `scanFrom`. */
  method Scan(s: seq<byte>, scanFrom: nat, rules: Rules)
    returns (frames: seq<seq<byte>>, frameStart: nat, error: Option<FramingError>)
    requires scanFrom <= |s| && NoLf(s, 0, scanFrom) && !Overlong(s, 0, scanFrom, rules.max)
    ensures frameStart <= |s|
    ensures error.None? ==> Frames(Decode(s, rules)) == frames && End(Decode(s, rules)) == Partial(s[frameStart..])
    ensures error.Some? ==> End(Decode(s, rules)) == Bad(error.value)
  {
    var max := rules.max;
    frames, frameStart := [], 0;
    var index := scanFrom;
    SkipScanned(s, 0, 0, index, rules);
    while index < |s|
      invariant Scanned(s, frames, frameStart, index, rules)
    {
      if s[index] != LF {
        var pendingBytes := index - frameStart + 1;
        var splitCrlfCandidate := pendingBytes == max + 1 && s[index] == CR
                                  && (index + 1 == |s| || s[index + 1] == LF);
        if pendingBytes > max && !splitCrlfCandidate {
          OverlongLineFails(s, frames, frameStart, index, rules);
          return frames, frameStart, Some(FrameTooLarge);
        }
        index := index + 1;
        continue;
      }
      var frameEnd := index;
      if frameEnd > frameStart && s[frameEnd - 1] == CR {
        frameEnd := frameEnd - 1;
      }
      var frameBytes := s[frameStart..frameEnd];
      LineScanned(s, frames, frameStart, index, rules);
      // The length check of the source at this point cannot fire: the scan has already refused
      // every longer line.
      assert |frameBytes| <= max;
      if !rules.valid(frameBytes) {
        return frames, frameStart, Some(InvalidUtf8);
      }
      frames := frames + [frameBytes];
      frameStart := index + 1;
      index := index + 1;
    }
    ScanEnds(s, frames, frameStart, rules);
    // Nor can the length check behind the loop.
    assert !(|s[frameStart..]| > max && !(|s[frameStart..]| == max + 1 && s[|s| - 1] == CR));
    return frames, frameStart, None;
  }

  // ----- The decoder -----

  datatype PushResult = Pushed(frames: seq<seq<byte>>) | Failed(error: FramingError)

  class NdjsonDecoder {
    var buffer: seq<byte>
    const rules: Rules
    var scanFrom: nat
    var ended: bool
    var failure: Option<FramingError>

    /** All chunks pushed so far. */
    ghost var chunks: seq<seq<byte>>

    /** The decoder's own fields always tell how the stream pushed so far decodes. */
    ghost predicate Valid()
      reads this
    {
      && rules.max > 0
      && match PushAll(chunks, rules).end
         case Bad(error) => failure == Some(error)
         case Partial(line) =>
           && failure == None && buffer == line && scanFrom == |buffer|
           && NoLf(buffer, 0, |buffer|) && !Overlong(buffer, 0, |buffer|, rules.max)
    }

    constructor (max: nat)
      requires max > 0
      ensures Valid() && rules == Rules(max, ValidUtf8) && chunks == [] && !ended
    {
      buffer, rules, scanFrom, ended, failure := [], Rules(max, ValidUtf8), 0, false, None;
      chunks := [];
    }

    /** A frame limit of zero is refused. */
    static method Open(max: nat) returns (r: Option<NdjsonDecoder>)
      ensures r.Some? <==> max > 0
      ensures r.Some? ==> fresh(r.value) && r.value.Valid() && r.value.rules == Rules(max, ValidUtf8)
                          && r.value.chunks == [] && !r.value.ended
    {
      if max == 0 {
        return None;
      }
      var d := new NdjsonDecoder(max);
      return Some(d);
    }

    /** One push. The result and the new state are those of the stream specification; only the
        bytes from `scanFrom` on are looked at. */
    method Push(chunk: seq<byte>) returns (r: PushResult)
      requires Valid()
      modifies this
      ensures Valid() && ended == old(ended)
      ensures old(failure).Some? ==> r == Failed(old(failure).value) && chunks == old(chunks)
      ensures old(failure).None? && old(ended) ==> r == Failed(AlreadyEnded) && chunks == old(chunks)
      ensures old(failure).None? && !old(ended) ==>
                && chunks == old(chunks) + [chunk]
                && (match r
                    case Pushed(fs) =>
                      && End(Decode(Flatten(chunks), rules)) == Partial(buffer)
                      && PushAll(chunks, rules).frames == PushAll(old(chunks), rules).frames + fs
                      && |buffer| <= rules.max + 1
                    case Failed(e) => End(Decode(Flatten(chunks), rules)) == Bad(e))
    {
      if failure.Some? {
        return Failed(failure.value);
      }
      if ended {
        return Failed(AlreadyEnded);
      }
      buffer := buffer + chunk;
      chunks := chunks + [chunk];
      PushedOne(old(chunks), chunk, rules);
      var frames, frameStart, error := Scan(buffer, scanFrom, rules);
      if error.Some? {
        failure := error;
        return Failed(error.value);
      }
      buffer := buffer[frameStart..];
      scanFrom := |buffer|;
      RestBounded(old(buffer) + chunk, 0, 0, rules);
      return Pushed(frames);
    }

    /** Ends the stream: a partial line is an error, and nothing can follow. */
    method Finish() returns (r: Option<FramingError>)
      requires Valid()
      modifies this`ended
      ensures Valid()
      ensures failure.Some? ==> r == failure && ended == old(ended)
      ensures failure.None? ==> ended
      ensures failure.None? && old(ended) ==> r == Some(AlreadyEnded)
      ensures failure.None? && !old(ended) ==>
                r == if End(Decode(Flatten(chunks), rules)) == Partial([]) then None else Some(IncompleteFrame)
    {
      ChunkingInvisible(chunks, rules);
      if failure.Some? {
        return failure;
      }
      if ended {
        return Some(AlreadyEnded);
      }
      ended := true;
      return if buffer == [] then None else Some(IncompleteFrame);
    }
  }
}
