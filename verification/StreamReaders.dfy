/** The two incremental readers of the MCP client: server-sent events over HTTP, and lines over a pipe. */
module StreamReaders {
  import opened Options
  import opened ChunkedLines

  const DATA := "data"

  const MAX_STREAM_BYTES := 8388608
  const MAX_SSE_LINE_BYTES := 65536
  const MAX_EVENT_BYTES := 1048576
  const MAX_SSE_EVENTS := 256

  // ----- server-sent events ----------------------------------------------------------------------------------

  datatype End = Answered | TooManyEvents | EventTooLong | NulByte

  /** The event being gathered, the events counted, the frames queued, and how reading ended, if it has. */
  datatype Sse = Sse(data: Bytes, events: nat, frames: seq<Bytes>, end: Option<End>)

  const FRESH_SSE := Sse([], 0, [], None)

  function WithoutReturns(line: Bytes): Bytes
  {
    if line != [] && line[|line| - 1] == '\r' then WithoutReturns(line[..|line| - 1]) else line
  }

  /** The index of the first colon, or the length. */
  function ColonAt(line: Bytes): (n: nat)
    ensures n <= |line|
  {
    if line == [] || line[0] == ':' then 0 else 1 + ColonAt(line[1..])
  }

  function ValueOf(line: Bytes): Bytes
  {
    var colon := ColonAt(line);
    var value := if colon == |line| then [] else line[colon + 1..];
    if value != [] && value[0] == ' ' then value[1..] else value
  }

  /** A blank line ends an event; `answers` tells whether a frame is the response to this request. */
  function Dispatch(s: Sse, answers: Bytes -> bool): Sse
  {
    if s.data == [] then s
    else if s.events + 1 > MAX_SSE_EVENTS then s.(events := s.events + 1, end := Some(TooManyEvents))
    else if '\0' in s.data then s.(events := s.events + 1, end := Some(NulByte))
    else Sse([], s.events + 1, s.frames + [s.data], if answers(s.data) then Some(Answered) else None)
  }

  function Gather(s: Sse, value: Bytes): Sse
  {
    var data := (if s.data == [] then [] else s.data + [NEWLINE]) + value;
    s.(data := data, end := if |data| > MAX_EVENT_BYTES then Some(EventTooLong) else None)
  }

  function OnLine(s: Sse, raw: Bytes, answers: Bytes -> bool): Sse
  {
    var line := WithoutReturns(raw);
    if line == [] then Dispatch(s, answers)
    else if line[0] == ':' then s
    else if line[..ColonAt(line)] == DATA then Gather(s, ValueOf(line))
    else s
  }

  function SseReader(answers: Bytes -> bool): Reader<Sse>
  {
    Reader((s: Sse, line: Bytes) => OnLine(s, line, answers), (s: Sse) => s.end.None?, MAX_SSE_LINE_BYTES,
           Some(MAX_STREAM_BYTES))
  }

  datatype Stop = Ended(end: End) | StreamEnded | Capped(capped: Capped)

  function StopOf(p: Progress<Sse>): Stop
  {
    if !p.capped.Uncapped? then Stop.Capped(p.capped)
    else if p.state.end.Some? then Ended(p.state.end.value) else StreamEnded
  }

  /** The inner loop: every complete line of the buffer, until the events end. */
  method TakeEvents(s: Sse, buffer: Bytes, answers: Bytes -> bool) returns (next: Sse, rest: Bytes)
    requires s.end.None?
    ensures next == Fold(SseReader(answers), s, Lines(buffer))
    ensures next.end.None? ==> rest == Rest(buffer)
  {
    next, rest := s, buffer;
    while next.end.None?
      invariant Fold(SseReader(answers), s, Lines(buffer)) == Fold(SseReader(answers), next, Lines(rest))
      invariant next.end.None? ==> Rest(buffer) == Rest(rest)
      decreases next.end.None?, |rest|
    {
      var end := NewlineAt(rest);
      if end == |rest| { return; }
      next := OnLine(next, rest[..end], answers);
      rest := rest[end + 1..];
    }
  }

  /**
    `_read_events`: frames are queued and reading stops as the fold over the chunks says. Reading an exhausted stream
    raises.
  */
  method ReadEvents(chunks: seq<Bytes>, answers: Bytes -> bool) returns (frames: seq<Bytes>, stop: Stop)
    ensures frames == FeedAll(SseReader(answers), FRESH_SSE, chunks).state.frames
    ensures stop == StopOf(FeedAll(SseReader(answers), FRESH_SSE, chunks))
  {
    var r := SseReader(answers);
    var s, buffer := FRESH_SSE, [];
    var total: nat := 0;
    for i := 0 to |chunks|
      invariant FeedAll(r, FRESH_SSE, chunks[..i]) == Progress(s, buffer, total, Uncapped)
      invariant s.end.None?
    {
      ghost var before := FeedAll(r, FRESH_SSE, chunks[..i]);
      assert chunks[..i + 1][..i] == chunks[..i];
      total := total + |chunks[i]|;
      if total > MAX_STREAM_BYTES {
        assert FeedAll(r, FRESH_SSE, chunks[..i + 1]) == before.(total := total, capped := StreamTooLong);
        StoppedStays(r, FRESH_SSE, chunks, i + 1);
        return s.frames, Stop.Capped(StreamTooLong);
      }
      var next, rest := TakeEvents(s, buffer + chunks[i], answers);
      s, buffer := next, rest;
      if s.end.Some? {
        StoppedStays(r, FRESH_SSE, chunks, i + 1);
        return s.frames, Ended(s.end.value);
      }
      if |buffer| > MAX_SSE_LINE_BYTES {
        StoppedStays(r, FRESH_SSE, chunks, i + 1);
        return s.frames, Stop.Capped(LineTooLong);
      }
    }
    assert chunks[..|chunks|] == chunks;
    return s.frames, StreamEnded;
  }

  /** A reader that has stopped reads no further. */
  lemma {:induction false} StoppedStays<S>(r: Reader<S>, state: S, chunks: seq<Bytes>, n: nat)
    requires n <= |chunks| && !Reading(r, FeedAll(r, state, chunks[..n]))
    ensures FeedAll(r, state, chunks) == FeedAll(r, state, chunks[..n])
    decreases |chunks|
  {
    if n == |chunks| {
      assert chunks[..n] == chunks;
    } else {
      var last := |chunks| - 1;
      assert chunks[..last][..n] == chunks[..n];
      StoppedStays(r, state, chunks[..last], n);
    }
  }

  /**
    For a stream within the stream and line caps, however it is cut, the frames queued and the event reading stops at
    are those of a fold over the lines of the whole stream.
  */
  lemma SameEvents(chunks: seq<Bytes>, answers: Bytes -> bool)
    requires |Concat(chunks)| <= MAX_STREAM_BYTES && LinesWithin(Concat(chunks), MAX_SSE_LINE_BYTES)
    ensures var whole := Fold(SseReader(answers), FRESH_SSE, Lines(Concat(chunks)));
            var p := FeedAll(SseReader(answers), FRESH_SSE, chunks);
            p.state == whole && StopOf(p) == (if whole.end.Some? then Ended(whole.end.value) else StreamEnded)
  {
    ReadAsWhole(SseReader(answers), FRESH_SSE, chunks);
    CapsRespected(SseReader(answers), FRESH_SSE, chunks);
  }

  /** What was queued stays queued, one frame per event, none with a NUL byte, none after the answer. */
  ghost predicate FramesOk(s: Sse, answers: Bytes -> bool)
  {
    && |s.frames| <= s.events && (s.end.None? ==> |s.frames| == s.events <= MAX_SSE_EVENTS)
    && (forall i :: 0 <= i < |s.frames| ==>
          s.frames[i] != [] && '\0' !in s.frames[i] && |s.frames[i]| <= MAX_EVENT_BYTES)
    && (forall i :: 0 <= i < |s.frames| && answers(s.frames[i]) ==> i == |s.frames| - 1 && s.end == Some(Answered))
    && (s.end == Some(Answered) ==> s.frames != [] && answers(s.frames[|s.frames| - 1]))
    && (s.end.None? ==> |s.data| <= MAX_EVENT_BYTES)
  }

  lemma LineKeepsFrames(s: Sse, line: Bytes, answers: Bytes -> bool)
    requires FramesOk(s, answers) && s.end.None?
    ensures FramesOk(OnLine(s, line, answers), answers)
  {
  }

  lemma {:induction false} FramesStayOk(s: Sse, lines: seq<Bytes>, answers: Bytes -> bool)
    requires FramesOk(s, answers)
    ensures FramesOk(Fold(SseReader(answers), s, lines), answers)
    decreases |lines|
  {
    if lines != [] && s.end.None? {
      LineKeepsFrames(s, lines[0], answers);
      FramesStayOk(OnLine(s, lines[0], answers), lines[1..], answers);
    }
  }

  /** Reading stops at the answer: it is the last frame queued, and the only one that answers. */
  lemma StopsAtAnswer(lines: seq<Bytes>, answers: Bytes -> bool)
    ensures FramesOk(Fold(SseReader(answers), FRESH_SSE, lines), answers)
  {
    FramesStayOk(FRESH_SSE, lines, answers);
  }

  // ----- lines over a pipe -----------------------------------------------------------------------------------

  /** The ASCII whitespace that `strip` removes. */
  predicate Blank(line: Bytes)
  {
    forall i :: 0 <= i < |line| ==> line[i] == ' ' || '\t' <= line[i] <= '\r'
  }

  function PipeReader(cap: int): Reader<seq<Bytes>>
  {
    Reader((queue: seq<Bytes>, line: Bytes) => if Blank(line) then queue else queue + [line],
           (queue: seq<Bytes>) => true, cap, None)
  }

  /** `_LineReader._run`: the lines queued, and whether a message outgrew the cap. */
  method ReadLines(chunks: seq<Bytes>, cap: int) returns (queue: seq<Bytes>, tooLong: bool)
    ensures var p := FeedAll(PipeReader(cap), [], chunks); queue == p.state && tooLong == !p.capped.Uncapped?
  {
    var r := PipeReader(cap);
    var buffer: Bytes := [];
    var total: nat := 0;
    queue, tooLong := [], false;
    for i := 0 to |chunks|
      invariant FeedAll(r, [], chunks[..i]) == Progress(queue, buffer, total, Uncapped)
    {
      assert chunks[..i + 1][..i] == chunks[..i];
      ghost var start := buffer + chunks[i];
      ghost var before := queue;
      buffer := buffer + chunks[i];
      total := total + |chunks[i]|;
      while true
        invariant Fold(r, before, Lines(start)) == Fold(r, queue, Lines(buffer)) && Rest(start) == Rest(buffer)
        decreases |buffer|
      {
        var end := NewlineAt(buffer);
        if end == |buffer| { break; }
        var line := buffer[..end];
        buffer := buffer[end + 1..];
        if !Blank(line) { queue := queue + [line]; }
      }
      if |buffer| > cap {
        StoppedStays(r, [], chunks, i + 1);
        return queue, true;
      }
    }
    assert chunks[..|chunks|] == chunks;
  }

  /** The lines of a stream that are not blank, in order. */
  function Messages(lines: seq<Bytes>): seq<Bytes>
  {
    if lines == [] then [] else (if Blank(lines[0]) then [] else [lines[0]]) + Messages(lines[1..])
  }

  lemma {:induction false} PipeFold(cap: int, queue: seq<Bytes>, lines: seq<Bytes>)
    ensures Fold(PipeReader(cap), queue, lines) == queue + Messages(lines)
    decreases |lines|
  {
    if lines != [] {
      var next := if Blank(lines[0]) then queue else queue + [lines[0]];
      PipeFold(cap, next, lines[1..]);
      assert next + Messages(lines[1..]) == queue + Messages(lines);
    }
  }

  /** Within the cap, the queue is the messages of the whole stream, however it was cut. */
  lemma SameLines(chunks: seq<Bytes>, cap: int)
    requires LinesWithin(Concat(chunks), cap)
    ensures var p := FeedAll(PipeReader(cap), [], chunks);
            p.state == Messages(Lines(Concat(chunks))) && p.capped.Uncapped?
  {
    ReadAsWhole(PipeReader(cap), [], chunks);
    CapsRespected(PipeReader(cap), [], chunks);
    PipeFold(cap, [], Lines(Concat(chunks)));
  }
}
