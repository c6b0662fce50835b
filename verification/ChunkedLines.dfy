/**
  Reading a byte stream line by line from chunks of any size. A reader folds a step over the complete lines it finds
  and keeps the rest in a buffer; two caps bound the buffer and the stream while they arrive.
*/
module ChunkedLines {
  import opened Options

  type Bytes = string  // one character per byte

  const NEWLINE := '\n'

  /** The index of the first newline, or the length. */
  function NewlineAt(s: Bytes): (n: nat)
    ensures n <= |s|
    ensures n < |s| ==> s[n] == NEWLINE
    ensures forall i :: 0 <= i < n ==> s[i] != NEWLINE
  {
    if s == [] || s[0] == NEWLINE then 0 else 1 + NewlineAt(s[1..])
  }

  /** The complete lines of a stream, without their newlines. */
  function Lines(s: Bytes): seq<Bytes>
    decreases |s|
  {
    var end := NewlineAt(s);
    if end == |s| then [] else [s[..end]] + Lines(s[end + 1..])
  }

  /** What follows the last newline. */
  function Rest(s: Bytes): Bytes
    decreases |s|
  {
    var end := NewlineAt(s);
    if end == |s| then s else Rest(s[end + 1..])
  }

  function Concat(chunks: seq<Bytes>): Bytes
  {
    if chunks == [] then [] else Concat(chunks[..|chunks| - 1]) + chunks[|chunks| - 1]
  }

  // ----- readers ---------------------------------------------------------------------------------------------

  /** `streamCap` None is no cap on the whole stream. */
  datatype Reader<!S> = Reader(step: (S, Bytes) -> S, running: S -> bool, lineCap: int, streamCap: Option<int>)

  function Fold<S>(r: Reader<S>, state: S, lines: seq<Bytes>): S
  {
    if lines == [] || !r.running(state) then state else Fold(r, r.step(state, lines[0]), lines[1..])
  }

  datatype Capped = Uncapped | StreamTooLong | LineTooLong

  datatype Progress<S> = Progress(state: S, buffer: Bytes, total: nat, capped: Capped)

  predicate Reading<S>(r: Reader<S>, p: Progress<S>) { p.capped.Uncapped? && r.running(p.state) }

  /** One chunk: the stream cap, then every complete line, then the cap on what is left. */
  function Feed<S>(r: Reader<S>, p: Progress<S>, chunk: Bytes): Progress<S>
  {
    if !Reading(r, p) then p
    else if r.streamCap.Some? && p.total + |chunk| > r.streamCap.value then
      p.(total := p.total + |chunk|, capped := StreamTooLong)
    else
      var buffer := p.buffer + chunk;
      var state := Fold(r, p.state, Lines(buffer));
      Progress(state, Rest(buffer), p.total + |chunk|,
               if r.running(state) && |Rest(buffer)| > r.lineCap then LineTooLong else Uncapped)
  }

  function FeedAll<S>(r: Reader<S>, state: S, chunks: seq<Bytes>): Progress<S>
  {
    if chunks == [] then Progress(state, [], 0, Uncapped)
    else Feed(r, FeedAll(r, state, chunks[..|chunks| - 1]), chunks[|chunks| - 1])
  }

  // ----- splitting -------------------------------------------------------------------------------------------

  lemma NoNewlineInRest(s: Bytes)
    ensures NewlineAt(Rest(s)) == |Rest(s)|
    decreases |s|
  {
    var end := NewlineAt(s);
    if end < |s| { NoNewlineInRest(s[end + 1..]); }
  }

  /** A line, its newline, and what follows. */
  lemma LinesCons(line: Bytes, tail: Bytes)
    requires NEWLINE !in line
    ensures Lines(line + [NEWLINE] + tail) == [line] + Lines(tail)
    ensures Rest(line + [NEWLINE] + tail) == Rest(tail)
  {
    var s := line + [NEWLINE] + tail;
    assert s[|line|] == NEWLINE && forall i :: 0 <= i < |line| ==> s[i] == line[i];
    assert NewlineAt(s) == |line|;
    assert s[..|line|] == line && s[|line| + 1..] == tail;
  }

  /** The same, of a stream that holds a newline. */
  lemma FirstLine(a: Bytes) returns (line: Bytes, tail: Bytes)
    requires NewlineAt(a) < |a|
    ensures NEWLINE !in line && a == line + [NEWLINE] + tail && |tail| < |a|
  {
    var end := NewlineAt(a);
    line, tail := a[..end], a[end + 1..];
  }

  /** Splitting `a + b` follows from splitting `a`. */
  ghost predicate Splits(a: Bytes, b: Bytes)
  {
    Lines(a + b) == Lines(a) + Lines(Rest(a) + b) && Rest(a + b) == Rest(Rest(a) + b)
  }

  lemma SplitsCons(line: Bytes, tail: Bytes, b: Bytes)
    requires NEWLINE !in line && Splits(tail, b)
    ensures Splits(line + [NEWLINE] + tail, b)
  {
    var head := line + [NEWLINE];
    Regroup(head, tail, b);
    Regroup([line], Lines(tail), Lines(Rest(tail) + b));
    LinesCons(line, tail);
    LinesCons(line, tail + b);
    SplitsBy(head + tail, b, [line], Lines(tail), Lines(Rest(tail) + b));
  }

  lemma SplitsBy(a: Bytes, b: Bytes, first: seq<Bytes>, middle: seq<Bytes>, last: seq<Bytes>)
    requires Lines(a) == first + middle && Lines(Rest(a) + b) == last
    requires Lines(a + b) == first + (middle + last) && Rest(a + b) == Rest(Rest(a) + b)
    ensures Splits(a, b)
  {
    Regroup(first, middle, last);
  }

  lemma Regroup<T>(x: seq<T>, y: seq<T>, z: seq<T>)
    ensures x + (y + z) == (x + y) + z
  {
  }

  /** More bytes complete the rest and add lines after it. */
  lemma {:induction false} SplitMore(a: Bytes, b: Bytes)
    ensures Splits(a, b)
    decreases |a|
  {
    if NewlineAt(a) == |a| {
      assert Lines(a) == [] && Rest(a) == a;
    } else {
      var line, tail := FirstLine(a);
      SplitMore(tail, b);
      SplitsCons(line, tail, b);
    }
  }

  lemma {:induction false} FoldMore<S>(r: Reader<S>, state: S, a: seq<Bytes>, b: seq<Bytes>)
    ensures Fold(r, state, a + b) == Fold(r, Fold(r, state, a), b)
    decreases |a|
  {
    if a == [] {
      assert a + b == b;
    } else if r.running(state) {
      assert (a + b)[0] == a[0] && (a + b)[1..] == a[1..] + b;
      FoldMore(r, r.step(state, a[0]), a[1..], b);
    }
  }

  // ----- chunk independence ----------------------------------------------------------------------------------

  /** What a reader that was never capped has done, told from the whole stream. */
  ghost predicate AsWhole<S>(r: Reader<S>, state: S, stream: Bytes, p: Progress<S>)
  {
    && p.state == Fold(r, state, Lines(stream))
    && (r.running(p.state) ==> p.buffer == Rest(stream) && p.total == |stream|)
  }

  /** However a stream is cut into chunks, a reader that no cap stopped did the same as a fold over its lines. */
  lemma {:induction false} ChunksDoNotMatter<S>(r: Reader<S>, state: S, chunks: seq<Bytes>)
    ensures var p := FeedAll(r, state, chunks);
            p.capped.Uncapped? ==> AsWhole(r, state, Concat(chunks), p)
  {
    if chunks != [] {
      var n := |chunks| - 1;
      var before, chunk := FeedAll(r, state, chunks[..n]), chunks[n];
      ChunksDoNotMatter(r, state, chunks[..n]);
      var stream := Concat(chunks[..n]);
      SplitMore(stream, chunk);
      FoldMore(r, state, Lines(stream), Lines(Rest(stream) + chunk));
    }
  }

  /** Every line, and what is left, is within the cap. */
  ghost predicate LinesWithin(s: Bytes, cap: int)
  {
    (forall i :: 0 <= i < |Lines(s)| ==> |Lines(s)[i]| <= cap) && |Rest(s)| <= cap
  }

  lemma PrefixWithin(a: Bytes, b: Bytes, cap: int)
    requires LinesWithin(a + b, cap)
    ensures LinesWithin(a, cap)
  {
    SplitMore(a, b);
    forall i | 0 <= i < |Lines(a)| ensures |Lines(a)[i]| <= cap {
      assert Lines(a)[i] == Lines(a + b)[i];
    }
    var tail := Rest(a) + b;
    NoNewlineInRest(a);
    assert NewlineAt(tail) >= |Rest(a)|;
    if NewlineAt(tail) < |tail| {
      assert Lines(a + b)[|Lines(a)|] == Lines(tail)[0] == tail[..NewlineAt(tail)];
    }
  }

  /** With the caps respected no chunking is stopped by one. */
  lemma {:induction false} CapsRespected<S>(r: Reader<S>, state: S, chunks: seq<Bytes>)
    requires LinesWithin(Concat(chunks), r.lineCap)
    requires r.streamCap.Some? ==> |Concat(chunks)| <= r.streamCap.value
    ensures FeedAll(r, state, chunks).capped.Uncapped?
  {
    if chunks != [] {
      var n := |chunks| - 1;
      PrefixWithin(Concat(chunks[..n]), chunks[n], r.lineCap);
      CapsRespected(r, state, chunks[..n]);
      ChunksDoNotMatter(r, state, chunks[..n]);
      SplitMore(Concat(chunks[..n]), chunks[n]);
    }
  }

  /** So for a stream within its caps the outcome is the fold over the lines of the whole, however it was cut. */
  lemma ReadAsWhole<S>(r: Reader<S>, state: S, chunks: seq<Bytes>)
    requires LinesWithin(Concat(chunks), r.lineCap)
    requires r.streamCap.Some? ==> |Concat(chunks)| <= r.streamCap.value
    ensures FeedAll(r, state, chunks).state == Fold(r, state, Lines(Concat(chunks)))
  {
    CapsRespected(r, state, chunks);
    ChunksDoNotMatter(r, state, chunks);
  }
}
