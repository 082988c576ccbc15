/**
 * The server-sent-events readers of `src/lib/sse/parse.ts`: `parseSSE` and
 * `parseAnthropicSSE`. Both keep a text buffer across reads, cut a frame at
 * every first `"\n\n"` in the buffer, and turn each frame's lines into
 * callbacks.
 *
 * The response body is a sequence of reads, each already decoded to text or
 * failing; the end of the sequence is the reader's `done`. `JSON.parse` is the
 * partial function `parse`. The callbacks a parser makes are returned, in
 * order, as a sequence of `Callback`s.
 */
module Sse {
  import opened Wrappers
  import opened Strings

  /** One `reader.read()`: a decoded chunk of text, or a read that throws. */
  datatype Read = Chunk(text: string) | ReadFailure

  /** One call the parser makes: `onData(json)` or `onDone()`. */
  datatype Callback<J> = OnData(json: J) | OnDone

  /** `parseSSE` reads `data:` lines; `parseAnthropicSSE` reads `event:`/`data:` pairs. */
  datatype Dialect = DataLines | AnthropicEvents

  // ------------------------------------------------------------------ reads

  /** The text read before the reader ends or fails. */
  function Received(results: seq<Read>): string {
    if results == [] || results[0].ReadFailure? then "" else results[0].text + Received(results[1..])
  }

  /** Cutting one read into two reads does not change the text received. */
  lemma {:induction false} SplitChunk(results: seq<Read>, i: nat, a: string, b: string)
    requires i < |results| && results[i] == Chunk(a + b)
    ensures Received(results[..i] + [Chunk(a), Chunk(b)] + results[i + 1..]) == Received(results)
  {
    var results' := results[..i] + [Chunk(a), Chunk(b)] + results[i + 1..];
    if i == 0 {
      assert results'[1..][1..] == results[1..];
    } else {
      assert results'[0] == results[0];
      assert results'[1..] == results[1..][..i - 1] + [Chunk(a), Chunk(b)] + results[1..][i..];
      SplitChunk(results[1..], i - 1, a, b);
    }
  }

  // ----------------------------------------------------------------- frames

  /** A frame separator `"\n\n"` starts at `i`. */
  predicate SepAt(s: string, i: int) {
    0 <= i && i + 1 < |s| && s[i] == '\n' && s[i + 1] == '\n'
  }

  /** `s.indexOf("\n\n", from)`. */
  function FindSepFrom(s: string, from: nat): (i: int)
    ensures i == -1 || (from <= i && SepAt(s, i))
    ensures forall j :: from <= j && (i == -1 || j < i) ==> !SepAt(s, j)
    decreases |s| - from
  {
    if from + 1 >= |s| then -1
    else if SepAt(s, from) then from
    else FindSepFrom(s, from + 1)
  }

  /** `s.indexOf("\n\n")`. */
  function FindSep(s: string): (i: int)
    ensures i == -1 || SepAt(s, i)
    ensures forall j :: 0 <= j && (i == -1 || j < i) ==> !SepAt(s, j)
  {
    FindSepFrom(s, 0)
  }

  /** Frames put back together with their separators, followed by the unfinished rest. */
  function Unframe(frames: seq<string>, rest: string): string {
    if frames == [] then rest else frames[0] + "\n\n" + Unframe(frames[1..], rest)
  }

  /**
   * Lines 20-22, run to the end of a buffer: the complete frames, each cut at
   * the first separator, and the text after the last separator. Nothing is
   * lost or added, no frame holds a separator, and the rest holds none.
   */
  function Frames(s: string): (seq<string>, string)
    decreases |s|
  {
    var i := FindSep(s);
    if i == -1 then ([], s)
    else
      var tail := Frames(s[i + 2..]);
      ([s[..i]] + tail.0, tail.1)
  }

  /** Nothing is lost or added, no frame holds a separator, and the rest holds none. */
  lemma {:induction false} FramesSound(s: string)
    ensures Unframe(Frames(s).0, Frames(s).1) == s
    ensures forall k :: 0 <= k < |Frames(s).0| ==> FindSep(Frames(s).0[k]) == -1
    ensures FindSep(Frames(s).1) == -1
    decreases |s|
  {
    var i := FindSep(s);
    if i != -1 {
      var tail := Frames(s[i + 2..]);
      FramesSound(s[i + 2..]);
      var frame := s[..i];
      assert FindSep(frame) == -1 by {
        forall j | 0 <= j ensures !SepAt(frame, j) {
          if j + 1 < i { assert SepAt(frame, j) == SepAt(s, j); }
        }
      }
      assert ([frame] + tail.0)[1..] == tail.0;
      assert s == frame + "\n\n" + s[i + 2..];
    }
  }

  /** The first separator of `a` is the first separator of `a + b`. */
  lemma FindSepExtend(a: string, b: string)
    requires FindSep(a) != -1
    ensures FindSep(a + b) == FindSep(a)
  {
    var i := FindSep(a);
    assert SepAt(a + b, i);
    forall j | 0 <= j < i
      ensures !SepAt(a + b, j)
    {
      assert SepAt(a + b, j) == SepAt(a, j);
    }
  }

  /** Buffering more text only adds frames after the ones already complete. */
  lemma {:induction false} FramesAppend(a: string, b: string)
    ensures Frames(a + b).0 == Frames(a).0 + Frames(Frames(a).1 + b).0
    ensures Frames(a + b).1 == Frames(Frames(a).1 + b).1
    decreases |a|
  {
    var i := FindSep(a);
    if i != -1 {
      FindSepExtend(a, b);
      assert (a + b)[i + 2..] == a[i + 2..] + b;
      assert (a + b)[..i] == a[..i];
      FramesAppend(a[i + 2..], b);
    } else {
      assert Frames(a) == ([], a);
    }
  }

  // ------------------------------------------------------ parseSSE's frames

  /** Line 27: the payload of a `data:` line, trimmed. */
  function Payload(line: string): string
    requires StartsWith(line, "data:")
  {
    Trim(line[5..])
  }

  /** Lines 26-38 for one line: a `data:` payload that parses is passed on; `[DONE]` stops. */
  function DataLine<J>(events: seq<Callback<J>>, line: string, parse: string -> Option<J>): (seq<Callback<J>>, bool) {
    if !StartsWith(line, "data:") then (events, false)
    else if Payload(line) == "[DONE]" then (events, true)
    else match parse(Payload(line))
      case Some(json) => (events + [OnData(json)], false)
      case None => (events, false)
  }

  /**
   * Lines 24-39: the `onData` calls of one frame's lines, in order, and whether
   * a `[DONE]` payload stopped the parser. Only data is passed on, at most one
   * call per line.
   */
  function DecodeLines<J>(lines: seq<string>, parse: string -> Option<J>): (seq<Callback<J>>, bool) {
    if lines == [] then ([], false)
    else
      var previous := DecodeLines(lines[..|lines| - 1], parse);
      if previous.1 then previous else DataLine(previous.0, lines[|lines| - 1], parse)
  }

  predicate AllData<J>(callbacks: seq<Callback<J>>) {
    forall k :: 0 <= k < |callbacks| ==> callbacks[k].OnData?
  }

  /** A frame's lines make only `onData` calls, at most one per line. */
  lemma {:induction false} DecodedLinesAreData<J>(lines: seq<string>, parse: string -> Option<J>)
    ensures AllData(DecodeLines(lines, parse).0) && |DecodeLines(lines, parse).0| <= |lines|
  {
    if lines != [] {
      var previous := DecodeLines(lines[..|lines| - 1], parse);
      DecodedLinesAreData(lines[..|lines| - 1], parse);
      if !previous.1 {
        DataLineIsData(previous.0, lines[|lines| - 1], parse);
      }
    }
  }

  /** One line adds at most one call, and only an `onData` one. */
  lemma DataLineIsData<J>(events: seq<Callback<J>>, line: string, parse: string -> Option<J>)
    requires AllData(events)
    ensures AllData(DataLine(events, line, parse).0) && |DataLine(events, line, parse).0| <= |events| + 1
  {
    if StartsWith(line, "data:") && Payload(line) != "[DONE]" && parse(Payload(line)).Some? {
      var added := events + [OnData(parse(Payload(line)).value)];
      assert forall k :: 0 <= k < |events| ==> added[k] == events[k];
    }
  }

  /** A line that is not `data:`, or whose payload is not `[DONE]` and does not parse, does nothing. */
  predicate Ignored<J>(line: string, parse: string -> Option<J>) {
    !StartsWith(line, "data:") || (Payload(line) != "[DONE]" && parse(Payload(line)).None?)
  }

  /** An ignored line can be taken out of a frame without changing what the frame does. */
  lemma {:induction false} IgnoredLineChangesNothing<J>(before: seq<string>, line: string, after: seq<string>,
                                                       parse: string -> Option<J>)
    requires Ignored(line, parse)
    ensures DecodeLines(before + [line] + after, parse) == DecodeLines(before + after, parse)
    decreases |after|
  {
    if after == [] {
      assert (before + [line] + after)[..|before|] == before + after;
    } else {
      var init := after[..|after| - 1];
      IgnoredLineChangesNothing(before, line, init, parse);
      assert (before + [line] + after)[..|before + [line] + after| - 1] == before + [line] + init;
      assert (before + after)[..|before + after| - 1] == before + init;
    }
  }

  /** Once `[DONE]` has been seen, later lines make no callback. */
  lemma {:induction false} LinesAfterDoneIgnored<J>(lines: seq<string>, more: seq<string>, parse: string -> Option<J>)
    requires DecodeLines(lines, parse).1
    ensures DecodeLines(lines + more, parse) == DecodeLines(lines, parse)
    decreases |more|
  {
    if more == [] {
      assert lines + more == lines;
    } else {
      LinesAfterDoneIgnored(lines, more[..|more| - 1], parse);
      assert (lines + more)[..|lines + more| - 1] == lines + more[..|more| - 1];
    }
  }

  lemma DoneEndsFrame<J>(lines: seq<string>, n: nat, parse: string -> Option<J>)
    requires n <= |lines| && DecodeLines(lines[..n], parse).1
    ensures DecodeLines(lines, parse) == DecodeLines(lines[..n], parse)
  {
    LinesAfterDoneIgnored(lines[..n], lines[n..], parse);
    assert lines[..n] + lines[n..] == lines;
  }

  /** The loop of lines 25-39 over one frame. */
  method DecodeDataLines<J>(lines: seq<string>, parse: string -> Option<J>) returns (events: seq<Callback<J>>, stop: bool)
    ensures (events, stop) == DecodeLines(lines, parse)
  {
    events := [];
    for k := 0 to |lines|
      invariant DecodeLines(lines[..k], parse) == (events, false)
    {
      var line := lines[k];
      assert lines[..k + 1][..k] == lines[..k];
      if StartsWith(line, "data:") {
        var payload := Trim(line[5..]);
        if payload == "[DONE]" {
          DoneEndsFrame(lines, k + 1, parse);
          return events, true;
        }
        match parse(payload) {
          case Some(json) => events := events + [OnData(json)];
          case None =>
        }
      }
    }
    assert lines[..|lines|] == lines;
    return events, false;
  }

  // ---------------------------------------------- parseAnthropicSSE's frames

  /** The trimmed value of the last line that starts with `name`, or `""` when none does. */
  function LastField(lines: seq<string>, name: string): string {
    if lines == [] then ""
    else if StartsWith(lines[|lines| - 1], name) then Trim(lines[|lines| - 1][|name|..])
    else LastField(lines[..|lines| - 1], name)
  }

  /** The last line carrying a field decides its value; no such line gives `""`. */
  lemma {:induction false} LastFieldIsLastLine(lines: seq<string>, name: string, k: int)
    requires -1 <= k < |lines|
    requires k >= 0 ==> StartsWith(lines[k], name)
    requires forall m :: k < m < |lines| ==> !StartsWith(lines[m], name)
    ensures LastField(lines, name) == if k == -1 then "" else Trim(lines[k][|name|..])
    decreases |lines|
  {
    if lines != [] && k != |lines| - 1 {
      var init := lines[..|lines| - 1];
      assert !StartsWith(lines[|lines| - 1], name);
      assert k >= 0 ==> init[k] == lines[k];
      assert forall m :: k < m < |init| ==> init[m] == lines[m];
      LastFieldIsLastLine(init, name, k);
    }
  }

  /**
   * Lines 85-95 for one frame: the frame's `data` is passed on when it is
   * non-empty and its event is `content_block_delta`; otherwise an event
   * `message_delta` stops the parser whatever its data, and any other event
   * does nothing.
   */
  function AnthropicFrame<J>(lines: seq<string>, parse: string -> Option<J>): (r: (seq<Callback<J>>, bool))
    ensures r.1 <==> LastField(lines, "event:") == "message_delta"
    ensures |r.0| <= 1
    ensures r.0 != [] ==>
      (LastField(lines, "event:") == "content_block_delta" && LastField(lines, "data:") != "" &&
       r.0[0].OnData? && parse(LastField(lines, "data:")) == Some(r.0[0].json))
  {
    var eventType, data := LastField(lines, "event:"), LastField(lines, "data:");
    if data != "" && eventType == "content_block_delta" then
      match parse(data)
      case Some(json) => ([OnData(json)], false)
      case None => ([], false)
    else if eventType == "message_delta" then ([], true)
    else ([], false)
  }

  /** Lines 74-95: the last `event:` and the last `data:` line of a frame win. */
  method DecodeAnthropicFrame<J>(lines: seq<string>, parse: string -> Option<J>) returns (events: seq<Callback<J>>, stop: bool)
    ensures (events, stop) == AnthropicFrame(lines, parse)
  {
    var eventType, data := "", "";
    for k := 0 to |lines|
      invariant eventType == LastField(lines[..k], "event:") && data == LastField(lines[..k], "data:")
    {
      var line := lines[k];
      assert lines[..k + 1][..k] == lines[..k];
      if StartsWith(line, "event:") {
        assert !StartsWith(line, "data:") by { assert line[0] == 'e'; }
        eventType := Trim(line[6..]);
      } else if StartsWith(line, "data:") {
        data := Trim(line[5..]);
      }
    }
    assert lines[..|lines|] == lines;
    events, stop := [], false;
    if data != "" && eventType == "content_block_delta" {
      match parse(data) {
        case Some(json) => events := [OnData(json)];
        case None =>
      }
    } else if eventType == "message_delta" {
      stop := true;
    }
  }

  // ---------------------------------------------------------------- streams

  function FrameCallbacks<J>(dialect: Dialect, frame: string, parse: string -> Option<J>): (seq<Callback<J>>, bool) {
    match dialect
    case DataLines => DecodeLines(Split(frame, '\n'), parse)
    case AnthropicEvents => AnthropicFrame(Split(frame, '\n'), parse)
  }

  /** The callbacks of a run of frames, and whether one of them stopped the parser. */
  function DecodeFrames<J>(dialect: Dialect, frames: seq<string>, parse: string -> Option<J>): (seq<Callback<J>>, bool) {
    if frames == [] then ([], false)
    else
      var previous := DecodeFrames(dialect, frames[..|frames| - 1], parse);
      if previous.1 then previous
      else
        var current := FrameCallbacks(dialect, frames[|frames| - 1], parse);
        (previous.0 + current.0, current.1)
  }

  /** Frames make only `onData` calls. */
  lemma {:induction false} DecodedFramesAreData<J>(dialect: Dialect, frames: seq<string>, parse: string -> Option<J>)
    ensures AllData(DecodeFrames(dialect, frames, parse).0)
  {
    if frames != [] {
      DecodedFramesAreData(dialect, frames[..|frames| - 1], parse);
      if dialect.DataLines? {
        DecodedLinesAreData(Split(frames[|frames| - 1], '\n'), parse);
      }
    }
  }

  /** Once a frame has stopped the parser, later frames make no callback. */
  lemma {:induction false} FramesAfterStopIgnored<J>(dialect: Dialect, frames: seq<string>, more: seq<string>,
                                                     parse: string -> Option<J>)
    requires DecodeFrames(dialect, frames, parse).1
    ensures DecodeFrames(dialect, frames + more, parse) == DecodeFrames(dialect, frames, parse)
    decreases |more|
  {
    if more == [] {
      assert frames + more == frames;
    } else {
      FramesAfterStopIgnored(dialect, frames, more[..|more| - 1], parse);
      assert (frames + more)[..|frames + more| - 1] == frames + more[..|more| - 1];
    }
  }

  /**
   * What a parser calls, as written: nothing without a body; otherwise the data
   * of the complete frames of the text received, up to the frame that stops
   * it, then `onDone` from `finally` -- preceded by a second `onDone` when the
   * parser stopped at an end marker (lines 29-30 and 93-94).
   */
  function StreamCallbacks<J>(dialect: Dialect, body: Option<seq<Read>>, parse: string -> Option<J>): seq<Callback<J>> {
    match body
    case None => []
    case Some(results) =>
      var decoded := DecodeFrames(dialect, Frames(Received(results)).0, parse);
      decoded.0 + (if decoded.1 then [OnDone, OnDone] else [OnDone])
  }

  /**
   * `parseSSE` (dialect `DataLines`) and `parseAnthropicSSE` (dialect
   * `AnthropicEvents`), which share their read loop. The callbacks depend only
   * on the text received, not on where the reads cut it.
   */
  method ParseStream<J>(dialect: Dialect, body: Option<seq<Read>>, parse: string -> Option<J>)
    returns (callbacks: seq<Callback<J>>)
    ensures callbacks == StreamCallbacks(dialect, body, parse)
  {
    if body.None? {
      return [];
    }
    var results := body.value;
    var buffer := "";
    callbacks := [];
    ghost var consumed := "";
    ghost var processed: seq<string> := [];
    var i := 0;
    while i < |results|
      invariant 0 <= i <= |results|
      invariant Received(results) == consumed + Received(results[i..])
      invariant Frames(consumed) == (processed, buffer)
      invariant DecodeFrames(dialect, processed, parse) == (callbacks, false)
    {
      if results[i].ReadFailure? {
        break;
      }
      ReceivedStep(results, i, consumed);
      ghost var consumed' := consumed + results[i].text;
      FramesAppend(consumed, results[i].text);
      var pending := buffer + results[i].text;
      var stop;
      ghost var taken;
      buffer, callbacks, stop, taken := DrainBuffer(dialect, pending, callbacks, processed, parse);
      if stop {
        PrefixJoin(processed, Frames(pending).0, taken);
        StoppedEarly(dialect, results, i, consumed', processed + taken, parse);
        callbacks := callbacks + [OnDone, OnDone];
        return;
      }
      processed := processed + taken;
      consumed := consumed';
      i := i + 1;
    }
    assert Received(results) == consumed;
    callbacks := callbacks + [OnDone];
  }

  /**
   * Lines 20-40: cut and decode every complete frame in the buffer, stopping
   * early when a frame says so. The frames taken are the buffer's first
   * frames; unless stopped, they are all of them and the rest stays buffered.
   */
  method DrainBuffer<J>(dialect: Dialect, buffer0: string, callbacks0: seq<Callback<J>>, ghost processed: seq<string>,
                        parse: string -> Option<J>)
    returns (buffer: string, callbacks: seq<Callback<J>>, stop: bool, ghost taken: seq<string>)
    requires DecodeFrames(dialect, processed, parse) == (callbacks0, false)
    ensures |taken| <= |Frames(buffer0).0| && Frames(buffer0).0[..|taken|] == taken
    ensures DecodeFrames(dialect, processed + taken, parse) == (callbacks, stop)
    ensures !stop ==> taken == Frames(buffer0).0 && buffer == Frames(buffer0).1
  {
    buffer, callbacks, taken := buffer0, callbacks0, [];
    assert processed + taken == processed;
    assert taken + Frames(buffer).0 == Frames(buffer).0;
    var idx := FindSep(buffer);
    while idx != -1
      invariant idx == FindSep(buffer)
      invariant Frames(buffer0).0 == taken + Frames(buffer).0 && Frames(buffer0).1 == Frames(buffer).1
      invariant |taken| <= |Frames(buffer0).0| && Frames(buffer0).0[..|taken|] == taken
      invariant DecodeFrames(dialect, processed + taken, parse) == (callbacks, false)
      decreases |buffer|
    {
      var frame := buffer[..idx];
      DrainStep(dialect, buffer0, buffer, idx, processed, taken, callbacks, parse);
      buffer := buffer[idx + 2..];
      var events, stopHere := DecodeFrame(dialect, frame, parse);
      taken := taken + [frame];
      callbacks := callbacks + events;
      if stopHere {
        return buffer, callbacks, true, taken;
      }
      idx := FindSep(buffer);
    }
    DrainDone(buffer0, buffer, taken);
    stop := false;
  }

  /** One turn of the loop of `DrainBuffer`: the buffer's first frame moves to the frames taken. */
  lemma DrainStep<J>(dialect: Dialect, buffer0: string, buffer: string, idx: int, processed: seq<string>,
                     taken: seq<string>, callbacks: seq<Callback<J>>, parse: string -> Option<J>)
    requires idx == FindSep(buffer) && idx != -1
    requires Frames(buffer0).0 == taken + Frames(buffer).0 && Frames(buffer0).1 == Frames(buffer).1
    requires DecodeFrames(dialect, processed + taken, parse) == (callbacks, false)
    ensures var frame := buffer[..idx]; var rest := buffer[idx + 2..];
      Frames(buffer0).0 == (taken + [frame]) + Frames(rest).0 && Frames(buffer0).1 == Frames(rest).1 &&
      |taken + [frame]| <= |Frames(buffer0).0| && Frames(buffer0).0[..|taken + [frame]|] == taken + [frame] &&
      DecodeFrames(dialect, processed + (taken + [frame]), parse) ==
        (callbacks + FrameCallbacks(dialect, frame, parse).0, FrameCallbacks(dialect, frame, parse).1)
  {
    var frame := buffer[..idx];
    DrainFrames(buffer0, buffer, idx, taken);
    DecodeFramesSnoc(dialect, processed + taken, frame, parse);
    assert processed + taken + [frame] == processed + (taken + [frame]);
  }

  lemma DrainFrames(buffer0: string, buffer: string, idx: int, taken: seq<string>)
    requires idx == FindSep(buffer) && idx != -1
    requires Frames(buffer0).0 == taken + Frames(buffer).0 && Frames(buffer0).1 == Frames(buffer).1
    ensures var frame := buffer[..idx]; var rest := buffer[idx + 2..];
      Frames(buffer0).0 == (taken + [frame]) + Frames(rest).0 && Frames(buffer0).1 == Frames(rest).1 &&
      |taken + [frame]| <= |Frames(buffer0).0| && Frames(buffer0).0[..|taken + [frame]|] == taken + [frame]
  {
    var frame := buffer[..idx];
    var rest := buffer[idx + 2..];
    FramesCut(buffer, idx);
    assert taken + ([frame] + Frames(rest).0) == (taken + [frame]) + Frames(rest).0;
  }

  /** The loop of `DrainBuffer` ends when no separator is left: every frame has been taken. */
  lemma DrainDone(buffer0: string, buffer: string, taken: seq<string>)
    requires FindSep(buffer) == -1
    requires Frames(buffer0).0 == taken + Frames(buffer).0 && Frames(buffer0).1 == Frames(buffer).1
    ensures Frames(buffer0).0 == taken && Frames(buffer0).1 == buffer
  {
    assert Frames(buffer) == ([], buffer);
    assert taken + [] == taken;
  }

  /** A buffer with a separator at `idx`: its first frame, then the frames of what follows the separator. */
  lemma FramesCut(buffer: string, idx: int)
    requires idx == FindSep(buffer) && idx != -1
    ensures Frames(buffer).0 == [buffer[..idx]] + Frames(buffer[idx + 2..]).0
    ensures Frames(buffer).1 == Frames(buffer[idx + 2..]).1
  {
  }

  /** Decoding one more frame after frames that did not stop. */
  lemma DecodeFramesSnoc<J>(dialect: Dialect, frames: seq<string>, frame: string, parse: string -> Option<J>)
    requires !DecodeFrames(dialect, frames, parse).1
    ensures DecodeFrames(dialect, frames + [frame], parse) ==
      (DecodeFrames(dialect, frames, parse).0 + FrameCallbacks(dialect, frame, parse).0, FrameCallbacks(dialect, frame, parse).1)
  {
    assert (frames + [frame])[..|frames|] == frames;
  }

  lemma ReceivedStep(results: seq<Read>, i: nat, consumed: string)
    requires i < |results| && results[i].Chunk?
    requires Received(results) == consumed + Received(results[i..])
    ensures Received(results) == (consumed + results[i].text) + Received(results[i + 1..])
  {
    assert results[i..][0] == results[i] && results[i..][1..] == results[i + 1..];
  }

  lemma PrefixJoin(processed: seq<string>, frames: seq<string>, taken: seq<string>)
    requires |taken| <= |frames| && frames[..|taken|] == taken
    ensures (processed + frames)[..|processed + taken|] == processed + taken
  {
  }

  /** One frame, for either dialect. */
  method DecodeFrame<J>(dialect: Dialect, frame: string, parse: string -> Option<J>) returns (events: seq<Callback<J>>, stop: bool)
    ensures (events, stop) == FrameCallbacks(dialect, frame, parse)
  {
    var lines := Split(frame, '\n');
    match dialect {
      case DataLines => events, stop := DecodeDataLines(lines, parse);
      case AnthropicEvents => events, stop := DecodeAnthropicFrame(lines, parse);
    }
  }

  /** A frame that stops the parser ends what it calls, whatever is read after. */
  lemma StoppedEarly<J>(dialect: Dialect, results: seq<Read>, i: nat, consumed: string, prefix: seq<string>,
                        parse: string -> Option<J>)
    requires i < |results|
    requires Received(results) == consumed + Received(results[i + 1..])
    requires |prefix| <= |Frames(consumed).0| && Frames(consumed).0[..|prefix|] == prefix
    requires DecodeFrames(dialect, prefix, parse).1
    ensures StreamCallbacks(dialect, Some(results), parse) == DecodeFrames(dialect, prefix, parse).0 + [OnDone, OnDone]
  {
    var later := Received(results[i + 1..]);
    FramesAppend(consumed, later);
    var all := Frames(consumed).0 + Frames(Frames(consumed).1 + later).0;
    assert Frames(Received(results)).0 == all;
    assert all == prefix + all[|prefix|..];
    FramesAfterStopIgnored(dialect, prefix, all[|prefix|..], parse);
  }

  // ------------------------------------------------------------ properties

  /** Text after the last separator when the stream ends is never decoded. */
  lemma UnfinishedFrameDropped<J>(dialect: Dialect, results: seq<Read>, tail: string, parse: string -> Option<J>)
    requires FindSep(Frames(Received(results)).1 + tail) == -1
    ensures StreamCallbacks(dialect, Some(results + [Chunk(tail)]), parse) == StreamCallbacks(dialect, Some(results), parse)
  {
    ReceivedSnoc(results, tail);
    var text := Received(results);
    if Received(results + [Chunk(tail)]) != text {
      FramesAppend(text, tail);
      assert Frames(Frames(text).1 + tail).0 == [];
      assert Frames(text + tail).0 == Frames(text).0;
    }
  }

  /** A chunk read after the others adds its text, unless an earlier read failed. */
  lemma {:induction false} ReceivedSnoc(results: seq<Read>, tail: string)
    ensures Received(results + [Chunk(tail)]) == Received(results) + tail ||
            Received(results + [Chunk(tail)]) == Received(results)
  {
    if results != [] && results[0].Chunk? {
      assert (results + [Chunk(tail)])[1..] == results[1..] + [Chunk(tail)];
      ReceivedSnoc(results[1..], tail);
    } else if results == [] {
      assert [Chunk(tail)][1..] == [];
    }
  }

  /** A read that fails drops every read after it. */
  lemma {:induction false} ReceivedStopsAtFailure(before: seq<Read>, after: seq<Read>)
    ensures Received(before + [ReadFailure] + after) == Received(before)
  {
    if before != [] && before[0].Chunk? {
      assert (before + [ReadFailure] + after)[1..] == before[1..] + [ReadFailure] + after;
      ReceivedStopsAtFailure(before[1..], after);
    } else if before == [] {
      assert (before + [ReadFailure] + after)[0] == ReadFailure;
    }
  }

  function CountDone<J>(callbacks: seq<Callback<J>>): nat {
    if callbacks == [] then 0 else CountDone(callbacks[..|callbacks| - 1]) + (if callbacks[|callbacks| - 1].OnDone? then 1 else 0)
  }

  lemma {:induction false} NoDoneAmongData<J>(callbacks: seq<Callback<J>>)
    requires AllData(callbacks)
    ensures CountDone(callbacks) == 0
  {
    if callbacks != [] {
      NoDoneAmongData(callbacks[..|callbacks| - 1]);
    }
  }

  /**
   * As written, a parser with a body calls `onDone` once when the stream ends
   * or fails, and twice when it stops at `[DONE]` or `message_delta`; without a
   * body it never does.
   */
  lemma DoneCountAsWritten<J>(dialect: Dialect, body: Option<seq<Read>>, parse: string -> Option<J>)
    ensures body.None? ==> CountDone(StreamCallbacks(dialect, body, parse)) == 0
    ensures body.Some? ==>
      CountDone(StreamCallbacks(dialect, body, parse)) ==
      (if DecodeFrames(dialect, Frames(Received(body.value)).0, parse).1 then 2 else 1)
  {
    if body.Some? {
      var decoded := DecodeFrames(dialect, Frames(Received(body.value)).0, parse);
      DecodedFramesAreData(dialect, Frames(Received(body.value)).0, parse);
      DoneAfterData(decoded.0, decoded.1);
    }
  }

  /** Data calls followed by the closing `onDone` calls hold one `onDone`, or two after an end marker. */
  lemma DoneAfterData<J>(data: seq<Callback<J>>, stopped: bool)
    requires AllData(data)
    ensures CountDone(data + (if stopped then [OnDone, OnDone] else [OnDone])) == if stopped then 2 else 1
  {
    var tail: seq<Callback<J>> := if stopped then [OnDone, OnDone] else [OnDone];
    NoDoneAmongData(data);
    CountDoneAppend(data, tail);
    assert CountDone(tail) == |tail| by {
      var two: seq<Callback<J>> := [OnDone, OnDone];
      assert two[..1] == [OnDone];
    }
  }

  lemma {:induction false} CountDoneAppend<J>(a: seq<Callback<J>>, b: seq<Callback<J>>)
    ensures CountDone(a + b) == CountDone(a) + CountDone(b)
    decreases |b|
  {
    if b == [] {
      assert a + b == a;
    } else {
      CountDoneAppend(a, b[..|b| - 1]);
      assert (a + b)[..|a + b| - 1] == a + b[..|b| - 1];
    }
  }

  /** The shortest stream that shows it: one frame holding `data: [DONE]` makes `onDone` run twice. */
  lemma DoneTwiceOnEndMarker<J>(parse: string -> Option<J>)
    ensures StreamCallbacks(DataLines, Some([Chunk("data: [DONE]\n\n")]), parse) == [OnDone, OnDone]
  {
    EndMarkerFrames();
    EndMarkerLine(parse);
    var frames := ["data: [DONE]"];
    assert frames[..0] == [];
  }

  lemma EndMarkerFrames()
    ensures Frames(Received([Chunk("data: [DONE]\n\n")])).0 == ["data: [DONE]"]
  {
    var text := "data: [DONE]\n\n";
    assert Received([Chunk(text)]) == text by {
      assert [Chunk(text)][1..] == [];
    }
    var line := "data: [DONE]";
    assert '\n' !in line;
    assert text == line + "\n\n";
    assert SepAt(text, 12);
    assert FindSep(text) == 12 by {
      forall j | 0 <= j < 12 ensures !SepAt(text, j) {
        assert text[j] == line[j];
      }
    }
    assert text[14..] == "" && text[..12] == "data: [DONE]";
    assert Frames("") == ([], "");
  }

  lemma TrimEndMarker()
    ensures Trim(" [DONE]") == "[DONE]"
  {
    TrimStartEndMarker();
    TrimEndEndMarker();
  }

  lemma TrimStartEndMarker()
    ensures TrimStart(" [DONE]") == "[DONE]"
  {
    assert " [DONE]"[1..] == "[DONE]";
    assert !IsSpace('[');
  }

  lemma TrimEndEndMarker()
    ensures TrimEnd("[DONE]") == "[DONE]"
  {
    assert !IsSpace(']');
  }

  lemma EndMarkerLine<J>(parse: string -> Option<J>)
    ensures DecodeLines(Split("data: [DONE]", '\n'), parse) == ([], true)
  {
    var line := "data: [DONE]";
    assert '\n' !in line;
    assert Split(line, '\n') == [line];
    EndMarkerPayload();
    var lines: seq<string> := [line];
    assert lines[..0] == [];
    assert DecodeLines(lines, parse) == DataLine([], line, parse);
  }

  lemma EndMarkerPayload()
    ensures StartsWith("data: [DONE]", "data:") && Payload("data: [DONE]") == "[DONE]"
  {
    var line := "data: [DONE]";
    assert StartsWith(line, "data:");
    assert line[5..] == " [DONE]";
    TrimEndMarker();
  }

  /**
   * The evidently intended parser: `onDone` once from `finally`, also when an
   * end marker stops it (the `onDone()` before `return` removed).
   */
  function StreamCallbacksFixed<J>(dialect: Dialect, body: Option<seq<Read>>, parse: string -> Option<J>): seq<Callback<J>> {
    match body
    case None => []
    case Some(results) => DecodeFrames(dialect, Frames(Received(results)).0, parse).0 + [OnDone]
  }

  /** The intended parser calls `onDone` exactly once, last, whenever there is a body; the two agree on data. */
  lemma FixedDoneOnce<J>(dialect: Dialect, body: Option<seq<Read>>, parse: string -> Option<J>)
    requires body.Some?
    ensures CountDone(StreamCallbacksFixed(dialect, body, parse)) == 1
    ensures StreamCallbacksFixed(dialect, body, parse)[|StreamCallbacksFixed(dialect, body, parse)| - 1] == OnDone
    ensures StreamCallbacks(dialect, body, parse) == StreamCallbacksFixed(dialect, body, parse) ||
            StreamCallbacks(dialect, body, parse) == StreamCallbacksFixed(dialect, body, parse) + [OnDone]
  {
    var decoded := DecodeFrames(dialect, Frames(Received(body.value)).0, parse);
    DecodedFramesAreData(dialect, Frames(Received(body.value)).0, parse);
    NoDoneAmongData(decoded.0);
    CountDoneAppend(decoded.0, [OnDone]);
    var one: seq<Callback<J>> := [OnDone];
    assert one[..0] == [];
  }
}
