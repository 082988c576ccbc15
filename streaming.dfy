/**
 * What the provider adapters of `src/lib/adapters/openai.ts` and
 * `src/lib/adapters/anthropic.ts` share: the outcome of `fetch`, the `catch`
 * block, and how the parser's callbacks become `StreamHandler` calls while the
 * adapter accumulates `fullText` and `totalTokens`.
 *
 * An adapter tells the shared part how it reads one decoded JSON event
 * (`Reading`): the text delta, or `""` when there is none, and the token usage
 * when the event carries a `usage` object. `performance.now` is left out: the
 * latency reported is a parameter.
 */
module Streaming {
  import opened Wrappers
  import opened Strings
  import opened Types
  import opened Sse

  /** What `fetch` and `response.text()` give back, as far as an adapter looks at it. */
  datatype FetchOutcome =
    | Threw(thrown: Thrown)
    | Responded(ok: bool, status: nat, errorText: string, body: Option<seq<Read>>)

  /** A value caught by `catch (error)`. */
  datatype Thrown = ErrorObject(name: string, message: string) | NotAnError

  /** One event as the adapter reads it: its delta text and, when it carries usage, the token count it yields. */
  datatype Reading = Reading(delta: string, usage: Option<Option<int>>)

  /** The adapter's local variables and the handler calls made so far. */
  datatype Relayed = Relayed(fullText: string, totalTokens: Option<int>, calls: seq<HandlerCall>)

  const Canceled := "Request was canceled"

  /** A `Record<string, string>` of request headers, in insertion order. */
  type Headers = seq<(string, string)>

  /**
   * The value a header list gives `name`, when it gives one: the last entry
   * with that name, as `headers[name] = value` overwrites an earlier value.
   */
  function Header(headers: Headers, name: string): (value: Option<string>)
    ensures value.Some? <==> exists k :: 0 <= k < |headers| && headers[k].0 == name
    ensures value.Some? ==> exists k :: 0 <= k < |headers| && headers[k] == (name, value.value) &&
                                        forall j :: k < j < |headers| ==> headers[j].0 != name
  {
    if headers == [] then None
    else if headers[|headers| - 1].0 == name then Some(headers[|headers| - 1].1)
    else
      var init := headers[..|headers| - 1];
      var rest := Header(init, name);
      assert forall k :: 0 <= k < |init| ==> init[k] == headers[k];
      assert (exists k :: 0 <= k < |headers| && headers[k].0 == name) ==> exists k :: 0 <= k < |init| && init[k].0 == name;
      rest
  }

  /** Setting a header after others: its name now has the new value, and every other name keeps its own. */
  lemma HeaderAppend(headers: Headers, added: string, value: string, name: string)
    ensures Header(headers + [(added, value)], name) == if added == name then Some(value) else Header(headers, name)
  {
    assert (headers + [(added, value)])[..|headers|] == headers;
  }

  /** `transport === "relay" ? relayUrl : directUrl`, as both adapters choose their URL. */
  function Endpoint(transport: Transport, relayUrl: string, directUrl: string): (url: string)
    requires relayUrl != directUrl
    ensures url == relayUrl <==> transport == Relay
    ensures url == directUrl <==> transport == Direct
  {
    match transport
    case Relay => relayUrl
    case Direct => directUrl
  }

  /** `systemPrompt ? ... : ...`: a prompt that is absent or empty counts as none. */
  predicate Truthy(s: Option<string>) {
    s.Some? && s.value != ""
  }

  /** `temperature ?? model.temperature ?? 0.7`, as both adapters send it. */
  function Temperature(args: SendPromptArgs): (t: real)
    ensures args.temperature.Some? ==> t == args.temperature.value
    ensures args.temperature.None? && args.model.temperature.Some? ==> t == args.model.temperature.value
    ensures args.temperature.None? && args.model.temperature.None? ==> t == 0.7
  {
    args.temperature.GetOr(args.model.temperature.GetOr(0.7))
  }

  /** `transport = "direct"`: the transport an adapter uses. */
  function TransportOf(args: SendPromptArgs): Transport {
    args.transport.GetOr(Direct)
  }

  /** Lines 91-99 of either adapter: the message `onError` receives. */
  function ErrorMessage(thrown: Thrown): (message: string)
    ensures thrown.ErrorObject? && thrown.name == "AbortError" ==> message == Canceled
    ensures thrown.ErrorObject? && thrown.name != "AbortError" ==> message == thrown.message
    ensures thrown.NotAnError? ==> message == "Unknown error"
  {
    match thrown
    case ErrorObject(name, message) => if name == "AbortError" then Canceled else message
    case NotAnError => "Unknown error"
  }

  /** Lines 68-89 of the OpenAI adapter: one parser callback. */
  function Forward<J>(acc: Relayed, callback: Callback<J>, read: J -> Reading, latencyMs: int): Relayed {
    match callback
    case OnData(json) =>
      var r := read(json);
      var withText := if r.delta != "" then acc.(fullText := acc.fullText + r.delta, calls := acc.calls + [OnChunk(r.delta)]) else acc;
      if r.usage.Some? then withText.(totalTokens := r.usage.value) else withText
    case OnDone => acc.(calls := acc.calls + [OnComplete(acc.fullText, Some(latencyMs), acc.totalTokens)])
  }

  /** The callbacks forwarded one by one, left to right. */
  function ForwardAll<J>(callbacks: seq<Callback<J>>, acc: Relayed, read: J -> Reading, latencyMs: int): Relayed {
    if callbacks == [] then acc else ForwardAll(callbacks[1..], Forward(acc, callbacks[0], read, latencyMs), read, latencyMs)
  }

  /** Lines 47-99 of either adapter: every handler call, in order. */
  function HandlerCalls<J>(dialect: Dialect, outcome: FetchOutcome, parse: string -> Option<J>, read: J -> Reading,
                           errorPrefix: string, latencyMs: int): seq<HandlerCall> {
    match outcome
    case Threw(thrown) => [OnError(ErrorMessage(thrown))]
    case Responded(ok, status, errorText, body) =>
      if !ok then [OnError(errorPrefix + IntToString(status) + " " + errorText)]
      else [OnStart] + ForwardAll(StreamCallbacks(dialect, body, parse), Relayed("", None, []), read, latencyMs).calls
  }

  /** The handler's side of the stream: `onData` updates the two variables and `onDone` reports them. */
  method ForwardCallbacks<J>(callbacks: seq<Callback<J>>, read: J -> Reading, latencyMs: int) returns (calls: seq<HandlerCall>)
    ensures calls == ForwardAll(callbacks, Relayed("", None, []), read, latencyMs).calls
  {
    var fullText := "";
    var totalTokens: Option<int> := None;
    calls := [];
    for i := 0 to |callbacks|
      invariant ForwardAll(callbacks[i..], Relayed(fullText, totalTokens, calls), read, latencyMs)
        == ForwardAll(callbacks, Relayed("", None, []), read, latencyMs)
    {
      assert callbacks[i..][1..] == callbacks[i + 1..];
      match callbacks[i]
      case OnData(json) =>
        var r := read(json);
        if r.delta != "" {
          fullText := fullText + r.delta;
          calls := calls + [OnChunk(r.delta)];
        }
        if r.usage.Some? {
          totalTokens := r.usage.value;
        }
      case OnDone =>
        calls := calls + [OnComplete(fullText, Some(latencyMs), totalTokens)];
    }
    assert callbacks[|callbacks|..] == [];
  }

  /** `sendPrompt` from the response on: the `fetch` outcome in, the handler calls out. */
  method Deliver<J>(dialect: Dialect, outcome: FetchOutcome, parse: string -> Option<J>, read: J -> Reading,
                    errorPrefix: string, latencyMs: int) returns (calls: seq<HandlerCall>)
    ensures calls == HandlerCalls(dialect, outcome, parse, read, errorPrefix, latencyMs)
  {
    match outcome
    case Threw(thrown) =>
      calls := [OnError(ErrorMessage(thrown))];
    case Responded(ok, status, errorText, body) =>
      if !ok {
        calls := [OnError(errorPrefix + IntToString(status) + " " + errorText)];
      } else {
        var callbacks := ParseStream(dialect, body, parse);
        var forwarded := ForwardCallbacks(callbacks, read, latencyMs);
        calls := [OnStart] + forwarded;
      }
  }

  // ------------------------------------------------------- reference definitions

  /** The text of the non-empty deltas of a run of `onData` calls, in order. */
  function DeltaText<J>(data: seq<Callback<J>>, read: J -> Reading): string {
    if data == [] then ""
    else DeltaText(data[..|data| - 1], read) + (if data[|data| - 1].OnData? then read(data[|data| - 1].json).delta else "")
  }

  /** One `onChunk` per non-empty delta, in order. */
  function DeltaChunks<J>(data: seq<Callback<J>>, read: J -> Reading): seq<HandlerCall> {
    if data == [] then []
    else
      var last := data[|data| - 1];
      DeltaChunks(data[..|data| - 1], read) + (if last.OnData? && read(last.json).delta != "" then [OnChunk(read(last.json).delta)] else [])
  }

  /** The usage of the last event that carries one, when any does. */
  function LastUsage<J>(data: seq<Callback<J>>, read: J -> Reading): Option<Option<int>> {
    if data == [] then None
    else
      var last := data[|data| - 1];
      if last.OnData? && read(last.json).usage.Some? then read(last.json).usage else LastUsage(data[..|data| - 1], read)
  }

  /**
   * `LastUsage` finds the usage of the last data event that carries one, and
   * finds none exactly when no data event carries one.
   */
  lemma LastUsageIsLast<J>(data: seq<Callback<J>>, read: J -> Reading)
    ensures LastUsage(data, read).None? <==>
      forall k :: 0 <= k < |data| && data[k].OnData? ==> read(data[k].json).usage.None?
    ensures LastUsage(data, read).Some? ==>
      exists k :: 0 <= k < |data| && data[k].OnData? && read(data[k].json).usage == LastUsage(data, read)
        && forall j :: k < j < |data| && data[j].OnData? ==> read(data[j].json).usage.None?
  {
    LastUsageNone(data, read);
    if LastUsage(data, read).Some? {
      LastUsageFound(data, read);
      var k :| UsageLastAt(data, read, k);
    }
  }

  /** Data event `k` carries a usage, and no later data event does. */
  predicate UsageLastAt<J>(data: seq<Callback<J>>, read: J -> Reading, k: int) {
    0 <= k < |data| && data[k].OnData? && read(data[k].json).usage.Some?
    && forall j :: k < j < |data| && data[j].OnData? ==> read(data[j].json).usage.None?
  }

  lemma {:induction false} LastUsageNone<J>(data: seq<Callback<J>>, read: J -> Reading)
    ensures LastUsage(data, read).None? <==>
      forall k :: 0 <= k < |data| && data[k].OnData? ==> read(data[k].json).usage.None?
  {
    if data != [] {
      var init := data[..|data| - 1];
      LastUsageNone(init, read);
      assert forall k :: 0 <= k < |init| ==> init[k] == data[k];
    }
  }

  lemma {:induction false} LastUsageFound<J>(data: seq<Callback<J>>, read: J -> Reading)
    requires LastUsage(data, read).Some?
    ensures exists k :: UsageLastAt(data, read, k) && read(data[k].json).usage == LastUsage(data, read)
  {
    var init := data[..|data| - 1];
    var last := data[|data| - 1];
    if last.OnData? && read(last.json).usage.Some? {
      assert UsageLastAt(data, read, |data| - 1);
    } else {
      LastUsageFound(init, read);
      var k :| UsageLastAt(init, read, k) && read(init[k].json).usage == LastUsage(init, read);
      assert data[k] == init[k];
      assert forall j :: k < j < |init| ==> init[j] == data[j];
      assert UsageLastAt(data, read, k);
    }
  }

  /** The text of the `onChunk` calls among `calls`, in order. */
  function ChunkText(calls: seq<HandlerCall>): string {
    if calls == [] then ""
    else ChunkText(calls[..|calls| - 1]) + (if calls[|calls| - 1].OnChunk? then calls[|calls| - 1].text else "")
  }

  // ----------------------------------------------------------------- properties

  lemma {:induction false} ForwardAllAppend<J>(a: seq<Callback<J>>, b: seq<Callback<J>>, acc: Relayed, read: J -> Reading, latencyMs: int)
    ensures ForwardAll(a + b, acc, read, latencyMs) == ForwardAll(b, ForwardAll(a, acc, read, latencyMs), read, latencyMs)
  {
    if a == [] {
      assert a + b == b;
    } else {
      assert (a + b)[1..] == a[1..] + b;
      ForwardAllAppend(a[1..], b, Forward(acc, a[0], read, latencyMs), read, latencyMs);
    }
  }

  /**
   * Forwarding `onData` calls appends their non-empty deltas to the text and as
   * `onChunk` calls, and leaves the token count at the last usage seen.
   */
  lemma {:induction false} ForwardData<J>(data: seq<Callback<J>>, acc: Relayed, read: J -> Reading, latencyMs: int)
    requires AllData(data)
    ensures ForwardAll(data, acc, read, latencyMs) ==
      Relayed(acc.fullText + DeltaText(data, read),
              if LastUsage(data, read).Some? then LastUsage(data, read).value else acc.totalTokens,
              acc.calls + DeltaChunks(data, read))
  {
    if data == [] {
      assert acc.fullText + "" == acc.fullText && acc.calls + [] == acc.calls;
    } else {
      var init := data[..|data| - 1];
      var last := data[|data| - 1];
      assert AllData(init) by {
        forall k | 0 <= k < |init| ensures init[k].OnData? {
          assert init[k] == data[k];
        }
      }
      ForwardData(init, acc, read, latencyMs);
      assert data == init + [last];
      ForwardAllAppend(init, [last], acc, read, latencyMs);
      ForwardDataStep(acc, init, last, read, latencyMs);
    }
  }

  /** One more data event after `init`, from the state `ForwardData` gives for `init`. */
  lemma ForwardDataStep<J>(acc: Relayed, init: seq<Callback<J>>, last: Callback<J>, read: J -> Reading, latencyMs: int)
    requires last.OnData?
    ensures var mid := Relayed(acc.fullText + DeltaText(init, read),
                               if LastUsage(init, read).Some? then LastUsage(init, read).value else acc.totalTokens,
                               acc.calls + DeltaChunks(init, read));
      var data := init + [last];
      ForwardAll([last], mid, read, latencyMs) ==
        Relayed(acc.fullText + DeltaText(data, read),
                if LastUsage(data, read).Some? then LastUsage(data, read).value else acc.totalTokens,
                acc.calls + DeltaChunks(data, read))
  {
    var data := init + [last];
    assert data[..|data| - 1] == init && data[|data| - 1] == last;
    assert [last][1..] == [];
    var r := read(last.json);
    if r.delta != "" {
      assert acc.fullText + DeltaText(init, read) + r.delta == acc.fullText + (DeltaText(init, read) + r.delta);
      assert acc.calls + DeltaChunks(init, read) + [OnChunk(r.delta)] == acc.calls + (DeltaChunks(init, read) + [OnChunk(r.delta)]);
    } else {
      assert DeltaText(data, read) == DeltaText(init, read) + "" == DeltaText(init, read);
      assert DeltaChunks(data, read) == DeltaChunks(init, read) + [] == DeltaChunks(init, read);
    }
  }

  lemma {:induction false} ChunkTextOfChunks<J>(data: seq<Callback<J>>, read: J -> Reading)
    ensures ChunkText(DeltaChunks(data, read)) == DeltaText(data, read)
  {
    if data != [] {
      var init := data[..|data| - 1];
      var last := data[|data| - 1];
      ChunkTextOfChunks(init, read);
      var chunks := DeltaChunks(init, read);
      if last.OnData? && read(last.json).delta != "" {
        assert DeltaChunks(data, read) == chunks + [OnChunk(read(last.json).delta)];
        assert (chunks + [OnChunk(read(last.json).delta)])[..|chunks|] == chunks;
      } else {
        assert DeltaChunks(data, read) == chunks;
        assert DeltaText(data, read) == DeltaText(init, read) + "";
      }
    }
  }

  lemma {:induction false} ChunkTextAppend(calls: seq<HandlerCall>, call: HandlerCall)
    requires !call.OnChunk?
    ensures ChunkText(calls + [call]) == ChunkText(calls)
  {
    assert (calls + [call])[..|calls|] == calls;
  }

  lemma {:induction false} ChunksAreChunks<J>(data: seq<Callback<J>>, read: J -> Reading)
    ensures forall k :: 0 <= k < |DeltaChunks(data, read)| ==>
      DeltaChunks(data, read)[k].OnChunk? && DeltaChunks(data, read)[k].text != ""
  {
    if data != [] {
      ChunksAreChunks(data[..|data| - 1], read);
    }
  }

  /** Lines 91-99: an aborted request reports the cancellation and nothing else. */
  lemma AbortReportsCancel<J>(dialect: Dialect, message: string, parse: string -> Option<J>, read: J -> Reading,
                              errorPrefix: string, latencyMs: int)
    ensures HandlerCalls(dialect, Threw(ErrorObject("AbortError", message)), parse, read, errorPrefix, latencyMs)
      == [OnError(Canceled)]
  {
  }

  /** Lines 55-58: a status that is not ok reports one error naming the status and the body, and nothing else. */
  lemma NotOkReportsError<J>(dialect: Dialect, status: nat, errorText: string, body: Option<seq<Read>>,
                             parse: string -> Option<J>, read: J -> Reading, errorPrefix: string, latencyMs: int)
    ensures var calls := HandlerCalls(dialect, Responded(false, status, errorText, body), parse, read, errorPrefix, latencyMs);
      |calls| == 1 && calls[0] == OnError(errorPrefix + IntToString(status) + " " + errorText)
      && StartsWith(calls[0].error, errorPrefix)
  {
    var message := errorPrefix + IntToString(status) + " " + errorText;
    assert message[..|errorPrefix|] == errorPrefix;
  }

  /** The `onComplete` call the handler makes after the data events `data`. */
  function Completion<J>(data: seq<Callback<J>>, read: J -> Reading, latencyMs: int): HandlerCall {
    var usage := LastUsage(data, read);
    OnComplete(DeltaText(data, read), Some(latencyMs), if usage.Some? then usage.value else None)
  }

  /** The parser's closing `onDone` calls: two when it stopped at an end marker. */
  function Closing<J>(stopped: bool): seq<Callback<J>> {
    if stopped then [OnDone, OnDone] else [OnDone]
  }

  /** Forwarding data events and then the closing calls, from the adapter's initial state. */
  lemma ForwardStream<J>(data: seq<Callback<J>>, stopped: bool, read: J -> Reading, latencyMs: int)
    requires AllData(data)
    ensures ForwardAll(data + Closing(stopped), Relayed("", None, []), read, latencyMs).calls
      == DeltaChunks(data, read) + (if stopped then [Completion(data, read, latencyMs), Completion(data, read, latencyMs)]
                                    else [Completion(data, read, latencyMs)])
  {
    var start := Relayed("", None, []);
    ForwardAllAppend(data, Closing(stopped), start, read, latencyMs);
    ForwardData(data, start, read, latencyMs);
    var usage := LastUsage(data, read);
    var mid := Relayed(DeltaText(data, read), if usage.Some? then usage.value else None, DeltaChunks(data, read));
    assert "" + DeltaText(data, read) == DeltaText(data, read);
    assert [] + DeltaChunks(data, read) == DeltaChunks(data, read);
    assert ForwardAll(data, start, read, latencyMs) == mid;
    var once := Forward(mid, OnDone, read, latencyMs);
    assert once.calls == DeltaChunks(data, read) + [Completion(data, read, latencyMs)];
    if stopped {
      var closing := Closing<J>(stopped);
      assert closing[0] == OnDone && closing[1..] == [OnDone] && closing[1..][1..] == [];
      assert ForwardAll(closing, mid, read, latencyMs) == ForwardAll([OnDone], once, read, latencyMs);
      assert ForwardAll([OnDone], once, read, latencyMs) == Forward(once, OnDone, read, latencyMs);
    } else {
      assert Closing<J>(stopped)[1..] == [];
    }
  }

  /**
   * Lines 60-90: with a body, `onStart` comes first, then one `onChunk` per
   * non-empty delta in order, then `onComplete` with their concatenation and
   * the last usage seen -- a second, identical `onComplete` when the parser
   * stopped at an end marker. No `onError` is made.
   */
  lemma StreamedCalls<J>(dialect: Dialect, status: nat, errorText: string, results: seq<Read>,
                         parse: string -> Option<J>, read: J -> Reading, errorPrefix: string, latencyMs: int)
    ensures var decoded := DecodeFrames(dialect, Frames(Received(results)).0, parse);
      var complete := Completion(decoded.0, read, latencyMs);
      HandlerCalls(dialect, Responded(true, status, errorText, Some(results)), parse, read, errorPrefix, latencyMs)
        == [OnStart] + DeltaChunks(decoded.0, read) + (if decoded.1 then [complete, complete] else [complete])
  {
    var decoded := DecodeFrames(dialect, Frames(Received(results)).0, parse);
    DecodedFramesAreData(dialect, Frames(Received(results)).0, parse);
    assert StreamCallbacks(dialect, Some(results), parse) == decoded.0 + Closing(decoded.1);
    ForwardStream(decoded.0, decoded.1, read, latencyMs);
  }

  /** The text of the chunks among `[OnStart] + chunks + closing` is that of `chunks`, when `closing` are completions. */
  lemma CompletedChunkText(chunks: seq<HandlerCall>, complete: HandlerCall, twice: bool)
    requires complete.OnComplete?
    ensures ChunkText([OnStart] + chunks + (if twice then [complete, complete] else [complete])) == ChunkText(chunks)
  {
    var begun := [OnStart] + chunks;
    assert ChunkText([OnStart]) == "" by {
      assert [OnStart][..0] == [];
    }
    ChunkTextConcat([OnStart], chunks);
    ChunkTextAppend(begun, complete);
    if twice {
      ChunkTextAppend(begun + [complete], complete);
      assert begun + [complete, complete] == begun + [complete] + [complete];
    }
  }

  /**
   * Whatever the reads, once a body is there the last call is `onComplete`
   * carrying exactly the text of the `onChunk` calls before it, and every chunk
   * is non-empty. A read that fails ends the stream the same way.
   */
  lemma CompleteCarriesChunks<J>(dialect: Dialect, status: nat, errorText: string, results: seq<Read>,
                                 parse: string -> Option<J>, read: J -> Reading, errorPrefix: string, latencyMs: int)
    ensures var calls := HandlerCalls(dialect, Responded(true, status, errorText, Some(results)), parse, read, errorPrefix, latencyMs);
      |calls| >= 2 && calls[0] == OnStart && calls[|calls| - 1].OnComplete?
      && calls[|calls| - 1].fullText == ChunkText(calls)
      && (forall k :: 0 <= k < |calls| ==> !calls[k].OnError?)
      && (forall k :: 0 <= k < |calls| && calls[k].OnChunk? ==> calls[k].text != "")
  {
    StreamedCalls(dialect, status, errorText, results, parse, read, errorPrefix, latencyMs);
    var decoded := DecodeFrames(dialect, Frames(Received(results)).0, parse);
    var chunks := DeltaChunks(decoded.0, read);
    var complete := Completion(decoded.0, read, latencyMs);
    ChunksAreChunks(decoded.0, read);
    ChunkTextOfChunks(decoded.0, read);
    CallsShape(chunks, complete, decoded.1);
  }

  /**
   * A request aborted after its response arrived: the abort makes the pending
   * read fail, the parser swallows that failure and still calls `onDone`, so
   * the adapter reports exactly what it would for the text received before
   * the abort -- `onComplete` with that partial text, and no `onError`.
   */
  lemma AbortMidStreamCompletes<J>(dialect: Dialect, status: nat, errorText: string, before: seq<Read>, after: seq<Read>,
                                   parse: string -> Option<J>, read: J -> Reading, errorPrefix: string, latencyMs: int)
    ensures var calls := HandlerCalls(dialect, Responded(true, status, errorText, Some(before + [ReadFailure] + after)),
                                      parse, read, errorPrefix, latencyMs);
      calls == HandlerCalls(dialect, Responded(true, status, errorText, Some(before)), parse, read, errorPrefix, latencyMs)
      && calls[|calls| - 1].OnComplete? && (forall k :: 0 <= k < |calls| ==> !calls[k].OnError?)
  {
    ReceivedStopsAtFailure(before, after);
    CompleteCarriesChunks(dialect, status, errorText, before, parse, read, errorPrefix, latencyMs);
  }

  /** `onStart`, non-empty chunks, then one or two completions carrying the chunks' text. */
  lemma CallsShape(chunks: seq<HandlerCall>, complete: HandlerCall, twice: bool)
    requires forall k :: 0 <= k < |chunks| ==> chunks[k].OnChunk? && chunks[k].text != ""
    requires complete.OnComplete? && complete.fullText == ChunkText(chunks)
    ensures var calls := [OnStart] + chunks + (if twice then [complete, complete] else [complete]);
      |calls| >= 2 && calls[0] == OnStart && calls[|calls| - 1].OnComplete?
      && calls[|calls| - 1].fullText == ChunkText(calls)
      && (forall k :: 0 <= k < |calls| ==> !calls[k].OnError?)
      && (forall k :: 0 <= k < |calls| && calls[k].OnChunk? ==> calls[k].text != "")
  {
    CompletedChunkText(chunks, complete, twice);
    var calls := [OnStart] + chunks + (if twice then [complete, complete] else [complete]);
    assert calls[|calls| - 1] == complete;
    forall k | 0 <= k < |calls|
      ensures !calls[k].OnError? && (calls[k].OnChunk? ==> calls[k].text != "")
    {
      if 1 <= k < 1 + |chunks| {
        assert calls[k] == chunks[k - 1];
      }
    }
  }

  /**
   * With the parser as evidently intended (`StreamCallbacksFixed`), an accepted
   * request completes exactly once, also when the stream ends at an end marker.
   */
  lemma FixedParserCompletesOnce<J>(dialect: Dialect, results: seq<Read>, parse: string -> Option<J>,
                                    read: J -> Reading, latencyMs: int)
    ensures var data := DecodeFrames(dialect, Frames(Received(results)).0, parse).0;
      [OnStart] + ForwardAll(StreamCallbacksFixed(dialect, Some(results), parse), Relayed("", None, []), read, latencyMs).calls
        == [OnStart] + DeltaChunks(data, read) + [Completion(data, read, latencyMs)]
  {
    var data := DecodeFrames(dialect, Frames(Received(results)).0, parse).0;
    DecodedFramesAreData(dialect, Frames(Received(results)).0, parse);
    assert StreamCallbacksFixed(dialect, Some(results), parse) == data + Closing(false);
    ForwardStream(data, false, read, latencyMs);
  }

  lemma {:induction false} ChunkTextConcat(a: seq<HandlerCall>, b: seq<HandlerCall>)
    ensures ChunkText(a + b) == ChunkText(a) + ChunkText(b)
  {
    if b == [] {
      assert a + b == a;
    } else {
      ChunkTextConcat(a, b[..|b| - 1]);
      assert (a + b)[..|a + b| - 1] == a + b[..|b| - 1];
    }
  }

  /**
   * Lines 6-7 of `src/lib/sse/parse.ts`: without a body the parser returns at
   * once, so the adapter reports the start and never completes.
   */
  lemma NoBodyNeverCompletes<J>(dialect: Dialect, status: nat, errorText: string, parse: string -> Option<J>,
                                read: J -> Reading, errorPrefix: string, latencyMs: int)
    ensures HandlerCalls(dialect, Responded(true, status, errorText, None), parse, read, errorPrefix, latencyMs) == [OnStart]
  {
  }
}
