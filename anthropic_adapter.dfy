/** `src/lib/adapters/anthropic.ts`: a streamed Messages API request to Anthropic. */
module AnthropicAdapter {
  import opened Wrappers
  import opened Strings
  import opened Types
  import opened Sse
  import opened Streaming

  /** The JSON body; the system prompt is a field of its own, not a message. */
  datatype MessagesBody = MessagesBody(
    model: string,
    userContent: seq<string>,  // the contents of the user messages, in order
    maxTokens: int,
    temperature: real,
    stream: bool,
    system: Option<string>)

  datatype MessagesRequest = MessagesRequest(url: string, headers: Headers, body: MessagesBody)

  /** One decoded event's data, as far as the adapter looks into it. */
  datatype StreamEvent = StreamEvent(deltaText: Option<string>, usage: Option<EventUsage>)

  datatype EventUsage = EventUsage(inputTokens: Option<int>, outputTokens: Option<int>)

  const RelayUrl := "/api/relay/anthropic"
  const DirectUrl := "https://api.anthropic.com/v1/messages"
  const ApiVersion := "2023-06-01"
  const DefaultMaxTokens := 4096
  const ErrorPrefix := "Anthropic API error: "

  /** Lines 16-22: the relay route for the relay transport, Anthropic's endpoint otherwise. */
  function Url(transport: Transport): string {
    assert RelayUrl != DirectUrl by {
      assert RelayUrl[0] != DirectUrl[0];
    }
    Endpoint(transport, RelayUrl, DirectUrl)
  }

  /**
   * Lines 24-33: JSON content, the API version, and the key in `x-api-key`
   * (direct) or in `x-user-api-key` for the relay -- never both.
   */
  function RequestHeaders(apiKey: string, transport: Transport): (headers: Headers)
    ensures Header(headers, "Content-Type") == Some("application/json")
    ensures Header(headers, "anthropic-version") == Some(ApiVersion)
    ensures transport == Direct ==> Header(headers, "x-api-key") == Some(apiKey)
                                    && Header(headers, "x-user-api-key").None?
    ensures transport == Relay ==> Header(headers, "x-user-api-key") == Some(apiKey)
                                   && Header(headers, "x-api-key").None?
  {
    var base := [("Content-Type", "application/json")] + [("anthropic-version", ApiVersion)];
    var key := if transport == Direct then "x-api-key" else "x-user-api-key";
    HeaderFacts(base, key, apiKey);
    base + [(key, apiKey)]
  }

  /** How the three headers resolve, one name at a time. */
  lemma HeaderFacts(base: Headers, key: string, apiKey: string)
    requires base == [("Content-Type", "application/json")] + [("anthropic-version", ApiVersion)]
    requires key == "x-api-key" || key == "x-user-api-key"
    ensures Header(base + [(key, apiKey)], "Content-Type") == Some("application/json")
    ensures Header(base + [(key, apiKey)], "anthropic-version") == Some(ApiVersion)
    ensures Header(base + [(key, apiKey)], key) == Some(apiKey)
    ensures Header(base + [(key, apiKey)], if key == "x-api-key" then "x-user-api-key" else "x-api-key").None?
  {
    var other := if key == "x-api-key" then "x-user-api-key" else "x-api-key";
    assert "anthropic-version"[0] != "x-api-key"[0] && "Content-Type"[0] != "x-api-key"[0];
    assert "anthropic-version"[0] != "x-user-api-key"[0] && "Content-Type"[0] != "x-user-api-key"[0];
    assert "Content-Type"[0] != "anthropic-version"[0];
    assert |"x-api-key"| != |"x-user-api-key"|;
    var first := [("Content-Type", "application/json")];
    assert first == [] + [("Content-Type", "application/json")];
    HeaderAppend([], "Content-Type", "application/json", "Content-Type");
    HeaderAppend(first, "anthropic-version", ApiVersion, "Content-Type");
    HeaderAppend(base, key, apiKey, "Content-Type");
    HeaderAppend(first, "anthropic-version", ApiVersion, "anthropic-version");
    HeaderAppend(base, key, apiKey, "anthropic-version");
    HeaderAppend(base, key, apiKey, key);
    HeaderAppend([], "Content-Type", "application/json", other);
    HeaderAppend(first, "anthropic-version", ApiVersion, other);
    HeaderAppend(base, key, apiKey, other);
  }

  /** `maxTokens ?? model.maxTokens ?? 4096`. */
  function MaxTokens(args: SendPromptArgs): (n: int)
    ensures args.maxTokens.Some? ==> n == args.maxTokens.value
    ensures args.maxTokens.None? && args.model.maxTokens.Some? ==> n == args.model.maxTokens.value
    ensures args.maxTokens.None? && args.model.maxTokens.None? ==> n == DefaultMaxTokens
  {
    args.maxTokens.GetOr(args.model.maxTokens.GetOr(DefaultMaxTokens))
  }

  /**
   * Lines 35-45: the question is the only message; the system prompt is sent,
   * as `system`, exactly when it is present and not empty.
   */
  function Body(args: SendPromptArgs): (body: MessagesBody)
    ensures body.userContent == [args.prompt] && body.model == args.model.id && body.stream
    ensures body.maxTokens == MaxTokens(args) && body.temperature == Temperature(args)
    ensures body.system.Some? <==> Truthy(args.systemPrompt)
    ensures body.system.Some? ==> body.system == args.systemPrompt
  {
    MessagesBody(args.model.id, [args.prompt], MaxTokens(args), Temperature(args), true,
                 if Truthy(args.systemPrompt) then args.systemPrompt else None)
  }

  /** Lines 8-45: everything sent, before anything is received. */
  function Request(args: SendPromptArgs): (request: MessagesRequest)
    ensures request.url == Url(TransportOf(args))
    ensures request.headers == RequestHeaders(args.providerSettings.apiKey, TransportOf(args))
    ensures request.body == Body(args)
  {
    MessagesRequest(Url(TransportOf(args)), RequestHeaders(args.providerSettings.apiKey, TransportOf(args)), Body(args))
  }

  /**
   * Lines 74-82: the tokens a usage object yields, input plus output. When
   * either count is missing the sum is `NaN` in the source; here it is none.
   */
  function UsageTokens(usage: EventUsage): (total: Option<int>)
    ensures total.Some? <==> usage.inputTokens.Some? && usage.outputTokens.Some?
    ensures total.Some? ==> total.value == usage.inputTokens.value + usage.outputTokens.value
  {
    if usage.inputTokens.Some? && usage.outputTokens.Some? then Some(usage.inputTokens.value + usage.outputTokens.value) else None
  }

  /** Lines 68-82: the delta is `delta.text`, or nothing; a usage object sets the token count. */
  function ReadEvent(event: StreamEvent): (r: Reading)
    ensures r.delta == event.deltaText.GetOr("")
    ensures r.usage.Some? <==> event.usage.Some?
    ensures event.usage.Some? ==> r.usage.value == UsageTokens(event.usage.value)
  {
    Reading(event.deltaText.GetOr(""), if event.usage.Some? then Some(UsageTokens(event.usage.value)) else None)
  }

  /** `sendPromptAnthropic`: the request built from the arguments, and every handler call the response leads to. */
  method SendPromptAnthropic(args: SendPromptArgs, outcome: FetchOutcome, parse: string -> Option<StreamEvent>, latencyMs: int)
    returns (request: MessagesRequest, calls: seq<HandlerCall>)
    ensures request == Request(args)
    ensures calls == HandlerCalls(AnthropicEvents, outcome, parse, ReadEvent, ErrorPrefix, latencyMs)
  {
    request := Request(args);
    calls := Deliver(AnthropicEvents, outcome, parse, ReadEvent, ErrorPrefix, latencyMs);
  }

  /**
   * Lines 55-58 with 92-100: a refused request is reported with the status and
   * the response text, after `Anthropic API error: `.
   */
  lemma RefusedRequest(status: nat, errorText: string, body: Option<seq<Read>>, parse: string -> Option<StreamEvent>, latencyMs: int)
    ensures HandlerCalls(AnthropicEvents, Responded(false, status, errorText, body), parse, ReadEvent, ErrorPrefix, latencyMs)
      == [OnError("Anthropic API error: " + IntToString(status) + " " + errorText)]
  {
    NotOkReportsError(AnthropicEvents, status, errorText, body, parse, ReadEvent, ErrorPrefix, latencyMs);
  }

  /**
   * Lines 60-91: an accepted request completes with the concatenated text
   * deltas and the token count of the last event that carried usage.
   */
  lemma AcceptedRequest(status: nat, errorText: string, results: seq<Read>, parse: string -> Option<StreamEvent>, latencyMs: int)
    ensures var calls := HandlerCalls(AnthropicEvents, Responded(true, status, errorText, Some(results)), parse, ReadEvent, ErrorPrefix, latencyMs);
      var data := DecodeFrames(AnthropicEvents, Frames(Received(results)).0, parse).0;
      calls[0] == OnStart && calls[|calls| - 1] == Completion(data, ReadEvent, latencyMs)
      && calls[|calls| - 1].fullText == ChunkText(calls)
  {
    StreamedCalls(AnthropicEvents, status, errorText, results, parse, ReadEvent, ErrorPrefix, latencyMs);
    CompleteCarriesChunks(AnthropicEvents, status, errorText, results, parse, ReadEvent, ErrorPrefix, latencyMs);
  }
}
