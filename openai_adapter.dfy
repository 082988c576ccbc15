/** `src/lib/adapters/openai.ts`: a streamed chat completion request to OpenAI. */
module OpenAIAdapter {
  import opened Wrappers
  import opened Strings
  import opened Types
  import opened Sse
  import opened Streaming

  datatype Role = System | User

  datatype Message = Message(role: Role, content: string)

  /** The JSON body; `max_tokens` is dropped by `JSON.stringify` when it is undefined. */
  datatype ChatBody = ChatBody(model: string, messages: seq<Message>, temperature: real, maxTokens: Option<int>, stream: bool)

  datatype ChatRequest = ChatRequest(url: string, headers: Headers, body: ChatBody)

  /** One decoded `data:` payload, as far as the adapter looks into it. */
  datatype ChatChunk = ChatChunk(deltaContent: Option<string>, usage: Option<ChatUsage>)

  datatype ChatUsage = ChatUsage(totalTokens: Option<int>)

  const RelayUrl := "/api/relay/openai"
  const DirectUrl := "https://api.openai.com/v1/chat/completions"
  const ErrorPrefix := "OpenAI API error: "

  /** Lines 16-22: the relay route for the relay transport, OpenAI's endpoint otherwise. */
  function Url(transport: Transport): string {
    assert RelayUrl != DirectUrl by {
      assert RelayUrl[0] != DirectUrl[0];
    }
    Endpoint(transport, RelayUrl, DirectUrl)
  }

  /**
   * Lines 24-32: JSON content, and the key either as a bearer token (direct)
   * or in `x-user-api-key` for the relay -- never both.
   */
  function RequestHeaders(apiKey: string, transport: Transport): (headers: Headers)
    ensures Header(headers, "Content-Type") == Some("application/json")
    ensures transport == Direct ==> Header(headers, "Authorization") == Some("Bearer " + apiKey)
                                    && Header(headers, "x-user-api-key").None?
    ensures transport == Relay ==> Header(headers, "x-user-api-key") == Some(apiKey)
                                   && Header(headers, "Authorization").None?
  {
    var base := [("Content-Type", "application/json")];
    if transport == Direct then base + [("Authorization", "Bearer " + apiKey)]
    else base + [("x-user-api-key", apiKey)]
  }

  /** Lines 34-37: the user's question last, after a system message when there is a system prompt. */
  function Messages(systemPrompt: Option<string>, prompt: string): (messages: seq<Message>)
    ensures |messages| == (if Truthy(systemPrompt) then 2 else 1)
    ensures messages[|messages| - 1] == Message(User, prompt)
    ensures Truthy(systemPrompt) ==> messages[0] == Message(System, systemPrompt.value)
    ensures forall k :: 0 <= k < |messages| - 1 ==> messages[k].role == System
  {
    (if Truthy(systemPrompt) then [Message(System, systemPrompt.value)] else []) + [Message(User, prompt)]
  }

  /** Lines 8-45: everything sent, before anything is received. */
  function Request(args: SendPromptArgs): (request: ChatRequest)
    ensures request.url == Url(TransportOf(args))
    ensures request.headers == RequestHeaders(args.providerSettings.apiKey, TransportOf(args))
    ensures request.body.model == args.model.id && request.body.stream
    ensures request.body.messages == Messages(args.systemPrompt, args.prompt)
    ensures request.body.temperature == Temperature(args)
    ensures request.body.maxTokens == (if args.maxTokens.Some? then args.maxTokens else args.model.maxTokens)
  {
    ChatRequest(
      Url(TransportOf(args)),
      RequestHeaders(args.providerSettings.apiKey, TransportOf(args)),
      ChatBody(args.model.id, Messages(args.systemPrompt, args.prompt), Temperature(args),
               if args.maxTokens.Some? then args.maxTokens else args.model.maxTokens, true))
  }

  /**
   * Lines 68-81: the delta is `choices[0].delta.content`, or nothing; a usage
   * object sets the token count to its `total_tokens`, present or not.
   */
  function ReadChunk(chunk: ChatChunk): (r: Reading)
    ensures r.delta == chunk.deltaContent.GetOr("")
    ensures r.usage.Some? <==> chunk.usage.Some?
    ensures chunk.usage.Some? ==> r.usage.value == chunk.usage.value.totalTokens
  {
    Reading(chunk.deltaContent.GetOr(""),
            if chunk.usage.Some? then Some(chunk.usage.value.totalTokens) else None)
  }

  /** `sendPromptOpenAI`: the request built from the arguments, and every handler call the response leads to. */
  method SendPromptOpenAI(args: SendPromptArgs, outcome: FetchOutcome, parse: string -> Option<ChatChunk>, latencyMs: int)
    returns (request: ChatRequest, calls: seq<HandlerCall>)
    ensures request == Request(args)
    ensures calls == HandlerCalls(DataLines, outcome, parse, ReadChunk, ErrorPrefix, latencyMs)
  {
    request := Request(args);
    calls := Deliver(DataLines, outcome, parse, ReadChunk, ErrorPrefix, latencyMs);
  }

  /**
   * Lines 55-58 with 91-99: a refused request is reported with the status and
   * the response text, after `OpenAI API error: `.
   */
  lemma RefusedRequest(status: nat, errorText: string, body: Option<seq<Read>>, parse: string -> Option<ChatChunk>, latencyMs: int)
    ensures HandlerCalls(DataLines, Responded(false, status, errorText, body), parse, ReadChunk, ErrorPrefix, latencyMs)
      == [OnError("OpenAI API error: " + IntToString(status) + " " + errorText)]
  {
    NotOkReportsError(DataLines, status, errorText, body, parse, ReadChunk, ErrorPrefix, latencyMs);
  }

  /**
   * Lines 60-90: an accepted request completes with the concatenated content
   * deltas, and with the `total_tokens` of the last chunk that carried usage.
   */
  lemma AcceptedRequest(status: nat, errorText: string, results: seq<Read>, parse: string -> Option<ChatChunk>, latencyMs: int)
    ensures var calls := HandlerCalls(DataLines, Responded(true, status, errorText, Some(results)), parse, ReadChunk, ErrorPrefix, latencyMs);
      var data := DecodeFrames(DataLines, Frames(Received(results)).0, parse).0;
      calls[0] == OnStart && calls[|calls| - 1] == Completion(data, ReadChunk, latencyMs)
      && calls[|calls| - 1].fullText == ChunkText(calls)
  {
    StreamedCalls(DataLines, status, errorText, results, parse, ReadChunk, ErrorPrefix, latencyMs);
    CompleteCarriesChunks(DataLines, status, errorText, results, parse, ReadChunk, ErrorPrefix, latencyMs);
  }
}
