/** The records of `src/lib/types.ts`, as value types. */
module Types {
  import opened Wrappers

  datatype ProviderName = OpenAI | Anthropic | DeepSeek | OpenAICompatible

  /** The wire name of a provider (the `service` column of an export). */
  function ProviderString(p: ProviderName): string {
    match p
    case OpenAI => "openai"
    case Anthropic => "anthropic"
    case DeepSeek => "deepseek"
    case OpenAICompatible => "openai_compatible"
  }

  datatype Transport = Direct | Relay

  /** `transport` is optional; an absent one means `direct`. */
  datatype ProviderSettings = ProviderSettings(apiKey: string, baseUrl: Option<string>, transport: Option<Transport>)

  datatype ModelSettings = ModelSettings(
    id: string,
    labelText: string,  // `label` in the source (a reserved word here)
    provider: ProviderName,
    temperature: Option<real>,
    maxTokens: Option<int>,
    enabled: bool)

  datatype RunConfig = RunConfig(
    systemPrompt: Option<string>,
    question: string,
    loopCount: int,
    selectedModelIds: seq<string>,
    concurrency: int,
    createdAt: string,
    loopCapAtRunTime: int)

  datatype Status = Queued | InProgress | Done | Error | Canceled

  function StatusString(s: Status): string {
    match s
    case Queued => "queued"
    case InProgress => "in_progress"
    case Done => "done"
    case Error => "error"
    case Canceled => "canceled"
  }

  datatype ResponseRecord = ResponseRecord(
    id: string,
    runId: string,
    service: ProviderName,
    modelId: string,
    modelLabel: string,
    loopIndex: int,
    status: Status,
    text: string,
    startedAt: Option<string>,
    completedAt: Option<string>,
    latencyMs: Option<int>,
    inputTokens: Option<int>,
    outputTokens: Option<int>,
    totalTokens: Option<int>,
    charCount: Option<int>,
    finishReason: Option<string>,
    truncated: Option<bool>,
    errorMessage: Option<string>,
    retryCount: int)

  datatype Stats = Stats(total: int, completed: int, errors: int, avgLatencyMs: Option<int>)

  datatype Run = Run(id: string, config: RunConfig, responses: seq<ResponseRecord>, stats: Stats)

  /** What an adapter is asked to send; the abort signal is left out. */
  datatype SendPromptArgs = SendPromptArgs(
    model: ModelSettings,
    providerSettings: ProviderSettings,
    systemPrompt: Option<string>,
    prompt: string,
    temperature: Option<real>,
    maxTokens: Option<int>,
    transport: Option<Transport>)

  /** One call of a `StreamHandler` by a provider adapter. */
  datatype HandlerCall =
    | OnStart
    | OnChunk(text: string)
    | OnComplete(fullText: string, latencyMs: Option<int>, totalTokens: Option<int>)
    | OnError(error: string)
}
