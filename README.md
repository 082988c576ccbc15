# response-rater in Dafny

response-rater is a browser tool. It sends one question to several LLM providers, asking each selected model the same thing a chosen number of times ("loops"). It streams the answers back into a run. It can then look for near-duplicate answers, export the run as CSV, and import expert answers from CSV.

This project models the logic behind that and proves properties of it:

- **Similarity engine** (`similarity.dfy`, `clusters.dfy`, `similarity_graph.dfy`):
  - tokenising, and term-frequency vectors over a shared vocabulary;
  - cosine similarity, with the square root as a parameter;
  - the symmetric thresholded pair map, and its breadth-first connected components.
- **Server-sent-events readers** (`sse.dfy`): the buffer carried across reads, frames cut at `"\n\n"`, `data:` lines, `event:`/`data:` pairs and the end markers.
- **Run engine** (`jobs.dfy`, `run_stats.dfy`, `run_engine.dfy`): a class holding the current run, the job list and the set of running job ids. Its methods are:
  - `startRun`, admission by `processJobs`, `cancelRun`, `retryErrors` and `getStatus`;
  - the events a provider adapter reports for a request: chunk, completion and error.
- **CSV** (`csv_export.dfy`, `csv_import.dfy`, `csv_roundtrip.dfy`):
  - field escaping and the exported row layout;
  - the importer's quote-toggling line splitter, header-column selection and metadata;
  - how the importer reads what the exporter writes.
- **Provider adapters** (`streaming.dfy`, `openai_adapter.dfy`, `anthropic_adapter.dfy`):
  - the request each adapter builds: URL, headers and body, per transport;
  - the sequence of `StreamHandler` calls each `fetch` outcome and each stream leads to.
- **Stores** (`runs_store.dfy`, `models_store.dfy`, `providers_store.dfy`, `experts_store.dfy`): each store is a class whose actions reassign its fields with merged, mapped or filtered copies.
- **Shared definitions** (`wrappers.dfy`, `strings.dfy`, `types.dfy`): `Option`/`Result`, the JavaScript string operations the code relies on (`trim`, `split`, `join`, `toLowerCase`, `toString`), and the records of `src/lib/types.ts`.

Some things the code takes from outside become parameters:
- `fetch` is a `FetchOutcome`.
- A response body is a sequence of already-decoded reads.
- `JSON.parse` is a partial function `parse`.
- `Math.sqrt` is a function `sqrt`.
- `performance.now` gives a latency.
- `new Date()` is a `now` string.
- `crypto.randomUUID()` is a counter of ids handed out (`RunEngine.Uuid`) or a function `newId`.
- The providers store seen by the engine is a `settings` function.

Numbers are exact (`int`, `real`): floating-point rounding is not modelled.

## Model

| member | source | states |
|---|---|---|
| Similarity.Clean | src/lib/similarity/text.ts:6-7 | after lower-casing and removing punctuation, every character is a word character or whitespace, and none is upper case |
| Similarity.CleanAppend | src/lib/similarity/text.ts:6-7 | cleaning works character by character: it distributes over concatenation, and one character is kept, lower-cased, exactly when its lower case is a word character or whitespace |
| Similarity.Words | src/lib/similarity/text.ts:8-9 | the pieces are non-empty and whitespace-free, and each character comes from the input |
| Similarity.WordsCoverInput | src/lib/similarity/text.ts:8-9 | the words put back together are the input with its whitespace removed: splitting loses nothing else |
| Similarity.WordsOfSpaced | src/lib/similarity/text.ts:8-9 | non-empty, whitespace-free words joined by single spaces split back into exactly those words |
| Similarity.Tokenize | src/lib/similarity/text.ts:4-10 | every token is non-empty and made only of lower-case `[a-z0-9_]` characters |
| Similarity.DistinctIsVocabulary | src/lib/similarity/text.ts:17-25 | the vocabulary holds every token of every document exactly once, nothing else, in order of first appearance |
| Similarity.BuildVocabulary | src/lib/similarity/text.ts:18-25 | the vocabulary loop produces the first-seen-order duplicate-free list of all tokens |
| Similarity.IndexOf | src/lib/similarity/text.ts:34 | `indexOf` gives -1 exactly when the token is absent, and otherwise its first position |
| Similarity.Count | src/lib/similarity/text.ts:33-38 | a word's count is 0 exactly when the document does not hold it |
| Similarity.TermVector | src/lib/similarity/text.ts:29-46 | a document's vector has one entry per vocabulary word |
| Similarity.CountVector | src/lib/similarity/text.ts:29-48 | the counting and normalising loops compute the document's term-frequency vector |
| Similarity.Documents | src/lib/similarity/text.ts:17 | there is one token list per text |
| Similarity.TermVectors | src/lib/similarity/text.ts:26-49 | there is one vector per text |
| Similarity.CalculateTermFrequencies | src/lib/similarity/text.ts:13-52 | returns the vocabulary and, per text, its term-frequency vector |
| Similarity.EmptyDocumentZeroVector | src/lib/similarity/text.ts:41-46 | a text without tokens gets the all-zero vector |
| Similarity.Cosine | src/lib/similarity/text.ts:55-74 | fails exactly when the vector lengths differ |
| Similarity.CosineSimilarity | src/lib/similarity/text.ts:55-74 | the accumulating loop computes `Cosine` |
| Similarity.DotSymmetric | src/lib/similarity/text.ts:64-65 | the dot product does not depend on argument order |
| Similarity.CosineSymmetric | src/lib/similarity/text.ts:55-74 | the score is symmetric in its two vectors |
| Similarity.DotOfDisjointSupports | src/lib/similarity/text.ts:64-65 | vectors with no common non-zero entry have dot product 0 |
| Similarity.CosineOfZeroVector | src/lib/similarity/text.ts:70-71 | the score is 0 when either vector is all zeros, given that the root of 0 is 0 |
| Similarity.CosineOfDisjointSupports | src/lib/similarity/text.ts:64-73 | the score is 0 for vectors with disjoint supports, whatever the square root is |
| Similarity.DisjointTokensScoreZero | src/lib/similarity/text.ts:29-38 | two texts that share no token score 0 |
| SimilarityGraph.Completed | src/lib/similarity/text.ts:81-83 | keeps only responses that are done with non-blank text, in order |
| SimilarityGraph.PairScoreSymmetric | src/lib/similarity/text.ts:94-96 | a pair's score does not depend on the order of its two responses |
| SimilarityGraph.Push | src/lib/similarity/text.ts:102-106 | the key gets a list if it had none; the entry goes at its end; the key order is kept |
| SimilarityGraph.AddPair | src/lib/similarity/text.ts:99-106 | each of the two ids is pushed onto the other's list |
| SimilarityGraph.ScanRow | src/lib/similarity/text.ts:95-108 | the inner loop keeps the map sound and complete up to the end of row `i` |
| SimilarityGraph.AddPairKeepsInvariant | src/lib/similarity/text.ts:98-107 | adding a pair at or above the threshold keeps the map sound and extends its completeness |
| SimilarityGraph.FindSimilarPairs | src/lib/similarity/text.ts:77-112 | fewer than two completed responses give the empty map; otherwise the lists are non-empty, list only distinct completed responses at or above the threshold, and list every such pair under both ids |
| SimilarityGraph.DescribedIsSymmetric | src/lib/similarity/text.ts:102-106 | `y` is listed under `x` with score `s` iff `x` is listed under `y` with score `s`, and every score reaches the threshold |
| SimilarityGraph.AdjacentIffSimilar | src/lib/similarity/text.ts:94-109 | an id is listed under another exactly when the two responses are similar |
| Clusters.AdjacentSymmetric | src/lib/similarity/text.ts:102-106 | in a symmetric map, adjacency goes both ways |
| Clusters.EnqueueUnvisited | src/lib/similarity/text.ts:138-143 | the old queue stays in front; every listed id ends up visited or queued; only unvisited neighbours are added |
| Clusters.SearchStep | src/lib/similarity/text.ts:130-144 | one turn of the search keeps its invariants, and the queue or the unvisited set shrinks |
| Clusters.ClosedAtEnd | src/lib/similarity/text.ts:130 | when the queue runs dry, the cluster is closed under the pair map |
| Clusters.Explore | src/lib/similarity/text.ts:127-144 | the cluster starts at the root, has no repeats, is exactly what is newly visited, is closed, and each later member neighbours an earlier one |
| Clusters.Components | src/lib/similarity/text.ts:119-151 | the clusters are disjoint and duplicate-free, have at least two ids each, and are whole connected components; every key with another neighbour is in one |
| SimilarityGraph.ComponentIsSimilarCluster | src/lib/similarity/text.ts:119-151 | a connected component of the map is closed under, and chained by, the similarity relation |
| SimilarityGraph.KeyIsCompletedId | src/lib/similarity/text.ts:102-103 | every key of the pair map is the id of a completed response |
| SimilarityGraph.FindSimilarityClusters | src/lib/similarity/text.ts:115-152 | the clusters are disjoint, hold at least two completed ids each, and are whole components of the similarity relation; every response similar to another is clustered |
| SimilarityGraph.GetSimilarityScore | src/lib/similarity/text.ts:155-171 | a score exists iff both responses are done and their score reaches the threshold, and then it is that score |
| SimilarityGraph.DisjointResponsesHaveNoScore | src/lib/similarity/text.ts:160-170 | with a positive threshold, two responses sharing no token get no score |
| SimilarityGraph.DisjointResponsesNotSimilar | src/lib/similarity/text.ts:94-98 | with a positive threshold, two completed responses sharing no token are never paired |
| Sse.SplitChunk | src/lib/sse/parse.ts:10-17 | cutting one read into two does not change the text received |
| Sse.FindSep | src/lib/sse/parse.ts:20 | `indexOf("\n\n")` gives -1 or the position of a separator |
| Sse.FramesSound | src/lib/sse/parse.ts:20-22 | the frames with their separators, followed by the rest, are the buffer; no frame and no rest holds a separator |
| Sse.FramesAppend | src/lib/sse/parse.ts:17-22 | buffering more text only adds frames after the ones already complete, so frames depend only on the text received |
| Sse.DecodedLinesAreData | src/lib/sse/parse.ts:24-38 | a frame's lines make only `onData` calls, at most one per line |
| Sse.IgnoredLineChangesNothing | src/lib/sse/parse.ts:26-37 | a non-`data:` line or a payload that does not parse changes nothing; parsing continues |
| Sse.LinesAfterDoneIgnored | src/lib/sse/parse.ts:28-31 | after `[DONE]`, later lines make no call |
| Sse.DoneEndsFrame | src/lib/sse/parse.ts:28-31 | a frame behaves as its lines up to the `[DONE]` |
| Sse.DecodeDataLines | src/lib/sse/parse.ts:24-39 | the line loop makes the calls and the stop decision of the reference decoding |
| Sse.LastFieldIsLastLine | src/lib/sse/parse.ts:77-83 | the last line carrying a field decides its value; with none it is `""` |
| Sse.AnthropicFrame | src/lib/sse/parse.ts:74-95 | a frame stops the parser iff its event is `message_delta`; it passes at most one datum, and only for a non-empty `content_block_delta` that parses |
| Sse.DecodeAnthropicFrame | src/lib/sse/parse.ts:73-95 | the line loop and the frame decision make the reference calls |
| Sse.DecodedFramesAreData | src/lib/sse/parse.ts:20-40 | frames make only `onData` calls |
| Sse.FramesAfterStopIgnored | src/lib/sse/parse.ts:29-30 | once a frame stopped the parser, later frames make no call (lines 93-94 for the Anthropic dialect) |
| Sse.ParseStream | src/lib/sse/parse.ts:1-103 | the read loop makes exactly the calls `StreamCallbacks` prescribes from the text received |
| Sse.DrainBuffer | src/lib/sse/parse.ts:20-40 | the frames taken are the buffer's first frames; unless stopped, they are all of them and the rest stays buffered |
| Sse.StoppedEarly | src/lib/sse/parse.ts:28-46 | a frame that stops the parser ends its calls with two `onDone`, whatever is read after |
| Sse.UnfinishedFrameDropped | src/lib/sse/parse.ts:13-22 | text after the last separator when the stream ends is never decoded |
| Sse.ReceivedSnoc | src/lib/sse/parse.ts:14-17 | a chunk read last adds its text, unless an earlier read failed |
| Sse.ReceivedStopsAtFailure | src/lib/sse/parse.ts:14-17 | a read that fails drops the text of every read after it |
| Sse.DoneCountAsWritten | src/lib/sse/parse.ts:6-102 | with no body, `onDone` never runs; with a body it runs once, or twice when an end marker stopped the parser |
| Sse.DoneTwiceOnEndMarker | src/lib/sse/parse.ts:28-46 | a single frame `data: [DONE]` makes `onDone` run twice |
| Sse.FixedDoneOnce | src/lib/sse/parse.ts:28-46 | the corrected parser calls `onDone` exactly once, last, and differs from the one as written only by that extra call |
| Streaming.Header | src/lib/adapters/openai.ts:24-32 | a header name gets a value iff some entry has that name, and the value is that of the last such entry |
| Streaming.HeaderAppend | src/lib/adapters/anthropic.ts:29-33 | a header set after the others overwrites any earlier value of its name, and leaves every other name as it was |
| Streaming.ErrorMessage | src/lib/adapters/openai.ts:91-99 | an `AbortError` reports the cancellation, any other error reports its message, and a non-error reports "Unknown error" |
| Streaming.ForwardCallbacks | src/lib/adapters/openai.ts:61-90 | the handler loop makes the calls of the left fold `ForwardAll` over the parser callbacks |
| Streaming.Deliver | src/lib/adapters/openai.ts:47-99 | the handler calls are those `HandlerCalls` prescribes for the `fetch` outcome |
| Streaming.LastUsageIsLast | src/lib/adapters/openai.ts:78-81 | the token count kept is that of the last event with usage; there is none exactly when no event has usage |
| Streaming.ForwardData | src/lib/adapters/openai.ts:68-82 | data events append their non-empty deltas to the text and as `onChunk` calls, and leave the last usage seen |
| Streaming.ChunkTextOfChunks | src/lib/adapters/openai.ts:71-74 | the text of the `onChunk` calls is the concatenated deltas |
| Streaming.AbortReportsCancel | src/lib/adapters/openai.ts:92-93 | a request aborted before its response arrived, whose `fetch` rejects with an `AbortError`, makes exactly one call, `onError("Request was canceled")` |
| Streaming.NotOkReportsError | src/lib/adapters/openai.ts:55-58 | a status that is not ok makes exactly one call, an `onError` naming the prefix, the status and the body |
| Streaming.ForwardStream | src/lib/adapters/openai.ts:66-90 | forwarding data and then the closing `onDone` calls gives the chunks, then one completion per `onDone` |
| Streaming.StreamedCalls | src/lib/adapters/openai.ts:60-90 | with a body: `onStart`, one `onChunk` per non-empty delta in order, then `onComplete` with their concatenation and the last usage; the `onComplete` comes twice when an end marker stopped the parser |
| Streaming.CompleteCarriesChunks | src/lib/adapters/openai.ts:60-90 | once a body is there, the first call is `onStart` and the last is `onComplete` with exactly the text of the chunks; no `onError` is made and no chunk is empty |
| Streaming.AbortMidStreamCompletes | src/lib/sse/parse.ts:42-46 | a read that fails after the response arrived, as an abort makes it, ends the stream as if it ended there: `onComplete` with the text received so far, and no `onError` |
| Streaming.FixedParserCompletesOnce | src/lib/adapters/openai.ts:60-90 | with the corrected parser, an accepted request completes exactly once |
| Streaming.NoBodyNeverCompletes | src/lib/sse/parse.ts:6-7 | without a body, the adapter reports the start and never completes |
| Streaming.Endpoint | src/lib/adapters/openai.ts:19-22 | the relay route iff the transport is relay, the direct endpoint iff it is direct (the same choice is lines 19-22 of the Anthropic adapter); `OpenAIAdapter.Url` and `AnthropicAdapter.Url` apply it to their own two URLs |
| OpenAIAdapter.RequestHeaders | src/lib/adapters/openai.ts:24-32 | JSON content type; direct sends `Bearer <key>` as `Authorization` and relay sends the key as `x-user-api-key`, never both |
| OpenAIAdapter.Messages | src/lib/adapters/openai.ts:34-37 | the user message is last, after one system message exactly when the system prompt is non-empty |
| Streaming.Temperature | src/lib/adapters/openai.ts:42 | the argument, else the model's temperature, else 0.7 (the same expression is line 39 of the Anthropic adapter) |
| OpenAIAdapter.Request | src/lib/adapters/openai.ts:8-45 | the URL follows the transport (direct by default) and the headers are `RequestHeaders` for it; the body names the model, holds the `Messages`, the `Temperature` and streams; `max_tokens` falls back to the model's, with no default |
| OpenAIAdapter.ReadChunk | src/lib/adapters/openai.ts:68-81 | the delta is the content or `""`; a usage object sets the count to its `total_tokens` |
| OpenAIAdapter.SendPromptOpenAI | src/lib/adapters/openai.ts:4-100 | sends the `Request` and makes the `HandlerCalls` of the outcome |
| OpenAIAdapter.RefusedRequest | src/lib/adapters/openai.ts:55-58 | a refused request reports `OpenAI API error: <status> <body>` and nothing else (the catch of lines 91-99 reports it) |
| OpenAIAdapter.AcceptedRequest | src/lib/adapters/openai.ts:60-90 | an accepted request starts, then ends with the completion of the decoded data, whose text is that of the chunks |
| AnthropicAdapter.RequestHeaders | src/lib/adapters/anthropic.ts:24-33 | JSON content type and `anthropic-version: 2023-06-01`; the key in `x-api-key` (direct) or in `x-user-api-key` (relay), never both |
| AnthropicAdapter.MaxTokens | src/lib/adapters/anthropic.ts:38 | the argument, else the model's limit, else 4096 |
| AnthropicAdapter.Body | src/lib/adapters/anthropic.ts:35-45 | the prompt is the only message; `system` is present exactly when the system prompt is non-empty, and then it holds that prompt |
| AnthropicAdapter.Request | src/lib/adapters/anthropic.ts:8-45 | the URL follows the transport, the headers are `RequestHeaders` for it, and the body is `Body`, whose token limit is `MaxTokens` and temperature `Temperature` |
| AnthropicAdapter.UsageTokens | src/lib/adapters/anthropic.ts:79-81 | the token count is input plus output, and exists exactly when both do |
| AnthropicAdapter.ReadEvent | src/lib/adapters/anthropic.ts:68-82 | the delta is `delta.text` or `""`; a usage object sets the count to its token sum |
| AnthropicAdapter.SendPromptAnthropic | src/lib/adapters/anthropic.ts:4-101 | sends the `Request` and makes the `HandlerCalls` of the outcome |
| AnthropicAdapter.RefusedRequest | src/lib/adapters/anthropic.ts:55-58 | a refused request reports `Anthropic API error: <status> <body>` and nothing else (the catch of lines 92-100 reports it) |
| AnthropicAdapter.AcceptedRequest | src/lib/adapters/anthropic.ts:60-91 | an accepted request starts, then ends with the completion of the decoded data, whose text is that of the chunks |
| Jobs.FindModel | src/lib/runEngine/index.ts:52 | nothing exactly when no model has the id; otherwise a model of the list with that id |
| Jobs.FindModelFirst | src/lib/runEngine/index.ts:52 | the model found is the first with that id |
| Jobs.LoopJobs | src/lib/runEngine/index.ts:58-66 | `loopCount` jobs (none if negative), the `i`-th being job `i` of the model |
| Jobs.BuildJobsCount | src/lib/runEngine/index.ts:51-67 | the list has `loopCount` jobs per selected id that names a model |
| Jobs.BuildJobsShape | src/lib/runEngine/index.ts:58-66 | every new job is queued, not retried, for a selected model, with id `<modelId>-<i>` |
| Jobs.BuildJobsAppend | src/lib/runEngine/index.ts:51-67 | the jobs come model by model, in selection order |
| Jobs.CancelAll | src/lib/runEngine/index.ts:251-258 | queued and running jobs become canceled; the others are unchanged |
| Jobs.CancelSettles | src/lib/runEngine/index.ts:249-261 | after a cancel no job waits or runs, and a second cancel changes nothing |
| Jobs.RequeueAll | src/lib/runEngine/index.ts:264-268 | failed jobs are queued with one more retry; the others are unchanged |
| Jobs.RequeueClearsErrors | src/lib/runEngine/index.ts:263-268 | after a retry no job is failed, and queued jobs are as before |
| Jobs.FirstQueued | src/lib/runEngine/index.ts:97 | the index of the first queued job |
| Jobs.AdmitFirst | src/lib/runEngine/index.ts:97-101 | starting the first queued job keeps admission in list order |
| Jobs.AdmittedTransitive | src/lib/runEngine/index.ts:93-105 | successive admissions compose |
| RunStats.CountStatus | src/lib/runEngine/index.ts:228-229 | a status count is at most the number of records |
| RunStats.DoneAndErrorsWithinTotal | src/lib/runEngine/index.ts:227-229 | done and failed records together are at most the total |
| RunStats.Timed | src/lib/runEngine/index.ts:237-239 | exactly the records that carry a latency |
| RunStats.RoundedQuotient | src/lib/runEngine/index.ts:246 | `Math.round(a / n)` lies within half of `a / n`, halves rounded up |
| RunStats.AverageLatency | src/lib/runEngine/index.ts:234-247 | absent exactly when no record has a latency |
| RunStats.StatsOf | src/lib/runEngine/index.ts:222-232 | the total is the record count, and done plus failed records fit in it |
| RunStats.AverageWithinBounds | src/lib/runEngine/index.ts:234-247 | the average lies between the smallest and the largest latency |
| RunEngine.NextUuidFresh | src/lib/runEngine/index.ts:121 | a new id, for a record (line 121) or a run (line 73), differs from every id handed out before it |
| RunEngine.FirstWhere | src/lib/runEngine/index.ts:157-159 | `find` gives the first record that matches, or none when none does (also lines 201-203) |
| RunEngine.ChunkInto | src/lib/runEngine/index.ts:155-165 | appending a chunk keeps the number of records |
| RunEngine.CompleteInto | src/lib/runEngine/index.ts:167-182 | completing keeps the number of records |
| RunEngine.FailInto | src/lib/runEngine/index.ts:198-209 | at most one record changes, and only to failed |
| RunEngine.FailIntoFirstOnly | src/lib/runEngine/index.ts:201-209 | the record that fails is the first for the job's model and loop, whatever its attempt or status |
| RunEngine.WithIdUnique | src/lib/runEngine/index.ts:157-159 | with distinct ids, a callback finds its own record |
| RunEngine.ChunksAccumulate | src/lib/runEngine/index.ts:155-165 | chunks accumulate in their record in order, its char count follows its text, and no other record changes |
| RunEngine.CompleteIntoFinishes | src/lib/runEngine/index.ts:168-182 | a completed record is done and holds the full text and its length; no other record changes |
| RunEngine.RunningAfterIds | src/lib/runEngine/index.ts:97-119 | with distinct job ids, an id is running after admission iff it was running and no taken job of that id failed, or a taken job of that id did not fail |
| RunEngine.ReplacedJobFailsNewRecord | src/lib/runEngine/index.ts:198-209 | for any record list: the error of a replaced run's job fails the first record of the new run for the same model and loop, with the job's error, whatever its status; every other record is kept |
| RunEngine.BuildJobList | src/lib/runEngine/index.ts:51-67 | the loops build `BuildJobs` |
| RunEngine.PushLoopJobs | src/lib/runEngine/index.ts:58-66 | the inner loop appends the model's loop jobs |
| RunEngine.Engine.constructor | src/lib/runEngine/index.ts:28-37 | no run, no jobs, nothing running, the given concurrency |
| RunEngine.Engine.GetStatus | src/lib/runEngine/index.ts:273-286 | zeros without a run; otherwise running iff a job runs or waits, with the run's counts |
| RunEngine.Engine.CancelRun | src/lib/runEngine/index.ts:249-261 | the jobs are canceled as `CancelAll` says, the running set empties, and the status stops reporting a run in progress |
| RunEngine.Engine.Launch | src/lib/runEngine/index.ts:121-136 | a fresh id and a new in-progress record for the job, appended to the run |
| RunEngine.Engine.FailJob | src/lib/runEngine/index.ts:198-213 | the first record for the job's model and loop fails, the job becomes an error whatever its status, and the statistics are recomputed |
| RunEngine.Engine.StartRun | src/lib/runEngine/index.ts:39-90 | the old run is canceled and the jobs are built, then admitted in order up to the concurrency; the running set is exactly the ids of the admitted jobs that did not fail; every admitted job either failed for a missing key or has exactly one request out, and each request opened its own in-progress record; the statistics start at the job count |
| RunEngine.Engine.OnChunk | src/lib/runEngine/index.ts:155-165 | the chunk is appended to the record with that id; nothing else changes |
| RunEngine.Engine.CompleteResponse | src/lib/runEngine/index.ts:168-182 | the record with that id is done and the statistics follow its list |
| RunEngine.Engine.OnComplete | src/lib/runEngine/index.ts:167-220 | the record completes; the job leaves the running set but keeps its in-progress status; waiting jobs are admitted as in `ProcessJobs`, the running set, the requests and their records following exactly |
| RunEngine.Engine.OnError | src/lib/runEngine/index.ts:185-220 | the job and its first matching record fail, the job's id leaves the running set, and waiting jobs are admitted as in `ProcessJobs`; this also holds for a job of a replaced list |
| RunEngine.Engine.OnErrorCurrentOnly | src/lib/runEngine/index.ts:198-220 | a job of a replaced list changes nothing; a current job fails, leaves the running set and lets waiting jobs in as in `OnError` |
| RunEngine.Engine.RetryErrors | src/lib/runEngine/index.ts:263-271 | failed jobs are requeued with one more retry and admitted as in `ProcessJobs`: the running set, the requests and their new records follow exactly |
| RunEngine.Engine.RequeueErrors | src/lib/runEngine/index.ts:264-268 | the job list becomes `RequeueAll` of the old one; nothing else changes |
| RunEngine.Engine.Admit | src/lib/runEngine/index.ts:97-101 | the first queued job becomes in progress and its id joins the running set; nothing else changes |
| RunEngine.Engine.FailWithoutKey | src/lib/runEngine/index.ts:116-119 | with no API key the job becomes an error, its id leaves the running set, and the run's records are `FailInto` of the old ones: no record is added |
| RunEngine.Engine.LaunchWithKey | src/lib/runEngine/index.ts:121-136 | with a key, exactly one record opens for the job, under a fresh id, and the request goes out under that id; jobs and running set are unchanged |
| RunEngine.Engine.ProcessJobs | src/lib/runEngine/index.ts:92-119 | queued jobs are admitted in list order while the running set has room, and afterwards none waits or the set is full; the running set is exactly `RunningAfter`; every admitted job failed for a missing key or has exactly one request out, each request having opened its record; only keyless jobs fail |
| CsvExport.DoubleQuotes | src/lib/csv/export.ts:7 | doubling adds one character per quote |
| CsvExport.EscapeField | src/lib/csv/export.ts:4-10 | the field is unchanged iff it holds no quote, comma or line feed; otherwise it is quoted, with its quotes doubled |
| CsvExport.CollapseDoubled | src/lib/csv/export.ts:7 | collapsing doubled quotes undoes the doubling |
| CsvExport.EscapeRoundTrip | src/lib/csv/export.ts:4-10 | unquoting and collapsing an escaped field gives the field back |
| CsvExport.CarriageReturnNotQuoted | src/lib/csv/export.ts:5 | a carriage return alone does not make a field quoted |
| CsvExport.NumberField | src/lib/csv/export.ts:52-56 | an absent number is exactly an empty field |
| CsvExport.RunFields | src/lib/csv/export.ts:41-44 | the run's four fields |
| CsvExport.ModelFields | src/lib/csv/export.ts:45-49 | five fields, the loop index as a decimal integer |
| CsvExport.TimingFields | src/lib/csv/export.ts:50-53 | four fields; latency and char count are empty exactly when absent |
| CsvExport.UsageFields | src/lib/csv/export.ts:54-56 | three token fields, each empty exactly when absent |
| CsvExport.OutcomeFields | src/lib/csv/export.ts:57-60 | `truncated` as `true` or `false`, the retry count in decimal, and a text field that unescapes back to the text |
| CsvExport.Row | src/lib/csv/export.ts:40-61 | twenty fields, one per header name |
| CsvExport.Lines | src/lib/csv/export.ts:37-64 | the header line, then one line per record in list order |
| CsvExport.ExportRunToCSV | src/lib/csv/export.ts:13-67 | the lines joined by line feeds, with none after the last |
| CsvExport.EmptyRunIsHeaderOnly | src/lib/csv/export.ts:37-66 | a run without records exports as the header alone |
| CsvImport.ParseCSVLine | src/lib/csv/import.ts:43-61 | the character loop computes `ParseLine` |
| CsvImport.OpenAfterParity | src/lib/csv/import.ts:50-51 | the quoting ends open iff it started open or the number of quotes is odd, but not both |
| CsvImport.ScanCounts | src/lib/csv/import.ts:48-58 | reading adds one field per comma outside quotes |
| CsvImport.ParseLineCount | src/lib/csv/import.ts:43-61 | a line has one field more than it has commas outside quotes |
| CsvImport.ParseLineClean | src/lib/csv/import.ts:53-59 | every field is trimmed and holds no quote |
| CsvImport.DoubledQuoteVanishes | src/lib/csv/import.ts:50-51 | `"a""b"` reads as `ab` |
| CsvImport.CleanHeader | src/lib/csv/import.ts:9 | a cleaned header holds no quote |
| CsvImport.RemoveQuotes | src/lib/csv/import.ts:9 | every quote is removed, and nothing else |
| CsvImport.TextColumn | src/lib/csv/import.ts:10-14 | none exactly when no header mentions response, text or answer; otherwise the first that does |
| CsvImport.MetadataKeys | src/lib/csv/import.ts:25-30 | a name is a key iff it is not `__proto__` (whose assignment sets the prototype and stores no own key) and another column of that name has a value; the value is the last such column's |
| CsvImport.RowMetadata | src/lib/csv/import.ts:25-30 | the header loop computes `Metadata`, skipping a `__proto__` header |
| CsvImport.LineEntryMeaning | src/lib/csv/import.ts:24-36 | a line gives a record iff its text field exists and is not blank; the text is that field; metadata is absent iff no other column except a `__proto__` one has a value |
| CsvImport.Collect | src/lib/csv/import.ts:22-38 | at most one record per data line |
| CsvImport.CollectFromRows | src/lib/csv/import.ts:22-38 | the `k`-th record has the `k`-th fresh id and is the entry of some data line |
| CsvImport.CollectStep | src/lib/csv/import.ts:22-38 | a line without an entry adds nothing; one with an entry adds exactly one record, at the end |
| CsvImport.InputLines | src/lib/csv/import.ts:4 | one line more than the trimmed input has line feeds |
| CsvImport.Headers | src/lib/csv/import.ts:9 | one header more than the first line has commas |
| CsvImport.ReadLine | src/lib/csv/import.ts:23-36 | splits one data line and gathers its entry |
| CsvImport.CollectRecords | src/lib/csv/import.ts:22-38 | the data-line loop computes `Collect` |
| CsvImport.ParseExpertResponsesCSV | src/lib/csv/import.ts:3-41 | fails when there are fewer than two lines, fails when no column is a text column, and otherwise returns the collected records |
| CsvRoundTrip.EscapedIsNeutral | src/lib/csv/export.ts:4-10 | every escaped field reads back as one field |
| CsvRoundTrip.JoinNeutral | src/lib/csv/export.ts:63 | neutral fields joined by commas read back as that many fields |
| CsvRoundTrip.RowReadsAsTwentyFields | src/lib/csv/export.ts:40-63 | every exported data line splits into twenty fields |
| CsvRoundTrip.EscapedQuoteIsLost | src/lib/csv/export.ts:7 | the importer reads an escaped `a"b` as `ab`: the two are not inverses |
| CsvRoundTrip.JoinedLineFeeds | src/lib/csv/export.ts:66 | joined lines have a line feed between each pair, and more where a line holds one |
| CsvRoundTrip.LineFeedInTextSplitsRecord | src/lib/csv/export.ts:60-66 | a record whose text holds a line feed comes back as more lines than were written |
| Strings.Trim | src/lib/csv/import.ts:4 | `trim` is no longer than the input; when non-empty it starts and ends with a non-space; it is empty iff the input is all whitespace (that it is an infix is `Strings.TrimInfix`) |
| Strings.TrimInfix | src/lib/csv/import.ts:4 | `trim` keeps a contiguous infix of the input and removes only whitespace before and after it |
| Strings.TrimIdempotent | src/lib/csv/import.ts:53 | trimming twice is trimming once |
| Strings.Split | src/lib/csv/import.ts:4 | at least one piece, and none holds the separator |
| Strings.SplitJoin | src/lib/csv/import.ts:4 | the pieces joined give the string back, and there is one more piece than separators |
| Strings.NatToStringInjective | src/lib/csv/export.ts:48 | different numbers print differently |
| RunsStore.Merge | src/store/runs.ts:32 | the id, status and text present in the patch overwrite; absent ones keep their value |
| RunsStore.UpdateWhere | src/store/runs.ts:30-34 | the patch is merged into every record with the id; the others, the length and the order are kept |
| RunsStore.PushHistory | src/store/runs.ts:50 | the new run first, then the first 49 older runs in order; length `min(old + 1, 50)` |
| RunsStore.PushAll | src/store/runs.ts:48-51 | after pushes, the history opens with the last fifty runs pushed, newest first |
| RunsStore.Store.constructor | src/store/runs.ts:21-22 | no current run and an empty history |
| RunsStore.Store.SetCurrentRun | src/store/runs.ts:23 | only the current run changes |
| RunsStore.Store.UpdateResponse | src/store/runs.ts:24-37 | no change without a current run; otherwise only its records are updated |
| RunsStore.Store.AddResponse | src/store/runs.ts:38-47 | no change without a current run; otherwise the record is appended |
| RunsStore.Store.AddToHistory | src/store/runs.ts:48-51 | the history is `PushHistory` of the old one, at most fifty runs |
| RunsStore.Store.ClearHistory | src/store/runs.ts:52 | only the history changes, to empty |
| ModelsStore.SeedModelsDisabled | src/store/models.ts:15-63 | six seed models, all disabled at temperature 0.7, none enabled |
| ModelsStore.Merge | src/store/models.ts:76 | the id and `enabled` present in the patch overwrite; an empty patch changes nothing |
| ModelsStore.UpdateWhere | src/store/models.ts:73-78 | the patch is merged into every model with the id; the others, the length and the order are kept |
| ModelsStore.ToggleWhere | src/store/models.ts:83-88 | `enabled` flips on every model with the id and nothing else changes |
| ModelsStore.ToggleTwice | src/store/models.ts:83-88 | toggling twice gives the list back |
| ModelsStore.Filter | src/store/models.ts:81-91 | the kept models pass the test and come from the list |
| ModelsStore.FilterKeepsAll | src/store/models.ts:81-91 | every model that passes is kept |
| ModelsStore.FilterAppend | src/store/models.ts:81-91 | filtering keeps list order |
| ModelsStore.Delete | src/store/models.ts:79-82 | no model with the id remains |
| ModelsStore.AddThenDelete | src/store/models.ts:69-82 | deleting an added model's id removes it along with every older model of that id |
| ModelsStore.Enabled | src/store/models.ts:89 | only enabled models of the list |
| ModelsStore.ByProvider | src/store/models.ts:90-91 | only the provider's models of the list |
| ModelsStore.Store.constructor | src/store/models.ts:68 | the seed list |
| ModelsStore.Store.AddModel | src/store/models.ts:69-72 | the model is appended, with no check of its id |
| ModelsStore.Store.UpdateModel | src/store/models.ts:73-78 | the list becomes `UpdateWhere` of the old one |
| ModelsStore.Store.DeleteModel | src/store/models.ts:79-82 | the list becomes `Delete` of the old one |
| ModelsStore.Store.ToggleModel | src/store/models.ts:83-88 | the list becomes `ToggleWhere` of the old one |
| ModelsStore.Store.GetEnabledModels | src/store/models.ts:89 | the enabled models, in list order |
| ModelsStore.Store.GetModelsByProvider | src/store/models.ts:90-91 | the provider's models, in list order |
| ProvidersStore.Initial | src/store/providers.ts:14-27 | all four providers, each with no key and the direct transport |
| ProvidersStore.Merge | src/store/providers.ts:32 | the fields present in the partial overwrite; the absent ones keep their value |
| ProvidersStore.SetSettings | src/store/providers.ts:28-34 | same providers; the named one merged; the others unchanged |
| ProvidersStore.SetSettingsIdempotent | src/store/providers.ts:32 | the same partial applied twice is applied once |
| ProvidersStore.SetSettingsCommute | src/store/providers.ts:28-34 | settings for two different providers do not interfere |
| ProvidersStore.Store.constructor | src/store/providers.ts:21-27 | every provider has its default entry |
| ProvidersStore.Store.SetProviderSettings | src/store/providers.ts:28-34 | the map becomes `SetSettings` of the old one, and every provider keeps an entry |
| ProvidersStore.Store.GetProviderSettings | src/store/providers.ts:35 | the entry stored for the provider |
| ExpertsStore.Store.constructor | src/store/experts.ts:17-18 | an empty list and no classifications |
| ExpertsStore.Store.SetExpertResponses | src/store/experts.ts:19 | the list is replaced; the classifications stay |
| ExpertsStore.Store.AddExpertResponse | src/store/experts.ts:20-23 | the answer is appended |
| ExpertsStore.Store.SetClassification | src/store/experts.ts:24-30 | one key is inserted or overwritten; every other key is kept |
| ExpertsStore.Store.ClearExpertResponses | src/store/experts.ts:31 | both the list and the classifications are emptied |

## Left out

- The React pages and components, `src/store/ui.ts`, and the relay routes under `src/app/api/relay` are UI and network code, and are not part of this model.
- `src/lib/adapters/index.ts` and the DeepSeek adapter are left out. The dispatch table only forwards calls, and the DeepSeek adapter's source is not part of this model.
- `downloadCSV`, `exportRunToJSON` and `downloadJSON` (`src/lib/csv/export.ts:70-106`) are left out: they are DOM and `JSON.stringify` code.
- Persistence of the stores (zustand `persist`, local storage) is left out. Each store is a class whose fields the actions reassign.
- `ExpertResponse` and `ResponseClassification` are not defined in `src/lib/types.ts`:
  - `ExpertResponse` is the minimal record the importer builds (id, text, optional metadata);
  - the experts store is generic in its classification type.
- `fetch`, `TextDecoder`, `JSON.parse`, `performance.now`, `Date`, `crypto.randomUUID` and `Math.sqrt` are parameters, not modelled.
- Floating-point arithmetic is not modelled; numbers are exact. Only the zero cases of the similarity score are proved.
- The engine's `onUpdate` callback, and `AbortController` with the abort itself, are left out:
  - a request that `cancelRun` aborts before its response arrives makes `fetch` reject with an `AbortError`; this is modelled by the error event (`Request was canceled`) that the adapter then reports;
  - a request aborted after its response arrived makes the pending read fail. The parser catches that failure (`src/lib/sse/parse.ts:42-46`) and calls `onDone`, so the adapter reports `onComplete` with the partial text (`Streaming.AbortMidStreamCompletes`). In the engine that completion is an ordinary `OnComplete`: it finds no record with its response id in the new run, and it still removes the shared job id from the running set;
  - concurrency between callbacks is not modelled, each event being one method call.
- Exceptions thrown by the handlers themselves are not modelled. The `catch` of `executeJob` (`src/lib/runEngine/index.ts:190-195`) is therefore not modelled either.
- A `console.warn` for an unknown model id is left out; the id is skipped.
- RunEngine.ChunksAccumulate: `charCount` is the length of the text in characters (code points). JavaScript's `.length` (`src/lib/runEngine/index.ts:162`) counts UTF-16 code units, so a character outside the Basic Multilingual Plane, such as an emoji, counts 2 there and 1 here.
- RunEngine.CompleteIntoFinishes: the same as `RunEngine.ChunksAccumulate`: `charCount` (`src/lib/runEngine/index.ts:178`) counts code points, not UTF-16 code units.
- Strings.Lower: lowercases the ASCII letters only. JavaScript's `toLowerCase` maps every cased letter. Most non-ASCII letters are dropped afterwards by `[^\w\s]` (`src/lib/similarity/text.ts:7`) either way. Two are not: KELVIN SIGN (U+212A) lowercases to `k`, and LATIN CAPITAL LETTER I WITH DOT ABOVE (U+0130) to `i` followed by a combining dot. The source keeps that `k` or `i`; the model drops the character.
- Strings.LowerString: ASCII-only, as `Strings.Lower`.
- AnthropicAdapter.UsageTokens: a usage object missing one of its counts yields `NaN` in the source; here it yields no count.
- Streaming.StreamedCalls: both `onComplete` calls after an end marker carry the same latency. In the source, the second call reads the clock again.
- RunsStore.Merge: states only the id, status and text fields. The other sixteen are merged the same way in its body.
- ModelsStore.Merge: states only the id and `enabled` fields. The other fields are merged the same way in its body.
- ModelsStore.Delete: states only that no model with the id remains. That every other model is kept, in order, follows from `ModelsStore.FilterKeepsAll` and `ModelsStore.FilterAppend`.
- RunStats.StatsOf: states the total and the bound on the counts. The counts and average themselves are `CountStatus` and `AverageLatency`, whose properties are proved separately.
- The export header line holds twenty names (`src/lib/csv/export.ts:14-35`). That it reads back as twenty fields is not proved; only the data lines are.
- Under the parser as written, only `content_block_delta` events reach the Anthropic adapter. Its token count is therefore set only when such an event carries usage. The model reproduces this without stating it separately.

## Findings

| source | as written | input that shows it | evidently intended | confidence | as-written member | corrected member |
|---|---|---|---|---|---|---|
| src/lib/sse/parse.ts:28-31, 42-46 (and 92-95, 100-102) | on an end marker the parser calls `onDone()` and returns, and `finally` calls `onDone()` again, so each adapter reports `onComplete` twice | a body whose only read is `data: [DONE]` followed by a blank line | `onDone` once per stream | not executed | Sse.DoneTwiceOnEndMarker | Sse.FixedDoneOnce |
| src/lib/runEngine/index.ts:185-187, 198-218 with 249-256 | `cancelRun` aborts the running requests; each request aborted before its response arrived reports the abort through `onError` after `startRun` has built the new run; `handleJobError` then fails the new run's first record for the same model and loop, and removes the shared id `<modelId>-<i>` from the running set | start a run with one model and one loop, start it again while its request is out, then let the first request's abort error (its response not yet arrived) arrive | an error from a replaced run's job changes nothing | not executed | RunEngine.ReplacedJobFailsNewRecord | RunEngine.Engine.OnErrorCurrentOnly |

About the parser row: the adapters model the parser as written, so `Streaming.StreamedCalls` shows the double completion. `Streaming.FixedParserCompletesOnce` proves that the corrected parser completes once.
