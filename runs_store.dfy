/**
 * `src/store/runs.ts`: the run being shown and the history of finished runs.
 * Each action replaces a field of the store with a new value; persistence to
 * local storage is left out.
 */
module RunsStore {
  import opened Wrappers
  import opened Types

  const HistoryLimit := 50

  /**
   * A `Partial<ResponseRecord>`: `Some(v)` is a key that is present, with the
   * value `v` (for an optional field `v` may itself be `None`, an explicit
   * `undefined`, which the spread copies too).
   */
  datatype ResponsePatch = ResponsePatch(
    id: Option<string>,
    runId: Option<string>,
    service: Option<ProviderName>,
    modelId: Option<string>,
    modelLabel: Option<string>,
    loopIndex: Option<int>,
    status: Option<Status>,
    text: Option<string>,
    startedAt: Option<Option<string>>,
    completedAt: Option<Option<string>>,
    latencyMs: Option<Option<int>>,
    inputTokens: Option<Option<int>>,
    outputTokens: Option<Option<int>>,
    totalTokens: Option<Option<int>>,
    charCount: Option<Option<int>>,
    finishReason: Option<Option<string>>,
    truncated: Option<Option<bool>>,
    errorMessage: Option<Option<string>>,
    retryCount: Option<int>)

  /** A patch with no keys. */
  const NoChanges := ResponsePatch(None, None, None, None, None, None, None, None, None, None, None,
                                   None, None, None, None, None, None, None, None)

  /** `{ ...response, ...updates }`: every key present in the patch overwrites the record's field. */
  function Merge(r: ResponseRecord, p: ResponsePatch): (m: ResponseRecord)
    ensures p.id.None? ==> m.id == r.id
    ensures p.id.Some? ==> m.id == p.id.value
    ensures p.status.None? ==> m.status == r.status
    ensures p.status.Some? ==> m.status == p.status.value
    ensures p.text.None? ==> m.text == r.text
    ensures p.text.Some? ==> m.text == p.text.value
  {
    ResponseRecord(
      p.id.GetOr(r.id),
      p.runId.GetOr(r.runId),
      p.service.GetOr(r.service),
      p.modelId.GetOr(r.modelId),
      p.modelLabel.GetOr(r.modelLabel),
      p.loopIndex.GetOr(r.loopIndex),
      p.status.GetOr(r.status),
      p.text.GetOr(r.text),
      p.startedAt.GetOr(r.startedAt),
      p.completedAt.GetOr(r.completedAt),
      p.latencyMs.GetOr(r.latencyMs),
      p.inputTokens.GetOr(r.inputTokens),
      p.outputTokens.GetOr(r.outputTokens),
      p.totalTokens.GetOr(r.totalTokens),
      p.charCount.GetOr(r.charCount),
      p.finishReason.GetOr(r.finishReason),
      p.truncated.GetOr(r.truncated),
      p.errorMessage.GetOr(r.errorMessage),
      p.retryCount.GetOr(r.retryCount))
  }

  /** Merging the same patch twice is merging it once. */
  lemma MergeIdempotent(r: ResponseRecord, p: ResponsePatch)
    ensures Merge(Merge(r, p), p) == Merge(r, p)
  {
  }

  /** A patch without keys changes nothing. */
  lemma MergeNothing(r: ResponseRecord)
    ensures Merge(r, NoChanges) == r
  {
  }

  /** Lines 30-34: the patch merged into every record with the id; the others, the length and the order kept. */
  function UpdateWhere(responses: seq<ResponseRecord>, responseId: string, updates: ResponsePatch): (r: seq<ResponseRecord>)
    ensures |r| == |responses|
    ensures forall k :: 0 <= k < |responses| ==>
      r[k] == if responses[k].id == responseId then Merge(responses[k], updates) else responses[k]
  {
    if responses == [] then []
    else
      UpdateWhere(responses[..|responses| - 1], responseId, updates)
        + [if responses[|responses| - 1].id == responseId then Merge(responses[|responses| - 1], updates) else responses[|responses| - 1]]
  }

  /** Line 50: the new run first, then at most 49 of the older ones, newest first. */
  function PushHistory(history: seq<Run>, run: Run): (h: seq<Run>)
    ensures |h| == if |history| + 1 < HistoryLimit then |history| + 1 else HistoryLimit
    ensures h[0] == run && h[1..] == history[..|h| - 1]
  {
    [run] + history[..if |history| < HistoryLimit - 1 then |history| else HistoryLimit - 1]
  }

  /** However long the history was, one push leaves at most fifty runs. */
  lemma PushHistoryBounded(history: seq<Run>, run: Run)
    ensures |PushHistory(history, run)| <= HistoryLimit
  {
  }

  /**
   * Pushing runs one after another keeps the newest first: after pushing `runs`
   * in order, the history opens with the last fifty of them, latest first.
   */
  lemma {:induction false} PushAll(history: seq<Run>, runs: seq<Run>, k: nat)
    requires k < |runs| && k < HistoryLimit
    ensures |PushSeq(history, runs)| > k && PushSeq(history, runs)[k] == runs[|runs| - 1 - k]
  {
    var init := runs[..|runs| - 1];
    var before := PushSeq(history, init);
    assert PushSeq(history, runs) == PushHistory(before, runs[|runs| - 1]);
    if k > 0 {
      PushAll(history, init, k - 1);
      assert PushSeq(history, runs)[k] == PushSeq(history, runs)[1..][k - 1];
    }
  }

  /** The history after pushing each of `runs` in turn. */
  function PushSeq(history: seq<Run>, runs: seq<Run>): seq<Run> {
    if runs == [] then history else PushHistory(PushSeq(history, runs[..|runs| - 1]), runs[|runs| - 1])
  }

  class Store {
    var currentRun: Option<Run>
    var history: seq<Run>

    /** Lines 21-22. */
    constructor ()
      ensures currentRun == None && history == []
    {
      currentRun := None;
      history := [];
    }

    /** Line 23: only the current run changes. */
    method SetCurrentRun(run: Option<Run>)
      modifies this
      ensures currentRun == run && history == old(history)
    {
      currentRun := run;
    }

    /** Lines 24-37: without a current run nothing changes; otherwise only its records do. */
    method UpdateResponse(responseId: string, updates: ResponsePatch)
      modifies this
      ensures old(currentRun).None? ==> currentRun == old(currentRun)
      ensures old(currentRun).Some? ==>
        currentRun == Some(old(currentRun).value.(responses := UpdateWhere(old(currentRun).value.responses, responseId, updates)))
      ensures history == old(history)
    {
      if currentRun.None? {
        return;
      }
      var run := currentRun.value;
      currentRun := Some(run.(responses := UpdateWhere(run.responses, responseId, updates)));
    }

    /** Lines 38-47: without a current run nothing changes; otherwise the record is appended to it. */
    method AddResponse(response: ResponseRecord)
      modifies this
      ensures old(currentRun).None? ==> currentRun == old(currentRun)
      ensures old(currentRun).Some? ==>
        currentRun == Some(old(currentRun).value.(responses := old(currentRun).value.responses + [response]))
      ensures history == old(history)
    {
      if currentRun.None? {
        return;
      }
      var run := currentRun.value;
      currentRun := Some(run.(responses := run.responses + [response]));
    }

    /** Lines 48-51: the run goes first; the oldest entries beyond fifty are dropped. */
    method AddToHistory(run: Run)
      modifies this
      ensures history == PushHistory(old(history), run)
      ensures |history| <= HistoryLimit
      ensures currentRun == old(currentRun)
    {
      history := [run] + history[..if |history| < HistoryLimit - 1 then |history| else HistoryLimit - 1];
    }

    /** Line 52: only the history changes. */
    method ClearHistory()
      modifies this
      ensures history == [] && currentRun == old(currentRun)
    {
      history := [];
    }
  }
}
