/**
 * `RunEngineImpl` of `src/lib/runEngine/index.ts`: a class holding the current
 * run, the job list and the set of running job ids, driven by the events a
 * provider adapter reports for each request.
 *
 * `crypto.randomUUID()` is a counter of ids handed out, `new Date()` is the
 * `now` of each event, and the providers store is the `settings` function the
 * caller passes in.
 */
module RunEngine {
  import opened Wrappers
  import opened Strings
  import opened Types
  import opened Jobs
  import opened RunStats

  /** The n-th id `crypto.randomUUID()` hands out. */
  function Uuid(n: nat): string {
    NatToString(n)
  }

  /** The ids handed out before the n-th. */
  ghost function Drawn(n: nat): set<string> {
    set m: nat | m < n :: Uuid(m)
  }

  lemma UuidInjective(m: nat, n: nat)
    ensures Uuid(m) == Uuid(n) ==> m == n
  {
    if Uuid(m) == Uuid(n) {
      NatToStringInjective(m, n);
    }
  }

  /** A new id differs from every id handed out before it. */
  lemma NextUuidFresh(n: nat)
    ensures Uuid(n) !in Drawn(n)
    ensures Drawn(n + 1) == Drawn(n) + {Uuid(n)}
  {
    forall m: nat | m < n
      ensures Uuid(m) != Uuid(n)
    {
      UuidInjective(m, n);
    }
  }

  const NoApiKey := "No API key configured for this provider"

  /** Lines 122-133: the record `executeJob` appends before it sends the request. */
  function Opened(job: Job, runId: string, id: string, now: string): ResponseRecord {
    ResponseRecord(id, runId, job.model.provider, job.model.id, job.model.labelText, job.loopIndex,
      InProgress, "", Some(now), None, None, None, None, None, None, None, None, None, job.retryCount)
  }

  /** Lines 161-162: a chunk of text arrives. */
  function WithChunk(r: ResponseRecord, delta: string): ResponseRecord {
    r.(text := r.text + delta, charCount := Some(|r.text + delta|))
  }

  /** Lines 173-178: the request finished. */
  function Finished(r: ResponseRecord, fullText: string, latencyMs: Option<int>, totalTokens: Option<int>, now: string): ResponseRecord {
    r.(status := Done, text := fullText, completedAt := Some(now), latencyMs := latencyMs,
       totalTokens := totalTokens, charCount := Some(|fullText|))
  }

  /** Lines 206-208: the request failed. */
  function Failed(r: ResponseRecord, error: string, now: string): ResponseRecord {
    r.(status := Error, errorMessage := Some(error), completedAt := Some(now))
  }

  /** `responses.find(p)`, as an index. */
  function FirstWhere(responses: seq<ResponseRecord>, p: ResponseRecord -> bool): (i: Option<nat>)
    ensures i.Some? ==> i.value < |responses| && p(responses[i.value])
    ensures i.Some? ==> forall j :: 0 <= j < i.value ==> !p(responses[j])
    ensures i.None? ==> forall j :: 0 <= j < |responses| ==> !p(responses[j])
  {
    if responses == [] then None
    else if p(responses[0]) then Some(0)
    else
      match FirstWhere(responses[1..], p)
      case None => None
      case Some(j) => Some(j + 1)
  }

  /** The record a callback for `responseId` edits. */
  function WithId(responses: seq<ResponseRecord>, id: string): Option<nat> {
    FirstWhere(responses, (r: ResponseRecord) => r.id == id)
  }

  /** The record `handleJobError` edits: the first for the job's model and loop. */
  function ForJob(responses: seq<ResponseRecord>, job: Job): Option<nat> {
    FirstWhere(responses, (r: ResponseRecord) => r.modelId == job.model.id && r.loopIndex == job.loopIndex)
  }

  /** Lines 156-165 on the record list. */
  function ChunkInto(responses: seq<ResponseRecord>, id: string, delta: string): (r: seq<ResponseRecord>)
    ensures |r| == |responses|
  {
    match WithId(responses, id)
    case None => responses
    case Some(i) => responses[i := WithChunk(responses[i], delta)]
  }

  /** Lines 168-182 on the record list. */
  function CompleteInto(responses: seq<ResponseRecord>, id: string, fullText: string,
                        latencyMs: Option<int>, totalTokens: Option<int>, now: string): (r: seq<ResponseRecord>)
    ensures |r| == |responses|
  {
    match WithId(responses, id)
    case None => responses
    case Some(i) => responses[i := Finished(responses[i], fullText, latencyMs, totalTokens, now)]
  }

  /** Lines 201-209 on the record list: at most one record changes, and only to failed. */
  function FailInto(responses: seq<ResponseRecord>, job: Job, error: string, now: string): (r: seq<ResponseRecord>)
    ensures |r| == |responses|
    ensures forall i :: 0 <= i < |r| ==> r[i] == responses[i] || r[i] == Failed(responses[i], error, now)
  {
    match ForJob(responses, job)
    case None => responses
    case Some(i) => responses[i := Failed(responses[i], error, now)]
  }

  /**
   * The record that fails is the first one for the job's model and loop, whatever
   * its status and whichever attempt it belongs to; no other record changes.
   */
  lemma FailIntoFirstOnly(responses: seq<ResponseRecord>, job: Job, error: string, now: string, i: nat)
    requires i < |responses| && responses[i].modelId == job.model.id && responses[i].loopIndex == job.loopIndex
    requires forall j :: 0 <= j < i ==> !(responses[j].modelId == job.model.id && responses[j].loopIndex == job.loopIndex)
    ensures FailInto(responses, job, error, now) == responses[i := Failed(responses[i], error, now)]
  {
    var p := (r: ResponseRecord) => r.modelId == job.model.id && r.loopIndex == job.loopIndex;
    assert p(responses[i]);
    assert FirstWhere(responses, p) == Some(i);
  }

  /** A list whose ids are pairwise different. */
  predicate DistinctIds(responses: seq<ResponseRecord>) {
    forall i, j :: 0 <= i < j < |responses| ==> responses[i].id != responses[j].id
  }

  /** The record with a unique id is the one its callbacks find. */
  lemma WithIdUnique(responses: seq<ResponseRecord>, i: nat)
    requires DistinctIds(responses) && i < |responses|
    ensures WithId(responses, responses[i].id) == Some(i)
  {
    var id := responses[i].id;
    var p := (r: ResponseRecord) => r.id == id;
    assert p(responses[i]);
    assert FirstWhere(responses, p) == Some(i);
  }

  /** Lines 155-165 for a sequence of chunks, in order. */
  function ApplyChunks(responses: seq<ResponseRecord>, id: string, deltas: seq<string>): (r: seq<ResponseRecord>)
    ensures |r| == |responses|
  {
    if deltas == [] then responses
    else ChunkInto(ApplyChunks(responses, id, deltas[..|deltas| - 1]), id, deltas[|deltas| - 1])
  }

  /** The concatenation of a sequence of chunks. */
  function Concat(deltas: seq<string>): string {
    if deltas == [] then "" else Concat(deltas[..|deltas| - 1]) + deltas[|deltas| - 1]
  }

  /**
   * With distinct ids, the chunks for one record accumulate in it in order and
   * its char count follows its text; every other record is left alone.
   */
  lemma {:induction false} ChunksAccumulate(responses: seq<ResponseRecord>, i: nat, deltas: seq<string>)
    requires DistinctIds(responses) && i < |responses|
    ensures
      var r := ApplyChunks(responses, responses[i].id, deltas);
      r[i] == responses[i].(text := responses[i].text + Concat(deltas),
                            charCount := if deltas == [] then responses[i].charCount else Some(|responses[i].text + Concat(deltas)|)) &&
      forall j :: 0 <= j < |responses| && j != i ==> r[j] == responses[j]
  {
    if deltas != [] {
      var id := responses[i].id;
      var init := deltas[..|deltas| - 1];
      ChunksAccumulate(responses, i, init);
      var before := ApplyChunks(responses, id, init);
      assert forall j :: 0 <= j < |before| ==> before[j].id == responses[j].id;
      WithIdUnique(before, i);
      assert responses[i].text + Concat(init) + deltas[|deltas| - 1] == responses[i].text + Concat(deltas);
    }
  }

  /** A completed record is done, holds the full text and its length, and nothing else changes. */
  lemma CompleteIntoFinishes(responses: seq<ResponseRecord>, i: nat, fullText: string,
                             latencyMs: Option<int>, totalTokens: Option<int>, now: string)
    requires DistinctIds(responses) && i < |responses|
    ensures
      var r := CompleteInto(responses, responses[i].id, fullText, latencyMs, totalTokens, now);
      r[i].status == Done && r[i].text == fullText && r[i].charCount == Some(|fullText|) &&
      r[i].latencyMs == latencyMs && r[i].totalTokens == totalTokens && r[i].id == responses[i].id &&
      forall j :: 0 <= j < |responses| && j != i ==> r[j] == responses[j]
  {
    WithIdUnique(responses, i);
  }

  /**
   * The abort error of a job from a replaced list -- its request aborted
   * before the response arrived -- fails the new run's first record for the
   * same model and loop, whichever job of the new list opened it; no other
   * record changes.
   */
  lemma ReplacedJobFailsNewRecord(responses: seq<ResponseRecord>, replaced: Job, current: Job, i: nat,
                                  runId: string, id: string, now: string, later: string)
    requires replaced.model.id == current.model.id && replaced.loopIndex == current.loopIndex
    requires i < |responses| && responses[i] == Opened(current, runId, id, now)
    requires forall j :: 0 <= j < i ==> !(responses[j].modelId == current.model.id && responses[j].loopIndex == current.loopIndex)
    ensures
      var r := FailInto(responses, replaced, "Request was canceled", later);
      |r| == |responses| && r[i].id == id && r[i].runId == runId && r[i].status == Error &&
      r[i].errorMessage == Some("Request was canceled") &&
      forall j :: 0 <= j < |responses| && j != i ==> r[j] == responses[j]
  {
    FailIntoFirstOnly(responses, replaced, "Request was canceled", later, i);
  }

  /** `startRun`'s loops of lines 51-67. */
  method BuildJobList(ids: seq<string>, models: seq<ModelSettings>, loopCount: int) returns (jobs: seq<Job>)
    ensures jobs == BuildJobs(ids, models, loopCount)
  {
    jobs := [];
    for t := 0 to |ids|
      invariant jobs == BuildJobs(ids[..t], models, loopCount)
    {
      var model := FindModel(models, ids[t]);
      BuildJobsAppend(ids[..t], ids[t], models, loopCount);
      assert ids[..t + 1] == ids[..t] + [ids[t]];
      if model.None? {
        continue;
      }
      jobs := PushLoopJobs(jobs, ids[t], model.value, loopCount);
    }
    assert ids[..|ids|] == ids;
  }

  /** Lines 58-66: one job per loop index for the model found under `modelId`. */
  method PushLoopJobs(jobs: seq<Job>, modelId: string, model: ModelSettings, loopCount: int) returns (jobs': seq<Job>)
    requires model.id == modelId
    ensures jobs' == jobs + LoopJobs(model, loopCount)
  {
    jobs' := jobs;
    var i := 0;
    while i < loopCount
      invariant 0 <= i && (if loopCount >= 0 then i <= loopCount else i == 0)
      invariant jobs' == jobs + LoopJobs(model, i)
    {
      jobs' := jobs' + [Job(modelId + "-" + NatToString(i), model, i, Queued, 0)];
      i := i + 1;
    }
    assert LoopJobs(model, i) == LoopJobs(model, loopCount);
  }

  /** What `getStatus` reports. */
  datatype EngineStatus = EngineStatus(isRunning: bool, completed: int, total: int, errors: int)

  /** A request that went out: the job's position in the list and its record's id. */
  datatype Started = Started(job: nat, responseId: string)

  /**
   * The job object a callback closed over: one of the current list, or one from
   * a list that a later `startRun` replaced.
   */
  datatype JobRef = Current(index: nat) | Replaced(job: Job)

  /** A record is as expected, or was then failed for a missing API key. */
  predicate FailedOrSame(expected: ResponseRecord, actual: ResponseRecord, now: string) {
    actual == expected || actual == Failed(expected, NoApiKey, now)
  }

  /** `after` is `before` with records appended, some records failed for a missing key. */
  predicate Extends(before: seq<ResponseRecord>, after: seq<ResponseRecord>, now: string, appended: nat) {
    |after| == |before| + appended &&
    forall i :: 0 <= i < |before| ==> FailedOrSame(before[i], after[i], now)
  }

  /** The statistics are those of an earlier state of the list, which since has only grown. */
  ghost predicate StatsOfPrefix(responses: seq<ResponseRecord>, stats: Stats) {
    exists n :: 0 <= n <= |responses| && stats == StatsOf(responses[..n])
  }

  /** Job k left the queue on the way from `before` to `after`. */
  predicate Taken(before: seq<Job>, after: seq<Job>, k: nat)
    requires k < |before| && k < |after|
  {
    before[k].status == Queued && after[k].status != Queued
  }

  /**
   * Each request in `started` is for a job that was queued in `before` and
   * runs in `jobs`, whose provider has an API key, and its record, the
   * (base + s)-th, is the one `executeJob` opened or that one failed for a
   * missing key.
   */
  predicate RequestsOpened(before: seq<Job>, jobs: seq<Job>, base: nat, responses: seq<ResponseRecord>, started: seq<Started>,
                           runId: string, settings: ProviderName -> ProviderSettings, now: string)
  {
    forall s :: 0 <= s < |started| ==>
      var k := started[s].job;
      k < |jobs| && k < |before| && before[k].status == Queued && jobs[k] == before[k].(status := InProgress) &&
      settings(jobs[k].model.provider).apiKey != "" && base + s < |responses| &&
      FailedOrSame(Opened(jobs[k], runId, started[s].responseId, now), responses[base + s], now)
  }

  /** No job has two requests out. */
  predicate DistinctJobs(started: seq<Started>) {
    forall s, t :: 0 <= s < t < |started| ==> started[s].job != started[t].job
  }

  /**
   * Every job taken from the queue on the way from `before` to `jobs` failed
   * for a missing API key or has a request in `started`.
   */
  predicate Decided(before: seq<Job>, jobs: seq<Job>, started: seq<Started>, settings: ProviderName -> ProviderSettings)
    requires |before| == |jobs|
  {
    forall k :: 0 <= k < |jobs| && Taken(before, jobs, k) ==>
      (jobs[k].status == Error && settings(jobs[k].model.provider).apiKey == "") ||
      exists s :: 0 <= s < |started| && started[s].job == k
  }

  lemma FailIntoKeeps(expected: seq<ResponseRecord>, responses: seq<ResponseRecord>, job: Job, now: string)
    requires |responses| == |expected|
    requires forall i :: 0 <= i < |expected| ==> FailedOrSame(expected[i], responses[i], now)
    ensures forall i :: 0 <= i < |expected| ==> FailedOrSame(expected[i], FailInto(responses, job, NoApiKey, now)[i], now)
  {
  }

  /**
   * Each request that went out belongs to a job that was queued and now runs,
   * whose provider has an API key, and whose record is the one expected.
   */
  ghost predicate Launched(jobs0: seq<Job>, jobs: seq<Job>, expected: seq<ResponseRecord>, base: nat,
                           started: seq<Started>, runId: string, settings: ProviderName -> ProviderSettings, now: string)
  {
    |jobs| == |jobs0| && |expected| == base + |started| &&
    DistinctJobs(started) &&
    forall s :: 0 <= s < |started| ==>
      var k := started[s].job;
      k < |jobs| && jobs0[k].status == Queued && jobs[k] == jobs0[k].(status := InProgress) &&
      settings(jobs[k].model.provider).apiKey != "" &&
      expected[base + s] == Opened(jobs[k], runId, started[s].responseId, now)
  }

  /** Changing a job no request went out for leaves the requests already out as they were. */
  lemma LaunchedKept(jobs0: seq<Job>, jobs: seq<Job>, expected: seq<ResponseRecord>, base: nat,
                     started: seq<Started>, runId: string, settings: ProviderName -> ProviderSettings, now: string,
                     k: nat, job: Job)
    requires Launched(jobs0, jobs, expected, base, started, runId, settings, now)
    requires k < |jobs| && forall s :: 0 <= s < |started| ==> started[s].job != k
    ensures Launched(jobs0, jobs[k := job], expected, base, started, runId, settings, now)
  {
  }

  /** No request has gone out for a job that is still queued. */
  lemma QueuedNotLaunched(jobs0: seq<Job>, jobs: seq<Job>, expected: seq<ResponseRecord>, base: nat,
                          started: seq<Started>, runId: string, settings: ProviderName -> ProviderSettings, now: string, k: nat)
    requires Launched(jobs0, jobs, expected, base, started, runId, settings, now)
    requires k < |jobs| && jobs[k].status == Queued
    ensures forall s :: 0 <= s < |started| ==> started[s].job != k
  {
    forall s | 0 <= s < |started|
      ensures started[s].job != k
    {
      assert jobs[started[s].job].status == InProgress;
    }
  }

  /** A request for a job just admitted with a key joins the requests that went out. */
  lemma LaunchedGrows(jobs0: seq<Job>, jobs: seq<Job>, expected: seq<ResponseRecord>, base: nat,
                      started: seq<Started>, runId: string, settings: ProviderName -> ProviderSettings, now: string,
                      st: Started)
    requires Launched(jobs0, jobs, expected, base, started, runId, settings, now)
    requires st.job < |jobs| && jobs0[st.job].status == Queued && jobs[st.job] == jobs0[st.job].(status := InProgress)
    requires settings(jobs[st.job].model.provider).apiKey != ""
    requires forall s :: 0 <= s < |started| ==> started[s].job != st.job
    ensures Launched(jobs0, jobs, expected + [Opened(jobs[st.job], runId, st.responseId, now)], base, started + [st], runId, settings, now)
  {
  }

  /**
   * What `processJobs` keeps true of the job list: admitted from where it
   * started, the requests that went out are the ones expected, and a job it
   * failed had no API key.
   */
  ghost predicate JobsTrack(jobs0: seq<Job>, jobs: seq<Job>, expected: seq<ResponseRecord>, base: nat,
                            started: seq<Started>, runId: string, settings: ProviderName -> ProviderSettings, now: string)
  {
    Admitted(jobs0, jobs) &&
    Launched(jobs0, jobs, expected, base, started, runId, settings, now) &&
    (forall k :: 0 <= k < |jobs| && jobs0[k].status == Queued && jobs[k].status == Error ==>
      settings(jobs[k].model.provider).apiKey == "")
  }

  /** Admitting the first queued job: no request went out for it, and the list stays tracked. */
  lemma AdmitKeepsTrack(jobs0: seq<Job>, jobs: seq<Job>, expected: seq<ResponseRecord>, base: nat,
                        started: seq<Started>, runId: string, settings: ProviderName -> ProviderSettings, now: string)
    requires JobsTrack(jobs0, jobs, expected, base, started, runId, settings, now) && HasQueued(jobs)
    ensures
      var k := FirstQueued(jobs);
      var next := jobs[k := jobs[k].(status := InProgress)];
      JobsTrack(jobs0, next, expected, base, started, runId, settings, now) &&
      jobs0[k].status == Queued && next[k] == jobs0[k].(status := InProgress) &&
      (forall s :: 0 <= s < |started| ==> started[s].job != k) &&
      QueuedAt(next) == QueuedAt(jobs) - {k}
  {
    var k := FirstQueued(jobs);
    AdmitFirst(jobs0, jobs, InProgress);
    QueuedNotLaunched(jobs0, jobs, expected, base, started, runId, settings, now, k);
    LaunchedKept(jobs0, jobs, expected, base, started, runId, settings, now, k, jobs[k].(status := InProgress));
  }

  /** A job just admitted that fails for want of an API key leaves the list tracked and no more jobs queued. */
  lemma FailKeepsTrack(jobs0: seq<Job>, jobs: seq<Job>, expected: seq<ResponseRecord>, base: nat,
                       started: seq<Started>, runId: string, settings: ProviderName -> ProviderSettings, now: string, k: nat)
    requires JobsTrack(jobs0, jobs, expected, base, started, runId, settings, now)
    requires k < |jobs| && jobs0[k].status == Queued && jobs[k] == jobs0[k].(status := InProgress)
    requires forall s :: 0 <= s < |started| ==> started[s].job != k
    requires settings(jobs[k].model.provider).apiKey == ""
    ensures
      var next := jobs[k := jobs[k].(status := Error)];
      JobsTrack(jobs0, next, expected, base, started, runId, settings, now) && QueuedAt(next) == QueuedAt(jobs)
  {
    AdmittedFail(jobs0, jobs, k);
    LaunchedKept(jobs0, jobs, expected, base, started, runId, settings, now, k, jobs0[k].(status := Error));
    assert jobs[k].(status := Error) == jobs0[k].(status := Error);
  }

  /**
   * The running set once the first n jobs have gone from `before` to `after`,
   * taken in list order as `find` takes them (lines 97-99): a taken job that
   * failed at once has left the set again (lines 217-218), any other taken job
   * has joined it.
   */
  function RunningAfter(running: set<string>, before: seq<Job>, after: seq<Job>, n: nat): set<string>
    requires n <= |before| && n <= |after|
  {
    if n == 0 then running
    else
      var r := RunningAfter(running, before, after, n - 1);
      if !Taken(before, after, n - 1) then r
      else if after[n - 1].status == Error then r - {after[n - 1].id}
      else r + {after[n - 1].id}
  }

  /**
   * With distinct job ids, an id runs afterwards iff it ran before and no job
   * with it failed at once, or a job with it was taken and did not fail.
   */
  lemma {:induction false} RunningAfterIds(running: set<string>, before: seq<Job>, after: seq<Job>, n: nat, x: string)
    requires n <= |before| && n <= |after|
    requires forall i, j :: 0 <= i < j < n ==> after[i].id != after[j].id
    ensures x in RunningAfter(running, before, after, n) <==>
      (x in running && forall k :: 0 <= k < n && Taken(before, after, k) && after[k].id == x ==> after[k].status != Error) ||
      (exists k :: 0 <= k < n && Taken(before, after, k) && after[k].id == x && after[k].status != Error)
  {
    if n > 0 {
      RunningAfterIds(running, before, after, n - 1, x);
    }
  }

  /** Lists that agree on their first n jobs have the same running set after them. */
  lemma {:induction false} RunningAfterAgrees(running: set<string>, before: seq<Job>, a: seq<Job>, b: seq<Job>, n: nat)
    requires n <= |before| && n <= |a| && n <= |b|
    requires forall i :: 0 <= i < n ==> a[i] == b[i]
    ensures RunningAfter(running, before, a, n) == RunningAfter(running, before, b, n)
  {
    if n > 0 {
      RunningAfterAgrees(running, before, a, b, n - 1);
    }
  }

  /** Jobs that never left the queue leave the running set alone. */
  lemma {:induction false} RunningAfterUntaken(running: set<string>, before: seq<Job>, after: seq<Job>, m: nat, n: nat)
    requires m <= n <= |before| && n <= |after|
    requires forall i :: m <= i < n ==> after[i] == before[i]
    ensures RunningAfter(running, before, after, n) == RunningAfter(running, before, after, m)
  {
    if m < n {
      RunningAfterUntaken(running, before, after, m, n - 1);
    }
  }

  /**
   * A new status for a queued job k, when no later job has left the queue,
   * moves the running set by that job's id alone.
   */
  lemma RunningAfterStep(running: set<string>, before: seq<Job>, after: seq<Job>, k: nat, s: Status)
    requires |after| == |before| && k < |after| && before[k].status == Queued
    requires forall b :: k < b < |after| ==> after[b] == before[b]
    ensures
      var next := after[k := after[k].(status := s)];
      var r := RunningAfter(running, before, after, k);
      RunningAfter(running, before, after, |after|) == RunningAfter(running, before, after, k + 1) &&
      RunningAfter(running, before, next, |next|) ==
        (if s == Queued then r else if s == Error then r - {after[k].id} else r + {after[k].id})
  {
    var next := after[k := after[k].(status := s)];
    RunningAfterUntaken(running, before, after, k + 1, |after|);
    RunningAfterUntaken(running, before, next, k + 1, |next|);
    RunningAfterAgrees(running, before, after, next, k);
  }

  /**
   * Job k was just taken from the queue: it runs, no request went out for it
   * yet, and no later job has left the queue.
   */
  ghost predicate PendingAt(jobs0: seq<Job>, jobs: seq<Job>, started: seq<Started>, k: nat) {
    |jobs| == |jobs0| && k < |jobs| && jobs0[k].status == Queued && jobs[k] == jobs0[k].(status := InProgress) &&
    (forall s :: 0 <= s < |started| ==> started[s].job != k) &&
    forall b :: k < b < |jobs| ==> jobs[b] == jobs0[b]
  }

  /** Every job taken from the queue, but the pending one, has failed or has a request out. */
  ghost predicate Covered(jobs0: seq<Job>, jobs: seq<Job>, started: seq<Started>, pending: int) {
    |jobs| == |jobs0| &&
    forall k :: 0 <= k < |jobs| && k != pending && Taken(jobs0, jobs, k) ==>
      jobs[k].status == Error || exists s :: 0 <= s < |started| && started[s].job == k
  }

  lemma CoveredAdmit(jobs0: seq<Job>, jobs: seq<Job>, started: seq<Started>, k: nat)
    requires Covered(jobs0, jobs, started, -1) && k < |jobs|
    ensures Covered(jobs0, jobs[k := jobs[k].(status := InProgress)], started, k)
  {
    var next := jobs[k := jobs[k].(status := InProgress)];
    forall j | 0 <= j < |next| && j != k && Taken(jobs0, next, j)
      ensures next[j].status == Error || exists s :: 0 <= s < |started| && started[s].job == j
    {
      assert Taken(jobs0, jobs, j);
    }
  }

  lemma CoveredFail(jobs0: seq<Job>, jobs: seq<Job>, started: seq<Started>, k: nat)
    requires Covered(jobs0, jobs, started, k) && k < |jobs|
    ensures Covered(jobs0, jobs[k := jobs[k].(status := Error)], started, -1)
  {
    var next := jobs[k := jobs[k].(status := Error)];
    forall j | 0 <= j < |next| && Taken(jobs0, next, j)
      ensures next[j].status == Error || exists s :: 0 <= s < |started| && started[s].job == j
    {
      if j != k {
        assert Taken(jobs0, jobs, j);
      }
    }
  }

  lemma CoveredLaunch(jobs0: seq<Job>, jobs: seq<Job>, started: seq<Started>, st: Started)
    requires Covered(jobs0, jobs, started, st.job)
    ensures Covered(jobs0, jobs, started + [st], -1)
  {
    var started' := started + [st];
    forall j | 0 <= j < |jobs| && Taken(jobs0, jobs, j)
      ensures jobs[j].status == Error || exists s :: 0 <= s < |started'| && started'[s].job == j
    {
      if j == st.job {
        assert started'[|started|].job == j;
      } else if jobs[j].status != Error {
        var s :| 0 <= s < |started| && started[s].job == j;
        assert started'[s].job == j;
      }
    }
  }

  /** `Engine.Valid` over the engine's fields. */
  ghost predicate ValidState(currentRun: Option<Run>, running: set<string>, concurrency: int, draws: nat) {
    (running == {} || |running| <= concurrency) &&
    (currentRun.Some? ==>
      DistinctIds(currentRun.value.responses) &&
      forall i :: 0 <= i < |currentRun.value.responses| ==> currentRun.value.responses[i].id in Drawn(draws))
  }

  /** Failing a record keeps every id, so the state stays valid. */
  lemma FailIntoValid(run: Run, running: set<string>, concurrency: int, draws: nat, job: Job, error: string, now: string)
    requires ValidState(Some(run), running, concurrency, draws)
    ensures
      var failed := FailInto(run.responses, job, error, now);
      ValidState(Some(run.(responses := failed, stats := StatsOf(failed))), running, concurrency, draws)
  {
    var failed := FailInto(run.responses, job, error, now);
    assert forall i :: 0 <= i < |failed| ==> failed[i].id == run.responses[i].id;
  }

  /**
   * `Engine.Processing` over the engine's fields: what `processJobs` keeps true
   * from the state (`jobs0`, `run0`, `running0`) it started in, with `pending`
   * the job just taken whose request has not been decided yet (or -1).
   */
  ghost predicate ProcessingOf(currentRun: Option<Run>, jobs: seq<Job>, running: set<string>, concurrency: int, draws: nat,
                               jobs0: seq<Job>, run0: Option<Run>, running0: set<string>, expected: seq<ResponseRecord>,
                               started: seq<Started>, statsAt: int, pending: int,
                               settings: ProviderName -> ProviderSettings, now: string)
  {
    var responses0 := if run0.Some? then run0.value.responses else [];
    var responses := if currentRun.Some? then currentRun.value.responses else [];
    var runId := if currentRun.Some? then currentRun.value.id else "";
    ValidState(currentRun, running, concurrency, draws) &&
    currentRun.Some? == run0.Some? &&
    (currentRun.Some? ==> currentRun.value.id == run0.value.id && currentRun.value.config == run0.value.config) &&
    |responses0| <= |expected| == |responses| && expected[..|responses0|] == responses0 &&
    (forall i :: 0 <= i < |expected| ==> FailedOrSame(expected[i], responses[i], now)) &&
    JobsTrack(jobs0, jobs, expected, |responses0|, started, runId, settings, now) &&
    running == RunningAfter(running0, jobs0, jobs, |jobs|) &&
    (0 <= pending ==> PendingAt(jobs0, jobs, started, pending)) &&
    (currentRun.Some? ==> Covered(jobs0, jobs, started, pending)) &&
    (statsAt < 0 ==> currentRun.Some? ==> currentRun.value.stats == run0.value.stats) &&
    (0 <= statsAt ==> currentRun.Some? && statsAt <= |responses| && currentRun.value.stats == StatsOf(responses[..statsAt]))
  }

  /** At the start of `processJobs` nothing has been taken yet. */
  lemma ProcessingStarts(currentRun: Option<Run>, jobs: seq<Job>, running: set<string>, concurrency: int, draws: nat,
                         settings: ProviderName -> ProviderSettings, now: string)
    requires ValidState(currentRun, running, concurrency, draws)
    ensures
      var responses := if currentRun.Some? then currentRun.value.responses else [];
      ProcessingOf(currentRun, jobs, running, concurrency, draws, jobs, currentRun, running, responses, [], -1, -1, settings, now)
  {
    var responses := if currentRun.Some? then currentRun.value.responses else [];
    AdmittedReflexive(jobs);
    assert responses[..|responses|] == responses;
    RunningAfterUntaken(running, jobs, jobs, 0, |jobs|);
  }

  /**
   * Taking the first queued job while the running set has room keeps the loop
   * invariant of `processJobs`, with that job pending.
   */
  lemma AdmitKeepsProcessing(currentRun: Option<Run>, jobs: seq<Job>, running: set<string>, concurrency: int, draws: nat,
                             jobs0: seq<Job>, run0: Option<Run>, running0: set<string>, expected: seq<ResponseRecord>,
                             started: seq<Started>, statsAt: int, settings: ProviderName -> ProviderSettings, now: string)
    requires ProcessingOf(currentRun, jobs, running, concurrency, draws, jobs0, run0, running0, expected, started, statsAt, -1, settings, now)
    requires HasQueued(jobs) && |running| < concurrency
    ensures
      var k := FirstQueued(jobs);
      var next := jobs[k := jobs[k].(status := InProgress)];
      ProcessingOf(currentRun, next, running + {jobs[k].id}, concurrency, draws, jobs0, run0, running0, expected, started, statsAt, k, settings, now) &&
      |QueuedAt(next)| < |QueuedAt(jobs)|
  {
    var k := FirstQueued(jobs);
    var next := jobs[k := jobs[k].(status := InProgress)];
    var responses0 := if run0.Some? then run0.value.responses else [];
    var runId := if currentRun.Some? then currentRun.value.id else "";
    AdmitKeepsTrack(jobs0, jobs, expected, |responses0|, started, runId, settings, now);
    AdmitKeepsRunning(running0, jobs0, jobs);
    assert PendingAt(jobs0, next, started, k);
    if currentRun.Some? {
      CoveredAdmit(jobs0, jobs, started, k);
    }
    assert k in QueuedAt(jobs);
    assert |running + {jobs[k].id}| <= |running| + 1;
  }

  /** The first queued job joins the running set, and no job after it has left the queue. */
  lemma AdmitKeepsRunning(running0: set<string>, jobs0: seq<Job>, jobs: seq<Job>)
    requires Admitted(jobs0, jobs) && HasQueued(jobs)
    ensures
      var k := FirstQueued(jobs);
      var next := jobs[k := jobs[k].(status := InProgress)];
      RunningAfter(running0, jobs0, next, |next|) == RunningAfter(running0, jobs0, jobs, |jobs|) + {jobs[k].id} &&
      forall b :: k < b < |jobs| ==> next[b] == jobs0[b]
  {
    var k := FirstQueued(jobs);
    assert forall b :: k < b < |jobs| ==> jobs[b] == jobs0[b];
    RunningAfterStep(running0, jobs0, jobs, k, InProgress);
  }

  /** The pending job's request going out, under the next id, keeps the loop invariant of `processJobs`. */
  lemma LaunchKeepsProcessing(run: Run, jobs: seq<Job>, running: set<string>, concurrency: int, draws: nat,
                              jobs0: seq<Job>, run0: Option<Run>, running0: set<string>, expected: seq<ResponseRecord>,
                              started: seq<Started>, statsAt: int, k: nat, settings: ProviderName -> ProviderSettings, now: string)
    requires ProcessingOf(Some(run), jobs, running, concurrency, draws, jobs0, run0, running0, expected, started, statsAt, k, settings, now)
    requires k < |jobs| && settings(jobs[k].model.provider).apiKey != ""
    ensures
      var st := Started(k, Uuid(draws));
      var record := Opened(jobs[k], run.id, st.responseId, now);
      ProcessingOf(Some(run.(responses := run.responses + [record])), jobs, running, concurrency, draws + 1,
                   jobs0, run0, running0, expected + [record], started + [st], statsAt, -1, settings, now)
  {
    var responses0 := if run0.Some? then run0.value.responses else [];
    var st := Started(k, Uuid(draws));
    var record := Opened(jobs[k], run.id, st.responseId, now);
    NextUuidFresh(draws);
    LaunchedGrows(jobs0, jobs, expected, |responses0|, started, run.id, settings, now, st);
    CoveredLaunch(jobs0, jobs, started, st);
    assert (expected + [record])[..|responses0|] == expected[..|responses0|];
    if 0 <= statsAt {
      assert (run.responses + [record])[..statsAt] == run.responses[..statsAt];
    }
  }

  /** Without a run no request is decided, and the pending job simply runs. */
  lemma PendingWithoutRun(currentRun: Option<Run>, jobs: seq<Job>, running: set<string>, concurrency: int, draws: nat,
                          jobs0: seq<Job>, run0: Option<Run>, running0: set<string>, expected: seq<ResponseRecord>,
                          started: seq<Started>, statsAt: int, pending: int, settings: ProviderName -> ProviderSettings, now: string)
    requires ProcessingOf(currentRun, jobs, running, concurrency, draws, jobs0, run0, running0, expected, started, statsAt, pending, settings, now)
    requires currentRun.None?
    ensures ProcessingOf(currentRun, jobs, running, concurrency, draws, jobs0, run0, running0, expected, started, statsAt, -1, settings, now)
  {
  }

  /** The pending job failing leaves the running set: the running set follows the list. */
  lemma FailKeepsRunning(running0: set<string>, jobs0: seq<Job>, jobs: seq<Job>, started: seq<Started>, k: nat)
    requires PendingAt(jobs0, jobs, started, k)
    ensures
      RunningAfter(running0, jobs0, jobs, |jobs|) - {jobs[k].id} ==
      RunningAfter(running0, jobs0, jobs[k := jobs[k].(status := Error)], |jobs|)
  {
    RunningAfterStep(running0, jobs0, jobs, k, Error);
  }

  /** What the loop invariant of `processJobs` says once the loop is over, in terms of the state it started from. */
  lemma ProcessingEnds(currentRun: Option<Run>, jobs: seq<Job>, running: set<string>, concurrency: int, draws: nat,
                       jobs0: seq<Job>, run0: Option<Run>, running0: set<string>, expected: seq<ResponseRecord>,
                       started: seq<Started>, statsAt: int, settings: ProviderName -> ProviderSettings, now: string)
    requires ProcessingOf(currentRun, jobs, running, concurrency, draws, jobs0, run0, running0, expected, started, statsAt, -1, settings, now)
    ensures
      var responses0 := if run0.Some? then run0.value.responses else [];
      var responses := if currentRun.Some? then currentRun.value.responses else [];
      var runId := if currentRun.Some? then currentRun.value.id else "";
      Admitted(jobs0, jobs) && DistinctJobs(started) &&
      (forall k :: 0 <= k < |jobs| && jobs0[k].status == Queued && jobs[k].status == Error ==>
        settings(jobs[k].model.provider).apiKey == "") &&
      (currentRun.Some? ==> Decided(jobs0, jobs, started, settings)) &&
      running == RunningAfter(running0, jobs0, jobs, |jobs|) &&
      (currentRun.Some? ==> currentRun.value.stats == run0.value.stats || StatsOfPrefix(responses, currentRun.value.stats))
  {
    var responses := if currentRun.Some? then currentRun.value.responses else [];
    if 0 <= statsAt {
      assert StatsOfPrefix(responses, currentRun.value.stats);
    }
  }

  /** The requests that went out, once the loop of `processJobs` is over. */
  lemma ProcessingLaunched(currentRun: Option<Run>, jobs: seq<Job>, running: set<string>, concurrency: int, draws: nat,
                           jobs0: seq<Job>, run0: Option<Run>, running0: set<string>, expected: seq<ResponseRecord>,
                           started: seq<Started>, statsAt: int, settings: ProviderName -> ProviderSettings, now: string)
    requires ProcessingOf(currentRun, jobs, running, concurrency, draws, jobs0, run0, running0, expected, started, statsAt, -1, settings, now)
    ensures
      var responses0 := if run0.Some? then run0.value.responses else [];
      var responses := if currentRun.Some? then currentRun.value.responses else [];
      var runId := if currentRun.Some? then currentRun.value.id else "";
      Extends(responses0, responses, now, |started|) &&
      RequestsOpened(jobs0, jobs, |responses0|, responses, started, runId, settings, now)
  {
    var responses0 := if run0.Some? then run0.value.responses else [];
    assert forall i :: 0 <= i < |responses0| ==> expected[i] == responses0[i];
  }

  class Engine {
    var currentRun: Option<Run>
    var jobs: seq<Job>
    var running: set<string>
    var concurrency: int
    /** How many ids `crypto.randomUUID()` has handed out. */
    var draws: nat

    /** The running set never outgrows the concurrency, and the records' ids are distinct. */
    ghost predicate Valid()
      reads this
    {
      ValidState(currentRun, running, concurrency, draws)
    }

    /** Lines 34-37. */
    constructor(concurrency: int)
      ensures Valid()
      ensures currentRun == None && jobs == [] && running == {} && this.concurrency == concurrency
    {
      currentRun := None;
      jobs := [];
      running := {};
      this.concurrency := concurrency;
      draws := 0;
    }

    function Responses(): seq<ResponseRecord>
      reads this
    {
      if currentRun.Some? then currentRun.value.responses else []
    }

    function RunId(): string
      reads this
    {
      if currentRun.Some? then currentRun.value.id else ""
    }

    /** The job a callback's job object stands for. */
    function Target(ref: JobRef): Job
      requires ref.Current? ==> ref.index < |jobs|
      reads this
    {
      match ref
      case Current(k) => jobs[k]
      case Replaced(job) => job
    }

    /**
     * Lines 273-286: without a run, nothing runs and every count is 0; with
     * one, it runs while a job is running or waiting, and the counts are the
     * run's.
     */
    function GetStatus(): (s: EngineStatus)
      reads this
      ensures s.isRunning <==> currentRun.Some? && (running != {} || exists k :: 0 <= k < |jobs| && jobs[k].status == Queued)
      ensures currentRun.None? ==> s.completed == 0 && s.total == 0 && s.errors == 0
      ensures currentRun.Some? ==>
        s.completed == currentRun.value.stats.completed && s.total == currentRun.value.stats.total && s.errors == currentRun.value.stats.errors
    {
      match currentRun
      case None => EngineStatus(false, 0, 0, 0)
      case Some(run) =>
        EngineStatus(running != {} || HasQueued(jobs), run.stats.completed, run.stats.total, run.stats.errors)
    }

    /**
     * Lines 249-261: queued and running jobs become canceled, the others keep
     * their status, and nothing runs any more.
     */
    method CancelRun()
      requires Valid()
      modifies this
      ensures Valid()
      ensures jobs == CancelAll(old(jobs)) && running == {}
      ensures currentRun == old(currentRun) && concurrency == old(concurrency) && draws == old(draws)
      ensures !GetStatus().isRunning
    {
      var js := jobs;
      for k := 0 to |js|
        invariant |js| == |jobs|
        invariant forall j :: 0 <= j < k ==> js[j] == Cancel(jobs[j])
        invariant forall j :: k <= j < |js| ==> js[j] == jobs[j]
      {
        if js[k].status == InProgress {
          js := js[k := js[k].(status := Canceled)];
        } else if js[k].status == Queued {
          js := js[k := js[k].(status := Canceled)];
        }
      }
      jobs := js;
      running := {};
      CancelSettles(old(jobs));
    }

    /** Lines 121-136: a new record for job `k`, under a new id. */
    method Launch(k: nat, now: string) returns (st: Started)
      requires Valid() && currentRun.Some? && k < |jobs|
      modifies this
      ensures Valid()
      ensures jobs == old(jobs) && running == old(running) && concurrency == old(concurrency)
      ensures st == Started(k, Uuid(old(draws))) && draws == old(draws) + 1
      ensures currentRun == Some(old(currentRun).value.(responses := old(Responses()) + [Opened(jobs[k], old(RunId()), st.responseId, now)]))
    {
      var id := Uuid(draws);
      NextUuidFresh(draws);
      var run := currentRun.value;
      currentRun := Some(run.(responses := run.responses + [Opened(jobs[k], run.id, id, now)]));
      draws := draws + 1;
      st := Started(k, id);
    }

    /**
     * Lines 198-213, all of `handleJobError` but its `completeJob`: the first
     * record for the job's model and loop fails, the job itself becomes an error
     * whatever its status was, and the statistics are recomputed.
     */
    method FailJob(ref: JobRef, error: string, now: string)
      requires Valid() && (ref.Current? ==> ref.index < |jobs|)
      modifies this
      ensures Valid()
      ensures running == old(running) && concurrency == old(concurrency) && draws == old(draws)
      ensures old(currentRun).None? ==> currentRun == old(currentRun) && jobs == old(jobs)
      ensures old(currentRun).Some? ==>
        var failed := FailInto(old(Responses()), old(Target(ref)), error, now);
        currentRun == Some(old(currentRun).value.(responses := failed, stats := StatsOf(failed))) &&
        jobs == (if ref.Current? then old(jobs)[ref.index := old(jobs)[ref.index].(status := Error)] else old(jobs))
    {
      if currentRun.None? {
        return;
      }
      var run := currentRun.value;
      var failed := FailInto(run.responses, Target(ref), error, now);
      FailIntoValid(run, running, concurrency, draws, Target(ref), error, now);
      if ref.Current? {
        jobs := jobs[ref.index := jobs[ref.index].(status := Error)];
      }
      currentRun := Some(run.(responses := failed, stats := StatsOf(failed)));
    }

    /**
     * Lines 39-90: the old run is canceled, the new job list is built, and the
     * new run starts with no records and a total of one per job; then as many
     * jobs start as the concurrency allows.
     */
    method StartRun(config: RunConfig, models: seq<ModelSettings>, settings: ProviderName -> ProviderSettings, now: string)
      returns (run: Run, started: seq<Started>)
      requires Valid()
      modifies this
      ensures Valid() && currentRun == Some(run) && concurrency == old(concurrency)
      ensures run.id == Uuid(old(draws)) && run.config == config
      ensures Admitted(BuildJobs(config.selectedModelIds, models, config.loopCount), jobs)
      ensures !HasQueued(jobs) || |running| >= concurrency
      ensures running == RunningAfter({}, BuildJobs(config.selectedModelIds, models, config.loopCount), jobs, |jobs|)
      ensures |run.responses| == |started|
      ensures RequestsOpened(BuildJobs(config.selectedModelIds, models, config.loopCount), jobs, 0, run.responses, started, run.id, settings, now)
      ensures DistinctJobs(started)
      ensures forall k :: 0 <= k < |jobs| && jobs[k].status == Error ==> settings(jobs[k].model.provider).apiKey == ""
      ensures Decided(BuildJobs(config.selectedModelIds, models, config.loopCount), jobs, started, settings)
      ensures run.stats == Stats(|jobs|, 0, 0, None) || StatsOfPrefix(run.responses, run.stats)
    {
      CancelRun();
      var built := BuildJobList(config.selectedModelIds, models, config.loopCount);
      BuildJobsShape(config.selectedModelIds, models, config.loopCount);
      jobs := built;
      running := {};
      var runId := Uuid(draws);
      draws := draws + 1;
      currentRun := Some(Run(runId, config, [], Stats(|built|, 0, 0, None)));
      started := ProcessJobs(settings, now);
      run := currentRun.value;
    }

    /** Lines 155-165: the chunk is appended to the record with that id, if the run has one. */
    method OnChunk(responseId: string, delta: string)
      requires Valid()
      modifies this
      ensures Valid()
      ensures jobs == old(jobs) && running == old(running) && concurrency == old(concurrency) && draws == old(draws)
      ensures old(currentRun).None? ==> currentRun.None?
      ensures old(currentRun).Some? ==>
        currentRun == Some(old(currentRun).value.(responses := ChunkInto(old(Responses()), responseId, delta)))
    {
      if currentRun.Some? {
        var run := currentRun.value;
        var found := WithId(run.responses, responseId);
        if found.Some? {
          var i := found.value;
          var resp := run.responses[i];
          resp := resp.(text := resp.text + delta);
          resp := resp.(charCount := Some(|resp.text|));
          currentRun := Some(run.(responses := run.responses[i := resp]));
          assert forall j :: 0 <= j < |run.responses| ==> Responses()[j].id == run.responses[j].id;
        }
      }
    }

    /**
     * Lines 167-184 and 217-220: the record with that id is done and the
     * statistics recomputed; the job leaves the running set, and its own status
     * stays as it was; then more jobs may start.
     */
    method OnComplete(jobId: string, responseId: string, fullText: string, latencyMs: Option<int>, totalTokens: Option<int>,
                      settings: ProviderName -> ProviderSettings, now: string)
      returns (started: seq<Started>)
      requires Valid()
      modifies this
      ensures Valid() && concurrency == old(concurrency)
      ensures Admitted(old(jobs), jobs)
      ensures forall k :: 0 <= k < |jobs| && old(jobs)[k].status == InProgress ==> jobs[k] == old(jobs)[k]
      ensures !HasQueued(jobs) || |running| >= concurrency
      ensures running == RunningAfter(old(running) - {jobId}, old(jobs), jobs, |jobs|)
      ensures currentRun.Some? == old(currentRun).Some?
      ensures old(currentRun).Some? ==>
        Extends(CompleteInto(old(Responses()), responseId, fullText, latencyMs, totalTokens, now), Responses(), now, |started|) &&
        Decided(old(jobs), jobs, started, settings)
      ensures RequestsOpened(old(jobs), jobs, |old(Responses())|, Responses(), started, RunId(), settings, now)
      ensures DistinctJobs(started)
    {
      CompleteResponse(responseId, fullText, latencyMs, totalTokens, now);
      running := running - {jobId};
      started := ProcessJobs(settings, now);
    }

    /** Lines 168-182: the record with that id, if the run has one, is done; the statistics follow. */
    method CompleteResponse(responseId: string, fullText: string, latencyMs: Option<int>, totalTokens: Option<int>, now: string)
      requires Valid()
      modifies this
      ensures Valid()
      ensures jobs == old(jobs) && running == old(running) && concurrency == old(concurrency) && draws == old(draws)
      ensures old(currentRun).None? ==> currentRun.None?
      ensures old(currentRun).Some? ==>
        var completed := CompleteInto(old(Responses()), responseId, fullText, latencyMs, totalTokens, now);
        currentRun == Some(old(currentRun).value.(responses := completed,
          stats := if WithId(old(Responses()), responseId).Some? then StatsOf(completed) else old(currentRun).value.stats))
    {
      if currentRun.Some? {
        var run := currentRun.value;
        var found := WithId(run.responses, responseId);
        if found.Some? {
          var completed := CompleteInto(run.responses, responseId, fullText, latencyMs, totalTokens, now);
          assert forall j :: 0 <= j < |completed| ==> completed[j].id == run.responses[j].id;
          currentRun := Some(run.(responses := completed, stats := StatsOf(completed)));
        }
      }
    }

    /**
     * Lines 185-187 and 198-220: the job fails (`handleJobError`), leaves the
     * running set and more jobs may start. The job object may be one a later
     * `startRun` replaced, as for a request that `cancelRun` aborted before
     * its response arrived.
     */
    method OnError(ref: JobRef, error: string, settings: ProviderName -> ProviderSettings, now: string)
      returns (started: seq<Started>)
      requires Valid() && (ref.Current? ==> ref.index < |jobs|)
      modifies this
      ensures Valid() && concurrency == old(concurrency)
      ensures old(currentRun).None? ==> currentRun == old(currentRun) && jobs == old(jobs) && running == old(running) && started == []
      ensures old(currentRun).Some? ==>
        var failed := if ref.Current? then old(jobs)[ref.index := old(jobs)[ref.index].(status := Error)] else old(jobs);
        Admitted(failed, jobs) &&
        running == RunningAfter(old(running) - {old(Target(ref)).id}, failed, jobs, |jobs|) &&
        Extends(FailInto(old(Responses()), old(Target(ref)), error, now), Responses(), now, |started|) &&
        RequestsOpened(failed, jobs, |old(Responses())|, Responses(), started, RunId(), settings, now) &&
        Decided(failed, jobs, started, settings)
      ensures old(currentRun).Some? && ref.Current? ==> jobs[ref.index] == old(jobs)[ref.index].(status := Error)
      ensures DistinctJobs(started)
    {
      if currentRun.None? {
        started := [];
        return;
      }
      var job := Target(ref);
      FailJob(ref, error, now);
      ghost var failed := jobs;
      assert |running - {job.id}| <= |running|;
      running := running - {job.id};
      started := ProcessJobs(settings, now);
      if ref.Current? {
        assert failed[ref.index].status == Error;
        assert jobs[ref.index] == failed[ref.index];
      }
    }

    /**
     * The error callback as evidently intended: a job object no longer in the
     * list belongs to a run that was replaced, and its failure changes nothing.
     */
    method OnErrorCurrentOnly(ref: JobRef, error: string, settings: ProviderName -> ProviderSettings, now: string)
      returns (started: seq<Started>)
      requires Valid() && (ref.Current? ==> ref.index < |jobs|)
      modifies this
      ensures Valid() && concurrency == old(concurrency)
      ensures ref.Replaced? ==>
        currentRun == old(currentRun) && jobs == old(jobs) && running == old(running) && draws == old(draws) && started == []
      ensures ref.Current? && old(currentRun).Some? ==>
        var failed := old(jobs)[ref.index := old(jobs)[ref.index].(status := Error)];
        Admitted(failed, jobs) &&
        jobs[ref.index] == old(jobs)[ref.index].(status := Error) &&
        running == RunningAfter(old(running) - {old(jobs)[ref.index].id}, failed, jobs, |jobs|) &&
        Extends(FailInto(old(Responses()), old(jobs)[ref.index], error, now), Responses(), now, |started|) &&
        RequestsOpened(failed, jobs, |old(Responses())|, Responses(), started, RunId(), settings, now) &&
        Decided(failed, jobs, started, settings)
    {
      if ref.Replaced? {
        started := [];
        return;
      }
      started := OnError(ref, error, settings, now);
    }

    /**
     * Lines 263-271: every failed job is queued again with one more retry; the
     * other jobs keep their state; then jobs start, each opening a new record.
     */
    method RetryErrors(settings: ProviderName -> ProviderSettings, now: string) returns (started: seq<Started>)
      requires Valid()
      modifies this
      ensures Valid() && concurrency == old(concurrency)
      ensures Admitted(RequeueAll(old(jobs)), jobs)
      ensures !HasQueued(jobs) || |running| >= concurrency
      ensures running == RunningAfter(old(running), RequeueAll(old(jobs)), jobs, |jobs|)
      ensures currentRun.Some? == old(currentRun).Some?
      ensures Extends(old(Responses()), Responses(), now, |started|)
      ensures RequestsOpened(RequeueAll(old(jobs)), jobs, |old(Responses())|, Responses(), started, RunId(), settings, now)
      ensures DistinctJobs(started)
      ensures currentRun.Some? ==> Decided(RequeueAll(old(jobs)), jobs, started, settings)
    {
      RequeueErrors();
      started := ProcessJobs(settings, now);
    }

    /** Lines 264-268: every failed job is queued again with one more retry. */
    method RequeueErrors()
      requires Valid()
      modifies this
      ensures Valid() && jobs == RequeueAll(old(jobs))
      ensures currentRun == old(currentRun) && running == old(running) && concurrency == old(concurrency) && draws == old(draws)
    {
      var js := jobs;
      for k := 0 to |js|
        invariant |js| == |jobs|
        invariant forall j :: 0 <= j < k ==> js[j] == Requeue(jobs[j])
        invariant forall j :: k <= j < |js| ==> js[j] == jobs[j]
      {
        if js[k].status == Error {
          js := js[k := js[k].(status := Queued, retryCount := js[k].retryCount + 1)];
        }
      }
      jobs := js;
    }

    /** The loop invariant of `ProcessJobs`, over the state it started from. */
    ghost predicate Processing(jobs0: seq<Job>, run0: Option<Run>, running0: set<string>, expected: seq<ResponseRecord>,
                               started: seq<Started>, statsAt: int, pending: int, settings: ProviderName -> ProviderSettings, now: string)
      reads this
    {
      ProcessingOf(currentRun, jobs, running, concurrency, draws, jobs0, run0, running0, expected, started, statsAt, pending, settings, now)
    }

    /** Lines 97-101: the first queued job joins the running set and runs. */
    method Admit(ghost jobs0: seq<Job>, ghost run0: Option<Run>, ghost running0: set<string>, ghost expected: seq<ResponseRecord>,
                 started: seq<Started>, ghost statsAt: int, settings: ProviderName -> ProviderSettings, now: string)
      returns (k: nat)
      requires Processing(jobs0, run0, running0, expected, started, statsAt, -1, settings, now)
      requires HasQueued(jobs) && |running| < concurrency
      modifies this
      ensures Processing(jobs0, run0, running0, expected, started, statsAt, k, settings, now)
      ensures k == FirstQueued(old(jobs)) && k < |jobs|
      ensures jobs == old(jobs)[k := old(jobs)[k].(status := InProgress)] && running == old(running) + {old(jobs)[k].id}
      ensures currentRun == old(currentRun) && concurrency == old(concurrency) && draws == old(draws)
      ensures |QueuedAt(jobs)| < old(|QueuedAt(jobs)|)
    {
      k := FirstQueued(jobs);
      AdmitKeepsProcessing(currentRun, jobs, running, concurrency, draws, jobs0, run0, running0, expected, started, statsAt, settings, now);
      running := running + {jobs[k].id};
      jobs := jobs[k := jobs[k].(status := InProgress)];
    }

    /**
     * Lines 116-119: with no API key the job fails at once (`handleJobError`),
     * failing the first record for its model and loop, and leaves the running
     * set (`completeJob`, whose `processJobs` is the caller's loop); no record
     * is added.
     */
    method FailWithoutKey(k: nat, ghost jobs0: seq<Job>, ghost run0: Option<Run>, ghost running0: set<string>, ghost expected: seq<ResponseRecord>,
                          started: seq<Started>, ghost statsAt: int, settings: ProviderName -> ProviderSettings, now: string)
      returns (ghost statsAt': int)
      requires Processing(jobs0, run0, running0, expected, started, statsAt, k, settings, now)
      requires k < |jobs| && currentRun.Some? && settings(jobs[k].model.provider).apiKey == ""
      modifies this
      ensures Processing(jobs0, run0, running0, expected, started, statsAt', -1, settings, now)
      ensures jobs == old(jobs)[k := old(jobs)[k].(status := Error)] && running == old(running) - {old(jobs)[k].id}
      ensures Responses() == FailInto(old(Responses()), old(jobs)[k], NoApiKey, now)
      ensures concurrency == old(concurrency) && draws == old(draws) && QueuedAt(jobs) == old(QueuedAt(jobs))
    {
      var id := jobs[k].id;
      statsAt' := FailAdmitted(k, jobs0, run0, running0, expected, started, statsAt, settings, now);
      running := running - {id};
    }

    /** `handleJobError` for the pending job, up to its `completeJob`. */
    method FailAdmitted(k: nat, ghost jobs0: seq<Job>, ghost run0: Option<Run>, ghost running0: set<string>, ghost expected: seq<ResponseRecord>,
                        started: seq<Started>, ghost statsAt: int, settings: ProviderName -> ProviderSettings, now: string)
      returns (ghost statsAt': int)
      requires Processing(jobs0, run0, running0, expected, started, statsAt, k, settings, now)
      requires k < |jobs| && currentRun.Some? && settings(jobs[k].model.provider).apiKey == ""
      modifies this
      ensures ProcessingOf(currentRun, jobs, running - {old(jobs)[k].id}, concurrency, draws,
                           jobs0, run0, running0, expected, started, statsAt', -1, settings, now)
      ensures jobs == old(jobs)[k := old(jobs)[k].(status := Error)] && Responses() == FailInto(old(Responses()), old(jobs)[k], NoApiKey, now)
      ensures running == old(running) && concurrency == old(concurrency) && draws == old(draws)
      ensures QueuedAt(jobs) == old(QueuedAt(jobs))
    {
      ghost var responses0 := if run0.Some? then run0.value.responses else [];
      var job := jobs[k];
      ghost var before := Responses();
      FailKeepsTrack(jobs0, jobs, expected, |responses0|, started, RunId(), settings, now, k);
      FailKeepsRunning(running0, jobs0, jobs, started, k);
      CoveredFail(jobs0, jobs, started, k);
      assert |running - {job.id}| <= |running|;
      FailJob(Current(k), NoApiKey, now);
      FailIntoKeeps(expected, before, job, now);
      statsAt' := |Responses()|;
      assert Responses()[..statsAt'] == Responses();
    }

    /**
     * Lines 121-136: with a key, the request goes out for the pending job, and
     * a new record under a new id is appended to the run.
     */
    method LaunchWithKey(k: nat, ghost jobs0: seq<Job>, ghost run0: Option<Run>, ghost running0: set<string>, ghost expected: seq<ResponseRecord>,
                         started: seq<Started>, ghost statsAt: int, settings: ProviderName -> ProviderSettings, now: string)
      returns (ghost expected': seq<ResponseRecord>, started': seq<Started>)
      requires Processing(jobs0, run0, running0, expected, started, statsAt, k, settings, now)
      requires k < |jobs| && currentRun.Some? && settings(jobs[k].model.provider).apiKey != ""
      modifies this
      ensures Processing(jobs0, run0, running0, expected', started', statsAt, -1, settings, now)
      ensures started' == started + [Started(k, Uuid(old(draws)))]
      ensures Responses() == old(Responses()) + [Opened(jobs[k], RunId(), Uuid(old(draws)), now)]
      ensures jobs == old(jobs) && running == old(running) && concurrency == old(concurrency) && draws == old(draws) + 1
    {
      LaunchKeepsProcessing(currentRun.value, jobs, running, concurrency, draws, jobs0, run0, running0, expected, started, statsAt, k, settings, now);
      var st := Launch(k, now);
      expected' := expected + [Opened(jobs[k], RunId(), st.responseId, now)];
      started' := started + [st];
    }

    /**
     * Lines 92-119: while a job waits and the running set has room, the first
     * queued job starts. Its request goes out when its provider has an API key;
     * otherwise it fails at once, leaves the running set, and no record is added
     * for it (the nested `processJobs` of that path is this same loop).
     */
    method ProcessJobs(settings: ProviderName -> ProviderSettings, now: string) returns (started: seq<Started>)
      requires Valid()
      modifies this
      ensures Valid()
      ensures concurrency == old(concurrency) && old(draws) <= draws
      ensures currentRun.Some? == old(currentRun).Some?
      ensures currentRun.Some? ==> currentRun.value.id == old(currentRun).value.id && currentRun.value.config == old(currentRun).value.config
      ensures Admitted(old(jobs), jobs)
      ensures !HasQueued(jobs) || |running| >= concurrency
      ensures running == RunningAfter(old(running), old(jobs), jobs, |jobs|)
      ensures Extends(old(Responses()), Responses(), now, |started|)
      ensures RequestsOpened(old(jobs), jobs, |old(Responses())|, Responses(), started, RunId(), settings, now)
      ensures DistinctJobs(started)
      ensures forall k :: 0 <= k < |jobs| && old(jobs)[k].status == Queued && jobs[k].status == Error ==>
        settings(jobs[k].model.provider).apiKey == ""
      ensures currentRun.Some? ==> Decided(old(jobs), jobs, started, settings)
      ensures currentRun.Some? ==>
        currentRun.value.stats == old(currentRun).value.stats || StatsOfPrefix(Responses(), currentRun.value.stats)
    {
      started := [];
      ghost var jobs0, run0, running0 := jobs, currentRun, running;
      ghost var expected := Responses();
      ghost var statsAt := -1;
      ProcessingStarts(currentRun, jobs, running, concurrency, draws, settings, now);
      while HasQueued(jobs) && |running| < concurrency
        invariant Processing(jobs0, run0, running0, expected, started, statsAt, -1, settings, now)
        invariant concurrency == old(concurrency) && old(draws) <= draws
        decreases |QueuedAt(jobs)|
      {
        var k := Admit(jobs0, run0, running0, expected, started, statsAt, settings, now);
        // `executeJob`, up to its first `await`
        if currentRun.Some? {
          if settings(jobs[k].model.provider).apiKey == "" {
            statsAt := FailWithoutKey(k, jobs0, run0, running0, expected, started, statsAt, settings, now);
          } else {
            expected, started := LaunchWithKey(k, jobs0, run0, running0, expected, started, statsAt, settings, now);
          }
        } else {
          PendingWithoutRun(currentRun, jobs, running, concurrency, draws, jobs0, run0, running0, expected, started, statsAt, k, settings, now);
        }
      }
      ProcessingLaunched(currentRun, jobs, running, concurrency, draws, jobs0, run0, running0, expected, started, statsAt, settings, now);
      ProcessingEnds(currentRun, jobs, running, concurrency, draws, jobs0, run0, running0, expected, started, statsAt, settings, now);
    }
  }
}
