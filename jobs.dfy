/**
 * The job list of `src/lib/runEngine/index.ts`: how `startRun` builds it, how
 * `cancelRun` and `retryErrors` rewrite it, and how `processJobs` admits its
 * queued jobs, as functions and predicates on values.
 */
module Jobs {
  import opened Wrappers
  import opened Strings
  import opened Types

  /** One request to make; `abortController` is not modelled. */
  datatype Job = Job(id: string, model: ModelSettings, loopIndex: int, status: Status, retryCount: int)

  /** `allModels.find((m) => m.id === modelId)`: the first model with that id. */
  function FindModel(models: seq<ModelSettings>, id: string): (r: Option<ModelSettings>)
    ensures r.None? <==> forall m :: m in models ==> m.id != id
    ensures r.Some? ==> r.value in models && r.value.id == id
  {
    if models == [] then None
    else if models[0].id == id then Some(models[0])
    else FindModel(models[1..], id)
  }

  /** The model found is the first with that id. */
  lemma {:induction false} FindModelFirst(models: seq<ModelSettings>, id: string, i: nat)
    requires i < |models| && models[i].id == id
    requires forall j :: 0 <= j < i ==> models[j].id != id
    ensures FindModel(models, id) == Some(models[i])
  {
    if i > 0 {
      FindModelFirst(models[1..], id, i - 1);
    }
  }

  /** The job `${modelId}-${i}` of `model`, before it has run. */
  function NewJob(model: ModelSettings, i: nat): Job {
    Job(model.id + "-" + NatToString(i), model, i, Queued, 0)
  }

  /** The jobs `for (let i = 0; i < loopCount; i++)` pushes for one model. */
  function LoopJobs(model: ModelSettings, count: int): (js: seq<Job>)
    ensures |js| == if count < 0 then 0 else count
    ensures forall i :: 0 <= i < |js| ==> js[i] == NewJob(model, i)
  {
    if count <= 0 then [] else LoopJobs(model, count - 1) + [NewJob(model, count - 1)]
  }

  /** Lines 51-67: each selected id's loop jobs in selection order, unknown ids skipped. */
  function BuildJobs(ids: seq<string>, models: seq<ModelSettings>, loopCount: int): seq<Job> {
    if ids == [] then []
    else
      var before := BuildJobs(ids[..|ids| - 1], models, loopCount);
      match FindModel(models, ids[|ids| - 1])
      case None => before
      case Some(m) => before + LoopJobs(m, loopCount)
  }

  /** How many of the selected ids name a model. */
  function Known(ids: seq<string>, models: seq<ModelSettings>): nat {
    if ids == [] then 0
    else Known(ids[..|ids| - 1], models) + (if FindModel(models, ids[|ids| - 1]).Some? then 1 else 0)
  }

  /** The job list has `loopCount` jobs per known id. */
  lemma {:induction false} BuildJobsCount(ids: seq<string>, models: seq<ModelSettings>, loopCount: int)
    ensures |BuildJobs(ids, models, loopCount)| == Known(ids, models) * (if loopCount < 0 then 0 else loopCount)
  {
    if ids != [] {
      var init := ids[..|ids| - 1];
      BuildJobsCount(init, models, loopCount);
      var per := if loopCount < 0 then 0 else loopCount;
      if FindModel(models, ids[|ids| - 1]).Some? {
        assert (Known(init, models) + 1) * per == Known(init, models) * per + per;
      }
    }
  }

  /**
   * Every job of a new list is queued, has not been retried, is for a selected
   * model, and is named after its model and loop.
   */
  lemma {:induction false} BuildJobsShape(ids: seq<string>, models: seq<ModelSettings>, loopCount: int)
    ensures forall j :: j in BuildJobs(ids, models, loopCount) ==>
      j.model in models && j.model.id in ids && 0 <= j.loopIndex < loopCount && j == NewJob(j.model, j.loopIndex)
  {
    if ids != [] {
      var init := ids[..|ids| - 1];
      var last := ids[|ids| - 1];
      BuildJobsShape(init, models, loopCount);
      assert forall x :: x in init ==> x in ids;
      var found := FindModel(models, last);
      if found.Some? {
        var loop := LoopJobs(found.value, loopCount);
        assert forall j :: j in loop ==> j.model == found.value && 0 <= j.loopIndex < loopCount && j == NewJob(found.value, j.loopIndex);
        assert last in ids;
      }
    }
  }

  /** The job list gets its selected models' loops one after another. */
  lemma BuildJobsAppend(ids: seq<string>, id: string, models: seq<ModelSettings>, loopCount: int)
    ensures BuildJobs(ids + [id], models, loopCount) ==
      BuildJobs(ids, models, loopCount) + (if FindModel(models, id).Some? then LoopJobs(FindModel(models, id).value, loopCount) else [])
  {
    assert (ids + [id])[..|ids|] == ids;
  }

  /** `cancelRun` on one job: queued and running jobs become canceled. */
  function Cancel(job: Job): Job {
    if job.status == InProgress || job.status == Queued then job.(status := Canceled) else job
  }

  /** Lines 251-258 over the whole list. */
  function CancelAll(jobs: seq<Job>): (r: seq<Job>)
    ensures |r| == |jobs|
    ensures forall k :: 0 <= k < |r| ==>
      if jobs[k].status in {InProgress, Queued} then r[k] == jobs[k].(status := Canceled) else r[k] == jobs[k]
  {
    seq(|jobs|, k requires 0 <= k < |jobs| => Cancel(jobs[k]))
  }

  /** After a cancel no job waits or runs, and a second cancel changes nothing. */
  lemma CancelSettles(jobs: seq<Job>)
    ensures forall k :: 0 <= k < |jobs| ==> CancelAll(jobs)[k].status !in {Queued, InProgress}
    ensures CancelAll(CancelAll(jobs)) == CancelAll(jobs)
  {
  }

  /** `retryErrors` on one job: a failed job is queued again with one more retry. */
  function Requeue(job: Job): Job {
    if job.status == Error then job.(status := Queued, retryCount := job.retryCount + 1) else job
  }

  /** Lines 264-268 over the whole list. */
  function RequeueAll(jobs: seq<Job>): (r: seq<Job>)
    ensures |r| == |jobs|
    ensures forall k :: 0 <= k < |r| ==>
      if jobs[k].status == Error then r[k] == jobs[k].(status := Queued, retryCount := jobs[k].retryCount + 1)
      else r[k] == jobs[k]
  {
    seq(|jobs|, k requires 0 <= k < |jobs| => Requeue(jobs[k]))
  }

  /** After a retry no job is in error, and what was queued before is still queued. */
  lemma RequeueClearsErrors(jobs: seq<Job>)
    ensures forall k :: 0 <= k < |jobs| ==> RequeueAll(jobs)[k].status != Error
    ensures forall k :: 0 <= k < |jobs| && jobs[k].status == Queued ==> RequeueAll(jobs)[k] == jobs[k]
  {
  }

  /** `jobs.some((job) => job.status === "queued")`. */
  predicate HasQueued(jobs: seq<Job>) {
    exists k :: 0 <= k < |jobs| && jobs[k].status == Queued
  }

  /** `jobs.find((job) => job.status === "queued")`, as an index. */
  function FirstQueued(jobs: seq<Job>): (k: nat)
    requires HasQueued(jobs)
    ensures k < |jobs| && jobs[k].status == Queued
    ensures forall j :: 0 <= j < k ==> jobs[j].status != Queued
  {
    if jobs[0].status == Queued then 0
    else
      assert HasQueued(jobs[1..]) by {
        var k :| 0 <= k < |jobs| && jobs[k].status == Queued;
        assert jobs[1..][k - 1] == jobs[k];
      }
      1 + FirstQueued(jobs[1..])
  }

  /** The positions of the queued jobs; admitting one makes this smaller. */
  function QueuedAt(jobs: seq<Job>): set<nat> {
    set k: nat | k < |jobs| && jobs[k].status == Queued
  }

  /**
   * What admission does to a job list: only queued jobs change, each to running
   * or to failed and nothing else about it, and never a later one while an
   * earlier one still waits.
   */
  ghost predicate Admitted(before: seq<Job>, after: seq<Job>) {
    |after| == |before| &&
    (forall k :: 0 <= k < |before| ==>
      if before[k].status == Queued then
        after[k] in {before[k], before[k].(status := InProgress), before[k].(status := Error)}
      else after[k] == before[k]) &&
    (forall a, b :: 0 <= a < b < |after| && after[a].status == Queued ==> after[b] == before[b])
  }

  lemma AdmittedReflexive(jobs: seq<Job>)
    ensures Admitted(jobs, jobs)
  {
  }

  /** Admitting the first queued job keeps the list admitted from where it started. */
  lemma {:induction false} AdmitFirst(before: seq<Job>, after: seq<Job>, s: Status)
    requires Admitted(before, after) && HasQueued(after)
    requires s in {InProgress, Error}
    ensures
      var k := FirstQueued(after);
      Admitted(before, after[k := after[k].(status := s)]) &&
      QueuedAt(after[k := after[k].(status := s)]) == QueuedAt(after) - {k}
  {
    var k := FirstQueued(after);
    var next := after[k := after[k].(status := s)];
    assert before[k].status == Queued && after[k] == before[k];
    forall a, b | 0 <= a < b < |next| && next[a].status == Queued
      ensures next[b] == before[b]
    {
      assert a > k;
    }
  }

  /** A job just admitted may still fail: the list stays admitted. */
  lemma AdmittedFail(before: seq<Job>, after: seq<Job>, k: nat)
    requires Admitted(before, after)
    requires k < |after| && before[k].status == Queued && after[k] == before[k].(status := InProgress)
    ensures Admitted(before, after[k := before[k].(status := Error)])
  {
    var next := after[k := before[k].(status := Error)];
    forall a, b | 0 <= a < b < |next| && next[a].status == Queued
      ensures next[b] == before[b]
    {
      assert a != k && after[a].status == Queued;
      assert after[k] == before[k] ==> false;
    }
  }

  /** Admitting is transitive: a list admitted from an admitted list is admitted from the first. */
  lemma AdmittedTransitive(a: seq<Job>, b: seq<Job>, c: seq<Job>)
    requires Admitted(a, b) && Admitted(b, c)
    ensures Admitted(a, c)
  {
    forall x, y | 0 <= x < y < |c| && c[x].status == Queued
      ensures c[y] == a[y]
    {
      assert b[x].status == Queued;
    }
  }
}
