/**
 * `updateRunStats` and `calculateAverageLatency` of `src/lib/runEngine/index.ts`:
 * the run's statistics are a function of its response list alone.
 */
module RunStats {
  import opened Wrappers
  import opened Types

  /** `responses.filter((r) => r.status === s).length`. */
  function CountStatus(responses: seq<ResponseRecord>, s: Status): (n: nat)
    ensures n <= |responses|
  {
    if responses == [] then 0
    else CountStatus(responses[..|responses| - 1], s) + (if responses[|responses| - 1].status == s then 1 else 0)
  }

  /** A record is done or in error, never both, so the two counts share the total. */
  lemma {:induction false} DoneAndErrorsWithinTotal(responses: seq<ResponseRecord>)
    ensures CountStatus(responses, Done) + CountStatus(responses, Error) <= |responses|
  {
    if responses != [] {
      DoneAndErrorsWithinTotal(responses[..|responses| - 1]);
    }
  }

  /** The records that carry a latency. */
  function Timed(responses: seq<ResponseRecord>): (t: seq<ResponseRecord>)
    ensures |t| <= |responses|
    ensures forall r :: r in t <==> r in responses && r.latencyMs.Some?
  {
    if responses == [] then []
    else
      var last := responses[|responses| - 1];
      Timed(responses[..|responses| - 1]) + (if last.latencyMs.Some? then [last] else [])
  }

  /** `reduce((sum, r) => sum + (r.latencyMs || 0), 0)`. */
  function LatencySum(responses: seq<ResponseRecord>): int {
    if responses == [] then 0
    else LatencySum(responses[..|responses| - 1]) + responses[|responses| - 1].latencyMs.GetOr(0)
  }

  /**
   * `Math.round(a / n)`: the integer nearest to `a / n`, halves rounded up.
   * It lies within half of `a / n`, stated without division.
   */
  function RoundedQuotient(a: int, n: int): (q: int)
    requires n > 0
    ensures 2 * n * q - n <= 2 * a < 2 * n * q + n
  {
    (2 * a + n) / (2 * n)
  }

  /** Lines 234-247: the rounded mean latency of the records that have one, absent when none does. */
  function AverageLatency(responses: seq<ResponseRecord>): (avg: Option<int>)
    ensures avg.None? <==> forall r :: r in responses ==> r.latencyMs.None?
  {
    var timed := Timed(responses);
    if |timed| == 0 then None
    else Some(RoundedQuotient(LatencySum(timed), |timed|))
  }

  /** Lines 222-232: total, done and error counts, and the average latency. */
  function StatsOf(responses: seq<ResponseRecord>): (s: Stats)
    ensures s.total == |responses| && s.completed + s.errors <= s.total
  {
    DoneAndErrorsWithinTotal(responses);
    Stats(|responses|, CountStatus(responses, Done), CountStatus(responses, Error), AverageLatency(responses))
  }

  /** When every latency lies in `[lo, hi]`, so does the sum's share of each record. */
  lemma {:induction false} LatencySumBounds(timed: seq<ResponseRecord>, lo: int, hi: int)
    requires forall r :: r in timed ==> r.latencyMs.Some? && lo <= r.latencyMs.value <= hi
    ensures |timed| * lo <= LatencySum(timed) <= |timed| * hi
  {
    if timed != [] {
      var init := timed[..|timed| - 1];
      assert forall r :: r in init ==> r in timed;
      LatencySumBounds(init, lo, hi);
      var last := timed[|timed| - 1];
      assert last in timed;
      assert LatencySum(timed) == LatencySum(init) + last.latencyMs.value;
      StepBounds(|init|, lo, hi, LatencySum(init), last.latencyMs.value);
    }
  }

  lemma StepBounds(m: int, lo: int, hi: int, sum: int, v: int)
    requires m * lo <= sum <= m * hi && lo <= v <= hi
    ensures (m + 1) * lo <= sum + v <= (m + 1) * hi
  {
    assert (m + 1) * lo == m * lo + lo && (m + 1) * hi == m * hi + hi;
  }

  /** The average latency lies between the smallest and the largest latency recorded. */
  lemma AverageWithinBounds(responses: seq<ResponseRecord>, lo: int, hi: int)
    requires forall r :: r in responses && r.latencyMs.Some? ==> lo <= r.latencyMs.value <= hi
    ensures AverageLatency(responses).Some? ==> lo <= AverageLatency(responses).value <= hi
  {
    var timed := Timed(responses);
    if |timed| > 0 {
      LatencySumBounds(timed, lo, hi);
      var n, q := |timed|, AverageLatency(responses).value;
      assert 2 * n * q - n <= 2 * LatencySum(timed) < 2 * n * q + n;
      ScaledBounds(n, q, lo, hi, LatencySum(timed));
    }
  }

  lemma ScaledBounds(n: int, q: int, lo: int, hi: int, sum: int)
    requires n > 0 && n * lo <= sum <= n * hi
    requires 2 * n * q - n <= 2 * sum < 2 * n * q + n
    ensures lo <= q <= hi
  {
    var below := 2 * lo - 2 * q - 1;
    assert n * below == 2 * (n * lo) - 2 * n * q - n;
    NegativeFactor(n, below);
    var above := 2 * q - 2 * hi - 1;
    assert n * above == 2 * n * q - n - 2 * (n * hi);
    NegativeFactor(n, above);
  }

  /** A product with a positive factor is negative only when the other factor is. */
  lemma NegativeFactor(n: int, d: int)
    requires n > 0
    ensures n * d < 0 ==> d < 0
  {
    if d >= 0 {
      assert n * d >= 0;
    }
  }
}
