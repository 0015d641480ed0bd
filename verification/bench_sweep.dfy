/**
 * `run_comprehensive_benchmark`: every (chunk size, token count) pair in
 * chunk-size-major order, skipping pairs whose run raises, and the JSON
 * record written for each result.
 */
module BenchmarkSweep {
  import opened Wrappers
  import opened BenchTiming
  import opened BenchStats
  import opened ChunkBenchmark

  function First(xs: seq<int>): int { if |xs| > 0 then xs[0] else 0 }

  /**
   * The arguments the sweep passes for the pair (c, t): detailed timing keeps
   * its default (on), and the cache is cleared only for a pair whose values
   * equal the first chunk size and the first token count.
   */
  function ConfigFor(base: BenchConfig, c0: int, t0: int, c: int, t: int): BenchConfig {
    base.(chunkSize := c, numTokens := t, detailedTiming := true,
          clearCache := base.clearCache && c == c0 && t == t0)
  }

  /** The inner loop over token counts for one chunk size. */
  function Row(base: BenchConfig, c0: int, t0: int, c: int, ts: seq<int>): (r: seq<BenchConfig>)
    ensures |r| == |ts|
    ensures forall j :: 0 <= j < |ts| ==> r[j] == ConfigFor(base, c0, t0, c, ts[j])
    decreases |ts|
  {
    if |ts| == 0 then []
    else Row(base, c0, t0, c, ts[..|ts| - 1]) + [ConfigFor(base, c0, t0, c, ts[|ts| - 1])]
  }

  /** Both loops: one row per chunk size, in list order. */
  function Grid(base: BenchConfig, c0: int, t0: int, cs: seq<int>, ts: seq<int>): seq<BenchConfig>
    decreases |cs|
  {
    if |cs| == 0 then [] else Grid(base, c0, t0, cs[..|cs| - 1], ts) + Row(base, c0, t0, cs[|cs| - 1], ts)
  }

  /** The configurations the sweep runs, in order. */
  function SweepConfigs(base: BenchConfig, cs: seq<int>, ts: seq<int>): seq<BenchConfig> {
    Grid(base, First(cs), First(ts), cs, ts)
  }

  /**
   * What the `k`-th run of the sweep meets (engine, store, iterations), keyed on
   * the run's position, so that a pair repeated in the lists is run afresh.
   */
  type SweepEnv = nat -> ConfigEnv

  /** The same environments, seen from run `n` on. */
  function From(env: SweepEnv, n: nat): SweepEnv {
    (k: nat) => env(n + k)
  }

  /** The results kept from running `configs` in order: a raising run adds nothing. */
  function ResultsOf(caps: ProfilerCaps, env: SweepEnv, configs: seq<BenchConfig>): (r: seq<ProfilingResult>)
    ensures |r| <= |configs|
    decreases |configs|
  {
    if |configs| == 0 then []
    else
      var run := BenchmarkSpec(configs[|configs| - 1], caps, env(|configs| - 1));
      ResultsOf(caps, env, configs[..|configs| - 1]) + (if run.Ok? then [run.value] else [])
  }

  /** Running one more configuration appends its result when the run returns. */
  lemma ResultsOfSnoc(caps: ProfilerCaps, env: SweepEnv, configs: seq<BenchConfig>, c: BenchConfig)
    ensures ResultsOf(caps, env, configs + [c])
            == ResultsOf(caps, env, configs)
               + (var run := BenchmarkSpec(c, caps, env(|configs|));
                  if run.Ok? then [run.value] else [])
  {
    assert (configs + [c])[..|configs|] == configs;
  }

  /** The inner loop: runs chunk size `c` against every token count, extending the sweep so far. */
  method RunRow(base: BenchConfig, c0: int, t0: int, caps: ProfilerCaps, env: SweepEnv,
                c: int, ts: seq<int>, configs0: seq<BenchConfig>, results0: seq<ProfilingResult>)
    returns (results: seq<ProfilingResult>, configs: seq<BenchConfig>)
    requires results0 == ResultsOf(caps, env, configs0)
    ensures configs == configs0 + Row(base, c0, t0, c, ts)
    ensures results == ResultsOf(caps, env, configs)
  {
    results, configs := results0, configs0;
    var j := 0;
    while j < |ts|
      invariant j <= |ts|
      invariant configs == configs0 + Row(base, c0, t0, c, ts[..j])
      invariant results == ResultsOf(caps, env, configs)
    {
      var cfg := ConfigFor(base, c0, t0, c, ts[j]);
      var run := BenchmarkChunkSize(cfg, caps, env(|configs|));
      assert ts[..j + 1][..j] == ts[..j];
      ResultsOfSnoc(caps, env, configs, cfg);
      configs := configs + [cfg];
      if run.Ok? {
        results := results + [run.value];
      }
      j := j + 1;
    }
    assert ts[..j] == ts;
  }

  /** `run_comprehensive_benchmark`: returns the results and the configurations it ran. */
  method RunComprehensiveBenchmark(base: BenchConfig, caps: ProfilerCaps, env: SweepEnv,
                                   chunkSizes: seq<int>, tokenCounts: seq<int>)
    returns (results: seq<ProfilingResult>, configs: seq<BenchConfig>)
    ensures configs == SweepConfigs(base, chunkSizes, tokenCounts)
    ensures results == ResultsOf(caps, env, configs)
  {
    var c0, t0 := First(chunkSizes), First(tokenCounts);
    results, configs := [], [];
    var i := 0;
    while i < |chunkSizes|
      invariant i <= |chunkSizes|
      invariant configs == Grid(base, c0, t0, chunkSizes[..i], tokenCounts)
      invariant results == ResultsOf(caps, env, configs)
    {
      results, configs := RunRow(base, c0, t0, caps, env, chunkSizes[i], tokenCounts, configs, results);
      assert chunkSizes[..i + 1][..i] == chunkSizes[..i];
      i := i + 1;
    }
    assert chunkSizes[..i] == chunkSizes;
  }

  /** Position of the pair (i, j) in a chunk-size-major visit of an `m`-column grid. */
  function Pos(i: int, j: int, m: int): int { i * m + j }

  lemma PosBound(i: int, j: int, m: int, n: int)
    requires 0 <= i < n && 0 <= j < m
    ensures 0 <= Pos(i, j, m) < n * m
    ensures i < n - 1 ==> Pos(i, j, m) < (n - 1) * m
  {
    assert i * m <= (n - 1) * m;
    if i < n - 1 {
      assert i * m <= (n - 2) * m;
    }
  }

  lemma MulStep(n: int, m: int)
    ensures (n - 1) * m + m == n * m
  {
  }

  /** Pairs are visited chunk-size-major: position `i * |ts| + j` holds (cs[i], ts[j]). */
  lemma {:induction false} GridOrder(base: BenchConfig, c0: int, t0: int, cs: seq<int>, ts: seq<int>)
    ensures |Grid(base, c0, t0, cs, ts)| == |cs| * |ts|
    ensures forall i, j :: 0 <= i < |cs| && 0 <= j < |ts| ==>
              Grid(base, c0, t0, cs, ts)[Pos(i, j, |ts|)] == ConfigFor(base, c0, t0, cs[i], ts[j])
    decreases |cs|
  {
    if |cs| > 0 {
      var n, m := |cs|, |ts|;
      var init := cs[..n - 1];
      GridOrder(base, c0, t0, init, ts);
      var front := Grid(base, c0, t0, init, ts);
      var row := Row(base, c0, t0, cs[n - 1], ts);
      MulStep(n, m);
      forall i, j | 0 <= i < n && 0 <= j < m
        ensures 0 <= Pos(i, j, m) < |front + row|
                && (front + row)[Pos(i, j, m)] == ConfigFor(base, c0, t0, cs[i], ts[j])
      {
        PosBound(i, j, m, n);
        if i < n - 1 {
          assert front[Pos(i, j, m)] == ConfigFor(base, c0, t0, init[i], ts[j]);
          assert init[i] == cs[i];
          ConcatLeft(front, row, Pos(i, j, m));
          assert (front + row)[Pos(i, j, m)] == ConfigFor(base, c0, t0, cs[i], ts[j]);
        } else {
          assert |front| == (n - 1) * m;
          assert Pos(i, j, m) == |front| + j;
          ConcatRight(front, row, j);
          assert row[j] == ConfigFor(base, c0, t0, cs[n - 1], ts[j]);
          assert i == n - 1;
          assert (front + row)[Pos(i, j, m)] == ConfigFor(base, c0, t0, cs[i], ts[j]);
        }
      }
    }
  }

  lemma ConcatLeft<T>(a: seq<T>, b: seq<T>, p: int)
    requires 0 <= p < |a|
    ensures (a + b)[p] == a[p]
  {
  }

  lemma ConcatRight<T>(a: seq<T>, b: seq<T>, j: int)
    requires 0 <= j < |b|
    ensures (a + b)[|a| + j] == b[j]
  {
  }

  /**
   * With duplicate-free lists the cache is cleared exactly once, for the first
   * pair. (The rule compares values, so a repeated first value clears again.)
   */
  lemma ClearOnce(base: BenchConfig, cs: seq<int>, ts: seq<int>)
    requires |cs| > 0 && |ts| > 0
    requires forall a, b :: 0 <= a < b < |cs| ==> cs[a] != cs[b]
    requires forall a, b :: 0 <= a < b < |ts| ==> ts[a] != ts[b]
    ensures forall i, j :: 0 <= i < |cs| && 0 <= j < |ts| ==>
              && 0 <= Pos(i, j, |ts|) < |SweepConfigs(base, cs, ts)|
              && (SweepConfigs(base, cs, ts)[Pos(i, j, |ts|)].clearCache <==> base.clearCache && i == 0 && j == 0)
  {
    GridOrder(base, cs[0], ts[0], cs, ts);
    forall i, j | 0 <= i < |cs| && 0 <= j < |ts| ensures 0 <= Pos(i, j, |ts|) < |cs| * |ts| {
      PosBound(i, j, |ts|, |cs|);
    }
  }

  /** Results of consecutive segments of the sweep are concatenated; the second segment's runs come later. */
  lemma {:induction false} ResultsOfConcat(caps: ProfilerCaps, env: SweepEnv, a: seq<BenchConfig>, b: seq<BenchConfig>)
    ensures ResultsOf(caps, env, a + b) == ResultsOf(caps, env, a) + ResultsOf(caps, From(env, |a|), b)
    decreases |b|
  {
    if |b| == 0 {
      assert a + b == a;
    } else {
      var b' := b[..|b| - 1];
      ResultsOfConcat(caps, env, a, b');
      assert (a + b)[..|a + b| - 1] == a + b';
      assert (a + b)[|a + b| - 1] == b[|b| - 1];
      assert From(env, |a|)(|b| - 1) == env(|a + b| - 1);
    }
  }

  /** A run that raises is skipped: the results are those of the runs around it. */
  lemma SkipRaising(caps: ProfilerCaps, env: SweepEnv, before: seq<BenchConfig>, c: BenchConfig, after: seq<BenchConfig>)
    requires BenchmarkSpec(c, caps, env(|before|)).Err?
    ensures ResultsOf(caps, env, before + [c] + after)
            == ResultsOf(caps, env, before) + ResultsOf(caps, From(env, |before| + 1), after)
  {
    ResultsOfConcat(caps, env, before + [c], after);
    ResultsOfSnoc(caps, env, before, c);
  }

  /** When no run raises, the results are the runs' records in visit order. */
  lemma {:induction false} ResultsInOrder(caps: ProfilerCaps, env: SweepEnv, configs: seq<BenchConfig>)
    requires forall k :: 0 <= k < |configs| ==> BenchmarkSpec(configs[k], caps, env(k)).Ok?
    ensures |ResultsOf(caps, env, configs)| == |configs|
    ensures forall k :: 0 <= k < |configs| ==>
              ResultsOf(caps, env, configs)[k] == BenchmarkSpec(configs[k], caps, env(k)).value
    decreases |configs|
  {
    if |configs| > 0 {
      var init, c := configs[..|configs| - 1], configs[|configs| - 1];
      ResultsInOrder(caps, env, init);
      var last := BenchmarkSpec(c, caps, env(|init|)).value;
      assert ResultsOf(caps, env, configs) == ResultsOf(caps, env, init) + [last];
      SnocIndexed(ResultsOf(caps, env, init), last);
    }
  }

  /** A pair listed twice is run twice, each run with its own environment and its own record. */
  lemma RepeatedPairRunTwice(caps: ProfilerCaps, env: SweepEnv, c: BenchConfig)
    requires BenchmarkSpec(c, caps, env(0)).Ok? && BenchmarkSpec(c, caps, env(1)).Ok?
    ensures ResultsOf(caps, env, [c, c])
            == [BenchmarkSpec(c, caps, env(0)).value, BenchmarkSpec(c, caps, env(1)).value]
  {
    ResultsOfSnoc(caps, env, [c], c);
    ResultsOfSnoc(caps, env, [], c);
    assert [c] + [c] == [c, c];
  }

  /** Appending one element keeps the earlier indices and puts it last. */
  lemma SnocIndexed<T>(s: seq<T>, x: T)
    ensures |s + [x]| == |s| + 1 && (s + [x])[|s|] == x
    ensures forall k :: 0 <= k < |s| ==> (s + [x])[k] == s[k]
  {
  }

  /** The JSON record of one result. */
  datatype JsonResult = JsonResult(
    chunkSize: int, numTokens: int, numChunks: int, retrieveTime: Option<real>,
    throughputGbps: real, dataSizeMb: real, detailedTimings: map<string, TimingStat>,
    hasProfilingData: bool, memoryErrors: nat, errorDetails: seq<string>)

  /** Infinite latency becomes `null`; profiling text becomes a flag. */
  function ToJson(r: ProfilingResult): (j: JsonResult)
    ensures j.retrieveTime.None? <==> r.retrieveTime.Inf?
    ensures r.retrieveTime.Finite? ==> j.retrieveTime == Some(r.retrieveTime.seconds)
    ensures j.hasProfilingData <==> r.profilingOutput.Some?
    ensures j.chunkSize == r.chunkSize && j.numTokens == r.numTokens && j.numChunks == r.numChunks
    ensures j.memoryErrors == r.memoryErrors && j.errorDetails == r.errorDetails
    ensures j.throughputGbps == r.throughputGbps && j.dataSizeMb == r.dataSizeMb
    ensures j.detailedTimings == r.detailedTimings
  {
    JsonResult(r.chunkSize, r.numTokens, r.numChunks,
               if r.retrieveTime.Inf? then None else Some(r.retrieveTime.seconds),
               r.throughputGbps, r.dataSizeMb, r.detailedTimings,
               r.profilingOutput.Some?, r.memoryErrors, r.errorDetails)
  }

  /** How a reader of the JSON file recovers the latency. */
  function LatencyOfJson(t: Option<real>): Latency {
    if t.None? then Inf else Finite(t.value)
  }

  /** The JSON latency field loses nothing: reading it back gives the latency. */
  lemma JsonLatencyRoundTrip(r: ProfilingResult)
    ensures LatencyOfJson(ToJson(r).retrieveTime) == r.retrieveTime
  {
  }

  /** The JSON array written for the results, in order. */
  function JsonResults(rs: seq<ProfilingResult>): (js: seq<JsonResult>)
    ensures |js| == |rs| && forall k :: 0 <= k < |rs| ==> js[k] == ToJson(rs[k])
  {
    seq(|rs|, k requires 0 <= k < |rs| => ToJson(rs[k]))
  }
}
