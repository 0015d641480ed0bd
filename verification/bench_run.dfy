/**
 * `benchmark_chunk_size`: the result of one (chunk size, token count)
 * configuration. The engine, the GPU and the clock are inputs: `ConfigEnv`
 * says whether engine creation and the store raise, what each store poll pass
 * observes, and, per retrieve iteration, how long the timed region took and
 * whether it raised.
 */
module ChunkBenchmark {
  import opened Wrappers
  import opened Strings
  import opened BenchTiming
  import opened BenchStats
  import opened StoreWait

  /** Average retrieve latency: infinite when there is no sample. */
  datatype Latency = Inf | Finite(seconds: real)

  const TokensPerBlock: int := 16
  /** Bytes per token and layer: K and V, 32 heads, head size 128, 2-byte bfloat16. */
  const BytesPerTokenPerLayer: int := 2 * 32 * 128 * 2
  const RetrieveTotal: string := "retrieve_total"
  const NoneTypeTensorText: string := "'NoneType' object has no attribute 'tensor'"
  const NoneTypeHint: string := "This error suggests storage backend returned None (likely GDS file corruption)"
  const ZeroDivisionMessage: string := "integer division or modulo by zero"

  /** Python's `//`: rounds toward negative infinity. */
  function FloorDiv(a: int, b: int): (q: int)
    requires b != 0
    ensures b > 0 ==> q * b <= a < q * b + b
    ensures b < 0 ==> q * b >= a > q * b + b
  {
    if b > 0 then a / b else (-a) / (-b)
  }

  /** `num_chunks = (num_tokens + chunk_size - 1) // chunk_size`. */
  function NumChunks(numTokens: int, chunkSize: int): int
    requires chunkSize != 0
  {
    FloorDiv(numTokens + chunkSize - 1, chunkSize)
  }

  /** `num_blocks = (num_tokens + 15) // 16`. */
  function NumBlocks(numTokens: int): int {
    FloorDiv(numTokens + TokensPerBlock - 1, TokensPerBlock)
  }

  /** For a positive divisor, `(n + d - 1) // d` is the ceiling of `n / d`. */
  lemma CeilingDivision(n: int, d: int)
    requires d > 0
    ensures var q := FloorDiv(n + d - 1, d); (q - 1) * d < n <= q * d
    ensures n >= 0 ==> FloorDiv(n + d - 1, d) >= 0
  {
    var q := FloorDiv(n + d - 1, d);
    assert (q - 1) * d == q * d - d;
  }

  /** Chunks and blocks are the ceilings of tokens per chunk and per 16 tokens. */
  lemma ChunksAndBlocks(numTokens: int, chunkSize: int)
    requires chunkSize > 0
    ensures (NumChunks(numTokens, chunkSize) - 1) * chunkSize < numTokens <= NumChunks(numTokens, chunkSize) * chunkSize
    ensures (NumBlocks(numTokens) - 1) * 16 < numTokens <= NumBlocks(numTokens) * 16
  {
    CeilingDivision(numTokens, chunkSize);
    CeilingDivision(numTokens, 16);
  }

  function DataSizeBytes(numTokens: int, numLayers: int): int {
    numTokens * numLayers * BytesPerTokenPerLayer
  }

  /** `data_size_bytes / (1024 * 1024)`. */
  function DataSizeMb(numTokens: int, numLayers: int): real {
    (DataSizeBytes(numTokens, numLayers) as real) / (1024.0 * 1024.0)
  }

  /** Each token of each layer is 16 KiB, so the size is tokens times layers over 64 MiB. */
  lemma DataSizeClosedForm(numTokens: int, numLayers: int)
    ensures DataSizeBytes(numTokens, numLayers) == numTokens * numLayers * 16384
    ensures DataSizeMb(numTokens, numLayers) == ((numTokens * numLayers) as real) / 64.0
  {
    var p := numTokens * numLayers;
    assert DataSizeBytes(numTokens, numLayers) == p * 16384;
    assert (p * 16384) as real == (p as real) * 16384.0;
  }

  /** GB/s from megabytes and the average latency: zero unless the latency is finite and positive. */
  function Throughput(dataSizeMb: real, avg: Latency): (r: real)
    ensures avg.Inf? || avg.seconds <= 0.0 ==> r == 0.0
    ensures avg.Finite? && avg.seconds > 0.0 ==> r * avg.seconds * 1024.0 == dataSizeMb
  {
    if avg.Finite? && avg.seconds > 0.0 then dataSizeMb / avg.seconds / 1024.0 else 0.0
  }

  /** The arguments of `benchmark_chunk_size` that decide its result. */
  datatype BenchConfig = BenchConfig(
    chunkSize: int, numTokens: int, numIterations: int,
    enableProfiling: bool, profilerType: string, detailedTiming: bool,
    useWeka: bool, saveHtmlReports: bool, clearCache: bool, numLayers: int)

  /**
   * How the timed part of one iteration ends: retrieve and the hit count
   * both return; retrieve raises; or retrieve returns and reading its mask
   * raises. `elapsed` is what the timer measured.
   */
  datatype RetrieveOutcome =
    | Retrieved(elapsed: real)
    | RetrieveRaised(elapsed: real, message: string)
    | MaskRaised(elapsed: real, message: string)

  /**
   * One iteration's inputs: whether preparing its buffers raises, the retrieve
   * outcome, the profiler backend's report, and whether writing the profile
   * text and the HTML report succeed.
   */
  datatype IterationEnv = IterationEnv(
    prepare: Outcome, outcome: RetrieveOutcome, report: string,
    profileWrite: Outcome, htmlWriteSucceeds: bool)

  /** One configuration's inputs: engine creation and data generation, the store, the iterations. */
  datatype ConfigEnv = ConfigEnv(engine: Outcome, store: StoreEnv, iteration: nat -> IterationEnv)

  /** `ProfilingResults`. */
  datatype ProfilingResult = ProfilingResult(
    chunkSize: int, numTokens: int, numChunks: int,
    retrieveTime: Latency, throughputGbps: real, dataSizeMb: real,
    detailedTimings: map<string, TimingStat>, profilingOutput: Option<string>,
    memoryErrors: nat, errorDetails: seq<string>)

  /** The variables the retrieve loop updates. */
  datatype LoopState = LoopState(
    timings: map<string, seq<real>>, retrieveTimes: seq<real>,
    memoryErrors: nat, errorDetails: seq<string>, profilingOutput: Option<string>)

  const InitialState: LoopState := LoopState(map[], [], 0, [], None)

  /** Every timer list holds at least one sample: a list is created only to receive one. */
  predicate NoEmptyTimer(st: LoopState) {
    forall k :: k in st.timings ==> |st.timings[k]| > 0
  }

  function IterationCount(cfg: BenchConfig): nat {
    if cfg.numIterations > 0 then cfg.numIterations else 0
  }

  /** Only the last iteration is profiled, and only when profiling is enabled. */
  predicate Profiled(cfg: BenchConfig, i: nat) {
    cfg.enableProfiling && i == cfg.numIterations - 1
  }

  /** The messages a failing iteration adds: one, or two for the 'NoneType … tensor' error. */
  function RetrieveErrorDetails(i: nat, message: string): (r: seq<string>)
    ensures 1 <= |r| <= 2
    ensures |r| == 2 <==> Contains(message, NoneTypeTensorText)
  {
    var first := "Retrieve error in iteration " + IntToString(i) + ": " + message;
    if Contains(message, NoneTypeTensorText) then [first, NoneTypeHint] else [first]
  }

  /**
   * The timing bookkeeping of one iteration. In detailed mode the timer's
   * exit records a sample whatever happens inside it; otherwise the sample is
   * appended only after retrieve has returned.
   */
  function Timed(detailed: bool, o: RetrieveOutcome, st: LoopState): LoopState {
    if detailed then st.(timings := Appended(st.timings, RetrieveTotal, o.elapsed))
    else if o.RetrieveRaised? then st
    else st.(retrieveTimes := st.retrieveTimes + [o.elapsed])
  }

  /** One pass of the retrieve loop; `Err` is an exception that leaves the configuration. */
  function IterationStep(cfg: BenchConfig, caps: ProfilerCaps, ienv: IterationEnv, i: nat, st: LoopState): Result<LoopState> {
    if ienv.prepare.Fail? then Err(ienv.prepare.error)
    else
      var st1 := Timed(cfg.detailedTiming, ienv.outcome, st);
      if !ienv.outcome.Retrieved? then
        Ok(st1.(memoryErrors := st1.memoryErrors + 1,
                errorDetails := st1.errorDetails + RetrieveErrorDetails(i, ienv.outcome.message)))
      else if !Profiled(cfg, i) then Ok(st1)
      else
        match ProfileOutput(cfg.profilerType, caps, ienv.report)
        case None => Ok(st1)
        case Some(text) =>
          if text == "" then Ok(st1)
          else if ienv.profileWrite.Fail? then Err(ienv.profileWrite.error)
          else Ok(st1.(profilingOutput := Some(text)))
  }

  /** The state after the first `k` iterations, or the exception that ended them. */
  function Iterations(cfg: BenchConfig, caps: ProfilerCaps, env: ConfigEnv, k: nat): (r: Result<LoopState>)
    ensures r.Ok? ==> NoEmptyTimer(r.value)
    decreases k
  {
    if k == 0 then Ok(InitialState)
    else
      match Iterations(cfg, caps, env, k - 1)
      case Err(e) => Err(e)
      case Ok(st) => IterationStep(cfg, caps, env.iteration(k - 1), k - 1, st)
  }

  /** An exception ends the loop: no later iteration runs and it is what the loop raises. */
  lemma {:induction false} ErrorEndsLoop(cfg: BenchConfig, caps: ProfilerCaps, env: ConfigEnv, j: nat, k: nat)
    requires j <= k && Iterations(cfg, caps, env, j).Err?
    ensures Iterations(cfg, caps, env, k) == Iterations(cfg, caps, env, j)
    decreases k
  {
    if j < k {
      ErrorEndsLoop(cfg, caps, env, j, k - 1);
    }
  }

  /** `avg_retrieve_time`: the mean of the recorded samples, infinite when there are none. */
  function AverageLatency(cfg: BenchConfig, st: LoopState): Latency
    requires NoEmptyTimer(st)
  {
    if cfg.detailedTiming && RetrieveTotal in st.timings then Finite(Mean(st.timings[RetrieveTotal]))
    else if |st.retrieveTimes| > 0 then Finite(Mean(st.retrieveTimes))
    else Inf
  }

  /** The record built after the retrieve loop. */
  function Finish(cfg: BenchConfig, st: LoopState): ProfilingResult
    requires cfg.chunkSize != 0 && NoEmptyTimer(st)
  {
    var avg := AverageLatency(cfg, st);
    var mb := DataSizeMb(cfg.numTokens, cfg.numLayers);
    ProfilingResult(cfg.chunkSize, cfg.numTokens, NumChunks(cfg.numTokens, cfg.chunkSize),
                    avg, Throughput(mb, avg), mb, Aggregate(st.timings), st.profilingOutput,
                    st.memoryErrors, st.errorDetails)
  }

  /** The record returned when the initial store raises. */
  function StoreFailedResult(cfg: BenchConfig, message: string): ProfilingResult
    requires cfg.chunkSize != 0
  {
    ProfilingResult(cfg.chunkSize, cfg.numTokens, NumChunks(cfg.numTokens, cfg.chunkSize),
                    Inf, 0.0, 0.0, map[], None, 1, ["Initial store failed: " + message])
  }

  /** What `benchmark_chunk_size` returns (`Ok`) or raises (`Err`). */
  function BenchmarkSpec(cfg: BenchConfig, caps: ProfilerCaps, env: ConfigEnv): (r: Result<ProfilingResult>)
    ensures r.Ok? ==> r.value.chunkSize == cfg.chunkSize && r.value.numTokens == cfg.numTokens
  {
    if cfg.chunkSize == 0 then Err(ZeroDivisionMessage)
    else if env.engine.Fail? then Err(env.engine.error)
    else if env.store.store.Fail? then Ok(StoreFailedResult(cfg, env.store.store.error))
    else
      match Iterations(cfg, caps, env, IterationCount(cfg))
      case Err(e) => Err(e)
      case Ok(st) => Ok(Finish(cfg, st))
  }

  /**
   * One pass of the retrieve loop: the timer samples go into `collector`,
   * the other loop variables travel in `st`.
   */
  method RetrieveIteration(cfg: BenchConfig, caps: ProfilerCaps, ienv: IterationEnv, i: nat,
                           collector: TimingCollector, st: LoopState) returns (r: Result<LoopState>)
    requires st.timings == collector.samples
    modifies collector
    ensures r == IterationStep(cfg, caps, ienv, i, st)
    ensures r.Ok? ==> collector.samples == r.value.timings
  {
    if ienv.prepare.Fail? {
      return Err(ienv.prepare.error);
    }
    var profiler: AdvancedProfiler? := null;
    if Profiled(cfg, i) {
      profiler := new AdvancedProfiler(cfg.profilerType);
      profiler.Start(caps);
    }
    var retrieveTimes := st.retrieveTimes;
    if cfg.detailedTiming {
      collector.Record(RetrieveTotal, ienv.outcome.elapsed);
    } else if !ienv.outcome.RetrieveRaised? {
      retrieveTimes := retrieveTimes + [ienv.outcome.elapsed];
    }
    var next := st.(timings := collector.samples, retrieveTimes := retrieveTimes);
    if !ienv.outcome.Retrieved? {
      var errorDetails := next.errorDetails + ["Retrieve error in iteration " + IntToString(i) + ": " + ienv.outcome.message];
      if Contains(ienv.outcome.message, NoneTypeTensorText) {
        errorDetails := errorDetails + [NoneTypeHint];
      }
      assert errorDetails == next.errorDetails + RetrieveErrorDetails(i, ienv.outcome.message);
      return Ok(next.(memoryErrors := next.memoryErrors + 1, errorDetails := errorDetails));
    }
    if profiler != null && profiler.active {
      var output := profiler.Stop(ienv.report);
      if output.Some? && output.value != "" {
        if ienv.profileWrite.Fail? {
          return Err(ienv.profileWrite.error);
        }
        next := next.(profilingOutput := output);
        if cfg.saveHtmlReports {
          var _ := profiler.SaveHtmlReport(ienv.htmlWriteSucceeds);
        }
      }
    }
    return Ok(next);
  }

  /** `benchmark_chunk_size`, with its retrieve loop. */
  method BenchmarkChunkSize(cfg: BenchConfig, caps: ProfilerCaps, env: ConfigEnv) returns (r: Result<ProfilingResult>)
    ensures r == BenchmarkSpec(cfg, caps, env)
  {
    if cfg.chunkSize == 0 {
      return Err(ZeroDivisionMessage);
    }
    if env.engine.Fail? {
      return Err(env.engine.error);
    }
    var stored, _ := EnhancedStoreWithWait(env.store);
    if stored.Err? {
      assert env.store.store.Fail? && stored.error == env.store.store.error;
      return Ok(StoreFailedResult(cfg, stored.error));
    }
    assert env.store.store.Pass?;
    var collector := new TimingCollector();
    var st := InitialState;
    var i: nat := 0;
    while i < IterationCount(cfg)
      invariant i <= IterationCount(cfg)
      invariant Iterations(cfg, caps, env, i) == Ok(st)
      invariant st.timings == collector.samples
      invariant fresh(collector)
    {
      var next := RetrieveIteration(cfg, caps, env.iteration(i), i, collector, st);
      assert Iterations(cfg, caps, env, i + 1) == next;
      if next.Err? {
        ErrorEndsLoop(cfg, caps, env, i + 1, IterationCount(cfg));
        return Err(next.error);
      }
      st := next.value;
      i := i + 1;
    }
    assert BenchmarkSpec(cfg, caps, env) == Ok(Finish(cfg, st));
    return Ok(Finish(cfg, st));
  }

  /** The elapsed times of the first `k` iterations, failed ones included. */
  function AllElapsed(env: ConfigEnv, k: nat): (r: seq<real>)
    ensures |r| == k
    decreases k
  {
    if k == 0 then [] else AllElapsed(env, k - 1) + [env.iteration(k - 1).outcome.elapsed]
  }

  /** The elapsed times of the first `k` iterations whose retrieve call returned. */
  function ReturnedElapsed(env: ConfigEnv, k: nat): seq<real>
    decreases k
  {
    if k == 0 then []
    else
      var o := env.iteration(k - 1).outcome;
      ReturnedElapsed(env, k - 1) + (if o.RetrieveRaised? then [] else [o.elapsed])
  }

  /** Number of iterations among the first `k` whose timed part raised. */
  function Failures(env: ConfigEnv, k: nat): nat
    decreases k
  {
    if k == 0 then 0
    else Failures(env, k - 1) + (if env.iteration(k - 1).outcome.Retrieved? then 0 else 1)
  }

  /**
   * In detailed mode every iteration that reaches the timed retrieve leaves
   * exactly one `retrieve_total` sample, failed or not; in plain mode only
   * those whose retrieve returned do.
   */
  lemma {:induction false} SamplesRecorded(cfg: BenchConfig, caps: ProfilerCaps, env: ConfigEnv, k: nat)
    requires Iterations(cfg, caps, env, k).Ok?
    ensures var st := Iterations(cfg, caps, env, k).value;
      && (cfg.detailedTiming ==> SampleCount(st.timings, RetrieveTotal) == k
                                  && (k > 0 ==> st.timings[RetrieveTotal] == AllElapsed(env, k))
                                  && st.retrieveTimes == [])
      && (!cfg.detailedTiming ==> st.timings == map[] && st.retrieveTimes == ReturnedElapsed(env, k))
    decreases k
  {
    if cfg.detailedTiming {
      DetailedSamples(cfg, caps, env, k);
    } else {
      PlainSamples(cfg, caps, env, k);
    }
  }

  lemma {:induction false} DetailedSamples(cfg: BenchConfig, caps: ProfilerCaps, env: ConfigEnv, k: nat)
    requires cfg.detailedTiming && Iterations(cfg, caps, env, k).Ok?
    ensures var st := Iterations(cfg, caps, env, k).value;
      SampleCount(st.timings, RetrieveTotal) == k && (k > 0 ==> st.timings[RetrieveTotal] == AllElapsed(env, k))
      && st.retrieveTimes == []
    decreases k
  {
    if k > 0 {
      var prev := Iterations(cfg, caps, env, k - 1).value;
      DetailedSamples(cfg, caps, env, k - 1);
      StepTiming(cfg, caps, env.iteration(k - 1), k - 1, prev);
      RecordSample(prev.timings, env.iteration(k - 1).outcome.elapsed, AllElapsed(env, k - 1), k - 1);
    }
  }

  /** Recording one more retrieve sample extends the samples seen so far by it. */
  lemma RecordSample(timings: map<string, seq<real>>, elapsed: real, samples: seq<real>, n: nat)
    requires SampleCount(timings, RetrieveTotal) == n
    requires n > 0 ==> timings[RetrieveTotal] == samples
    requires n == 0 ==> samples == []
    ensures var after := Appended(timings, RetrieveTotal, elapsed);
      SampleCount(after, RetrieveTotal) == n + 1 && after[RetrieveTotal] == samples + [elapsed]
  {
    if n == 0 && RetrieveTotal in timings {
      assert timings[RetrieveTotal] == [];
    }
  }

  lemma {:induction false} PlainSamples(cfg: BenchConfig, caps: ProfilerCaps, env: ConfigEnv, k: nat)
    requires !cfg.detailedTiming && Iterations(cfg, caps, env, k).Ok?
    ensures var st := Iterations(cfg, caps, env, k).value;
      st.timings == map[] && st.retrieveTimes == ReturnedElapsed(env, k)
    decreases k
  {
    if k > 0 {
      PlainSamples(cfg, caps, env, k - 1);
      StepTiming(cfg, caps, env.iteration(k - 1), k - 1, Iterations(cfg, caps, env, k - 1).value);
    }
  }

  /** An iteration that does not raise keeps the timing bookkeeping of its timed retrieve. */
  lemma StepTiming(cfg: BenchConfig, caps: ProfilerCaps, ienv: IterationEnv, i: nat, st: LoopState)
    requires IterationStep(cfg, caps, ienv, i, st).Ok?
    ensures var st1 := Timed(cfg.detailedTiming, ienv.outcome, st);
      var r := IterationStep(cfg, caps, ienv, i, st).value;
      r.timings == st1.timings && r.retrieveTimes == st1.retrieveTimes
  {
  }

  /**
   * Each failing iteration adds one to `memory_errors` and one or two
   * messages, so the count never exceeds the number of messages.
   */
  lemma {:induction false} ErrorsCounted(cfg: BenchConfig, caps: ProfilerCaps, env: ConfigEnv, k: nat)
    requires Iterations(cfg, caps, env, k).Ok?
    ensures var st := Iterations(cfg, caps, env, k).value;
      st.memoryErrors == Failures(env, k) && st.memoryErrors <= |st.errorDetails| <= 2 * st.memoryErrors
    decreases k
  {
    if k > 0 {
      ErrorsCounted(cfg, caps, env, k - 1);
      StepErrors(cfg, caps, env.iteration(k - 1), k - 1, Iterations(cfg, caps, env, k - 1).value);
    }
  }

  /** One iteration adds one error and one or two messages when its retrieve fails, and nothing otherwise. */
  lemma StepErrors(cfg: BenchConfig, caps: ProfilerCaps, ienv: IterationEnv, i: nat, st: LoopState)
    requires IterationStep(cfg, caps, ienv, i, st).Ok?
    ensures var r := IterationStep(cfg, caps, ienv, i, st).value;
      if ienv.outcome.Retrieved? then r.memoryErrors == st.memoryErrors && r.errorDetails == st.errorDetails
      else r.memoryErrors == st.memoryErrors + 1 && |st.errorDetails| + 1 <= |r.errorDetails| <= |st.errorDetails| + 2
  {
  }

  /** Retrieve errors never end the loop: only preparation or a profile write can. */
  lemma {:induction false} OnlySetupErrorsEscape(cfg: BenchConfig, caps: ProfilerCaps, env: ConfigEnv, k: nat)
    requires forall j :: 0 <= j < k ==> env.iteration(j).prepare.Pass? && env.iteration(j).profileWrite.Pass?
    ensures Iterations(cfg, caps, env, k).Ok?
    decreases k
  {
    if k > 0 {
      OnlySetupErrorsEscape(cfg, caps, env, k - 1);
    }
  }

  /** A raising store gives the fixed failure record and runs no retrieve iteration. */
  lemma StoreFailureShortCircuit(cfg: BenchConfig, caps: ProfilerCaps, env: ConfigEnv)
    requires cfg.chunkSize != 0 && env.engine.Pass? && env.store.store.Fail?
    ensures var r := BenchmarkSpec(cfg, caps, env);
      && r.Ok? && r.value.retrieveTime == Inf && r.value.throughputGbps == 0.0
      && r.value.dataSizeMb == 0.0 && r.value.memoryErrors == 1
      && r.value.errorDetails == ["Initial store failed: " + env.store.store.error]
      && r.value.detailedTimings == map[] && r.value.profilingOutput == None
  {
  }

  /**
   * With detailed timing, the latency of a configuration whose store succeeded
   * is infinite only when it ran no iteration; otherwise it is the mean over
   * all iterations, failed ones included.
   */
  lemma DetailedLatency(cfg: BenchConfig, caps: ProfilerCaps, env: ConfigEnv)
    requires cfg.detailedTiming && env.store.store.Pass?
    requires BenchmarkSpec(cfg, caps, env).Ok?
    ensures var res := BenchmarkSpec(cfg, caps, env).value;
      && (res.retrieveTime.Inf? <==> IterationCount(cfg) == 0)
      && (IterationCount(cfg) > 0 ==> res.retrieveTime == Finite(Mean(AllElapsed(env, IterationCount(cfg)))))
  {
    SamplesRecorded(cfg, caps, env, IterationCount(cfg));
  }
}
