/**
 * The host launch of `tools/amgctl/cmd/host.go`: the `uv run vllm serve` argv
 * (`buildHostVllmCommand`), the environment list handed to it
 * (`setupHostEnvironmentVariables`), the empty-command guard of
 * `executeHostVllmCommand` and the order of the steps in `runHostLaunch`.
 */
module HostLaunch {
  import opened Wrappers
  import opened Strings
  import opened LaunchSettings
  import opened GpuAllocation

  const NoPrefixCachingFlag: string := "--no-enable-prefix-caching"
  const LoadFormatFlag: string := "--load-format"

  /** The argv up to and including the tensor-parallel size. */
  function ServeHead(model: string, tp: int): (r: seq<string>)
    ensures |r| == 7
  {
    ["uv", "run", "vllm", "serve", model, "--tensor-parallel-size", IntToString(tp)]
  }

  /** The options the builder appends after the tensor-parallel size, before the user's `--vllm-arg` values. */
  function HostServeOptions(s: Settings): seq<string>
  {
    ServeOptions(s)
    + Opt(s.noPrefixCaching, [NoPrefixCachingFlag])
    + ["--kv-transfer-config", KvTransferConfig]
    + Opt(!s.skipFastSafetensors, [LoadFormatFlag, "fastsafetensors"])
  }

  /** Everything the builder appends itself. */
  function HostServeFixed(model: string, tp: int, s: Settings): seq<string>
  {
    ServeHead(model, tp) + HostServeOptions(s)
  }

  /** The argv `buildHostVllmCommand` returns (its error result is always nil). */
  function HostVllmCommand(model: string, tp: int, s: Settings): seq<string>
  {
    HostServeFixed(model, tp, s) + NonEmpty(s.vllmArgs)
  }

  /** `buildHostVllmCommand`: one `append` per option, then the user arguments. */
  method BuildHostVllmCommand(model: string, tp: int, s: Settings) returns (vllmCmd: seq<string>)
    ensures vllmCmd == HostVllmCommand(model, tp, s)
  {
    vllmCmd := ["uv", "run", "vllm", "serve", model];
    vllmCmd := vllmCmd + ["--tensor-parallel-size", IntToString(tp)];
    ghost var head := vllmCmd;
    vllmCmd := vllmCmd + ["--gpu-memory-utilization", s.gpuMemUtil];
    vllmCmd := vllmCmd + ["--max-num-seqs", IntToString(s.maxSequences)];
    vllmCmd := vllmCmd + ["--max-model-len", IntToString(s.maxModelLen)];
    vllmCmd := vllmCmd + ["--max-num-batched-tokens", IntToString(s.maxBatchedTokens)];
    vllmCmd := vllmCmd + ["--port", IntToString(s.port)];
    vllmCmd := vllmCmd + ["--host", "0.0.0.0"];
    SameElements(head, ServeHead(model, tp));
    SameElements(vllmCmd, head + ServeOptions(s));
    ghost var withOptions := vllmCmd;
    if s.noPrefixCaching {
      vllmCmd := vllmCmd + [NoPrefixCachingFlag];
    }
    assert vllmCmd == withOptions + Opt(s.noPrefixCaching, [NoPrefixCachingFlag]);
    vllmCmd := vllmCmd + ["--kv-transfer-config", KvTransferConfig];
    ghost var withKv := vllmCmd;
    if !s.skipFastSafetensors {
      vllmCmd := vllmCmd + [LoadFormatFlag, "fastsafetensors"];
    }
    assert vllmCmd == withKv + Opt(!s.skipFastSafetensors, [LoadFormatFlag, "fastsafetensors"]);
    AppendAssoc(head, ServeOptions(s), Opt(s.noPrefixCaching, [NoPrefixCachingFlag]));
    AppendAssoc(head, ServeOptions(s) + Opt(s.noPrefixCaching, [NoPrefixCachingFlag]), ["--kv-transfer-config", KvTransferConfig]);
    AppendAssoc(head, ServeOptions(s) + Opt(s.noPrefixCaching, [NoPrefixCachingFlag]) + ["--kv-transfer-config", KvTransferConfig],
      Opt(!s.skipFastSafetensors, [LoadFormatFlag, "fastsafetensors"]));
    assert vllmCmd == HostServeFixed(model, tp, s);
    vllmCmd := AppendNonEmpty(vllmCmd, s.vllmArgs);
  }

  /** The argv begins `uv run vllm serve <model> --tensor-parallel-size TP`. */
  lemma HostCommandStart(model: string, tp: int, s: Settings)
    ensures |HostVllmCommand(model, tp, s)| >= 7
    ensures HostVllmCommand(model, tp, s)[..7] ==
      ["uv", "run", "vllm", "serve", model, "--tensor-parallel-size", IntToString(tp)]
  {
    var head := ServeHead(model, tp);
    AppendAssoc(head, HostServeOptions(s), NonEmpty(s.vllmArgs));
    ConcatHalves(head, HostServeOptions(s) + NonEmpty(s.vllmArgs));
  }

  /** The literal words of the argv other than the two optional flags. */
  const ServeWords: seq<string> := ["uv", "run", "vllm", "serve", "--tensor-parallel-size",
    "--gpu-memory-utilization", "--max-num-seqs", "--max-model-len", "--max-num-batched-tokens",
    "--port", "--host", "0.0.0.0", "--kv-transfer-config", KvTransferConfig, "fastsafetensors"]

  /** The literal words of the fixed part of the argv are neither optional flag. */
  lemma ServeWordsAreNotOptionalFlags()
    ensures forall w :: w in ServeWords ==> w != NoPrefixCachingFlag && w != LoadFormatFlag
    ensures NoPrefixCachingFlag != LoadFormatFlag
  {
  }

  /** The words of `HostServeFixed` other than the two optional flags. */
  lemma FixedWords(model: string, tp: int, s: Settings, w: string)
    requires w in HostServeFixed(model, tp, s)
    ensures w in ServeWords || w == model || w == s.gpuMemUtil
      || w == IntToString(tp) || w == IntToString(s.maxSequences) || w == IntToString(s.maxModelLen)
      || w == IntToString(s.maxBatchedTokens) || w == IntToString(s.port)
      || (s.noPrefixCaching && w == NoPrefixCachingFlag)
      || (!s.skipFastSafetensors && w == LoadFormatFlag)
  {
  }

  /** A flag starting with "--" is never the text of a number. */
  lemma NumbersAreNotFlags(model: string, tp: int, s: Settings, flag: string)
    requires |flag| >= 2 && flag[1] == '-'
    ensures flag != IntToString(tp) && flag != IntToString(s.maxSequences) && flag != IntToString(s.maxModelLen)
    ensures flag != IntToString(s.maxBatchedTokens) && flag != IntToString(s.port)
  {
    IntToStringNotFlag(tp);
    IntToStringNotFlag(s.maxSequences);
    IntToStringNotFlag(s.maxModelLen);
    IntToStringNotFlag(s.maxBatchedTokens);
    IntToStringNotFlag(s.port);
  }

  /**
   * Before the user arguments, `--no-enable-prefix-caching` appears iff the
   * setting is on, and `--load-format` iff fastsafetensors is not skipped
   * (unless the model name or the memory fraction is itself that word).
   */
  lemma HostOptionalFlags(model: string, tp: int, s: Settings)
    requires model != NoPrefixCachingFlag && s.gpuMemUtil != NoPrefixCachingFlag
    requires model != LoadFormatFlag && s.gpuMemUtil != LoadFormatFlag
    ensures NoPrefixCachingFlag in HostServeFixed(model, tp, s) <==> s.noPrefixCaching
    ensures LoadFormatFlag in HostServeFixed(model, tp, s) <==> !s.skipFastSafetensors
  {
    var fixed := HostServeFixed(model, tp, s);
    ServeWordsAreNotOptionalFlags();
    NumbersAreNotFlags(model, tp, s, NoPrefixCachingFlag);
    NumbersAreNotFlags(model, tp, s, LoadFormatFlag);
    if NoPrefixCachingFlag in fixed {
      FixedWords(model, tp, s, NoPrefixCachingFlag);
    }
    if LoadFormatFlag in fixed {
      FixedWords(model, tp, s, LoadFormatFlag);
    }
    if s.noPrefixCaching {
      assert fixed[19] == NoPrefixCachingFlag;
    }
    if !s.skipFastSafetensors {
      assert fixed[|fixed| - 2] == LoadFormatFlag;
    }
  }

  /** The KV-transfer configuration is always passed, as one argument after its flag. */
  lemma HostKvTransferAlways(model: string, tp: int, s: Settings)
    ensures var k := 19 + |Opt(s.noPrefixCaching, [NoPrefixCachingFlag])|;
      k + 1 < |HostVllmCommand(model, tp, s)|
      && HostVllmCommand(model, tp, s)[k] == "--kv-transfer-config"
      && HostVllmCommand(model, tp, s)[k + 1] == KvTransferConfig
  {
  }

  /** The user arguments come last, in order, without the empty ones, and each non-empty one is kept. */
  lemma HostUserArgsLast(model: string, tp: int, s: Settings)
    ensures var cmd := HostVllmCommand(model, tp, s);
      |NonEmpty(s.vllmArgs)| <= |cmd|
      && cmd[|cmd| - |NonEmpty(s.vllmArgs)|..] == NonEmpty(s.vllmArgs)
    ensures forall a :: a in s.vllmArgs && a != "" ==> a in NonEmpty(s.vllmArgs)
    ensures forall a :: a in NonEmpty(s.vllmArgs) ==> a != "" && a in s.vllmArgs
  {
    NonEmptyKeeps(s.vllmArgs);
    var cmd := HostVllmCommand(model, tp, s);
    assert cmd[|cmd| - |NonEmpty(s.vllmArgs)|..] == NonEmpty(s.vllmArgs);
  }

  /** The variables `setupHostEnvironmentVariables` sets itself, before the user's `--vllm-env` entries. */
  function HostEnvFixed(cudaVisibleDevices: string, cufileFound: bool, cufilePath: string, s: Settings): seq<string>
  {
    Opt(cudaVisibleDevices != "" && s.gpuSlots != "", [Entry("CUDA_VISIBLE_DEVICES", cudaVisibleDevices)])
    + Opt(cufileFound, [Entry("CUFILE_ENV_PATH_JSON", cufilePath)])
    + LmcacheEnv("LMCACHE_WEKA_PATH", s)
    + [Entry("HF_HOME", s.hfHome)]
    + Opt(!s.noPrometheus, [Entry("PROMETHEUS_MULTIPROC_DIR", s.prometheusDir)])
    + Opt(!s.skipFastSafetensors, [Entry("USE_FASTSAFETENSOR", "true")])
  }

  /** The environment list `setupHostEnvironmentVariables` returns (its error is always nil). */
  function HostEnv(cudaVisibleDevices: string, cufileFound: bool, cufilePath: string, s: Settings): seq<string>
  {
    HostEnvFixed(cudaVisibleDevices, cufileFound, cufilePath, s) + NonEmpty(s.vllmEnv)
  }

  /**
   * `setupHostEnvironmentVariables`. Whether `<base>/cufile.json` exists
   * (`os.Stat` succeeding) is the input `cufileFound`; `cufilePath` is that
   * joined path.
   */
  method SetupHostEnvironmentVariables(cudaVisibleDevices: string, cufileFound: bool, cufilePath: string, s: Settings)
    returns (envVars: seq<string>)
    ensures envVars == HostEnv(cudaVisibleDevices, cufileFound, cufilePath, s)
  {
    envVars := [];
    if cudaVisibleDevices != "" && s.gpuSlots != "" {
      envVars := envVars + [Entry("CUDA_VISIBLE_DEVICES", cudaVisibleDevices)];
    }
    ghost var e1 := envVars;
    assert e1 == Opt(cudaVisibleDevices != "" && s.gpuSlots != "", [Entry("CUDA_VISIBLE_DEVICES", cudaVisibleDevices)]);
    if cufileFound {
      envVars := envVars + [Entry("CUFILE_ENV_PATH_JSON", cufilePath)];
    }
    assert envVars == e1 + Opt(cufileFound, [Entry("CUFILE_ENV_PATH_JSON", cufilePath)]);
    ghost var e2 := envVars;
    envVars := envVars + [Entry("LMCACHE_WEKA_PATH", s.lmcachePath)];
    envVars := envVars + [Entry("LMCACHE_CHUNK_SIZE", IntToString(s.lmcacheChunkSize))];
    envVars := envVars + [Entry("LMCACHE_EXTRA_CONFIG", ExtraConfig(s.lmcacheGdsThreads))];
    envVars := envVars + [Entry("LMCACHE_CUFILE_BUFFER_SIZE", s.lmcacheCufileBufferSize)];
    envVars := envVars + [Entry("LMCACHE_LOCAL_CPU", BoolToString(s.lmcacheLocalCpu))];
    envVars := envVars + [Entry("LMCACHE_SAVE_DECODE_CACHE", BoolToString(s.lmcacheSaveDecodeCache))];
    AppendSix(e2, Entry("LMCACHE_WEKA_PATH", s.lmcachePath),
      Entry("LMCACHE_CHUNK_SIZE", IntToString(s.lmcacheChunkSize)),
      Entry("LMCACHE_EXTRA_CONFIG", ExtraConfig(s.lmcacheGdsThreads)),
      Entry("LMCACHE_CUFILE_BUFFER_SIZE", s.lmcacheCufileBufferSize),
      Entry("LMCACHE_LOCAL_CPU", BoolToString(s.lmcacheLocalCpu)),
      Entry("LMCACHE_SAVE_DECODE_CACHE", BoolToString(s.lmcacheSaveDecodeCache)));
    assert envVars == e2 + LmcacheEnv("LMCACHE_WEKA_PATH", s);
    envVars := envVars + [Entry("HF_HOME", s.hfHome)];
    ghost var e3 := envVars;
    if !s.noPrometheus {
      envVars := envVars + [Entry("PROMETHEUS_MULTIPROC_DIR", s.prometheusDir)];
    }
    assert envVars == e3 + Opt(!s.noPrometheus, [Entry("PROMETHEUS_MULTIPROC_DIR", s.prometheusDir)]);
    ghost var e4 := envVars;
    if !s.skipFastSafetensors {
      envVars := envVars + [Entry("USE_FASTSAFETENSOR", "true")];
    }
    assert envVars == e4 + Opt(!s.skipFastSafetensors, [Entry("USE_FASTSAFETENSOR", "true")]);
    assert envVars == HostEnvFixed(cudaVisibleDevices, cufileFound, cufilePath, s);
    envVars := AppendNonEmpty(envVars, s.vllmEnv);
  }

  /** The names of the variables the host builder sets itself, in order. */
  function HostEnvFixedKeys(cudaVisibleDevices: string, cufileFound: bool, s: Settings): seq<string>
  {
    Opt(cudaVisibleDevices != "" && s.gpuSlots != "", ["CUDA_VISIBLE_DEVICES"])
    + Opt(cufileFound, ["CUFILE_ENV_PATH_JSON"])
    + ["LMCACHE_WEKA_PATH", "LMCACHE_CHUNK_SIZE", "LMCACHE_EXTRA_CONFIG",
       "LMCACHE_CUFILE_BUFFER_SIZE", "LMCACHE_LOCAL_CPU", "LMCACHE_SAVE_DECODE_CACHE"]
    + ["HF_HOME"]
    + Opt(!s.noPrometheus, ["PROMETHEUS_MULTIPROC_DIR"])
    + Opt(!s.skipFastSafetensors, ["USE_FASTSAFETENSOR"])
  }

  /**
   * The variables the host builder sets itself, in order: `CUDA_VISIBLE_DEVICES`
   * only with gpu-slots (and devices), `CUFILE_ENV_PATH_JSON` only when the file
   * exists, the LMCache block and `HF_HOME` always, `PROMETHEUS_MULTIPROC_DIR`
   * unless disabled, `USE_FASTSAFETENSOR` unless skipped.
   */
  lemma HostEnvKeys(cudaVisibleDevices: string, cufileFound: bool, cufilePath: string, s: Settings)
    ensures Keys(HostEnvFixed(cudaVisibleDevices, cufileFound, cufilePath, s))
      == HostEnvFixedKeys(cudaVisibleDevices, cufileFound, s)
  {
    CudaNamePlain();
    CufileNamePlain();
    LmcachePathNamePlain();
    HfHomeNamePlain();
    PrometheusNamePlain();
    FastSafetensorNamePlain();
    var a := Opt(cudaVisibleDevices != "" && s.gpuSlots != "", [Entry("CUDA_VISIBLE_DEVICES", cudaVisibleDevices)]);
    var b := Opt(cufileFound, [Entry("CUFILE_ENV_PATH_JSON", cufilePath)]);
    var c := LmcacheEnv("LMCACHE_WEKA_PATH", s);
    var d := [Entry("HF_HOME", s.hfHome)];
    var e := Opt(!s.noPrometheus, [Entry("PROMETHEUS_MULTIPROC_DIR", s.prometheusDir)]);
    var f := Opt(!s.skipFastSafetensors, [Entry("USE_FASTSAFETENSOR", "true")]);
    KeysOfOptEntry(cudaVisibleDevices != "" && s.gpuSlots != "", "CUDA_VISIBLE_DEVICES", cudaVisibleDevices);
    KeysOfOptEntry(cufileFound, "CUFILE_ENV_PATH_JSON", cufilePath);
    LmcacheEnvKeys("LMCACHE_WEKA_PATH", s);
    KeysOfOptEntry(true, "HF_HOME", s.hfHome);
    KeysOfOptEntry(!s.noPrometheus, "PROMETHEUS_MULTIPROC_DIR", s.prometheusDir);
    KeysOfOptEntry(!s.skipFastSafetensors, "USE_FASTSAFETENSOR", "true");
    KeysConcat(a, b);
    KeysConcat(a + b, c);
    KeysConcat(a + b + c, d);
    KeysConcat(a + b + c + d, e);
    KeysConcat(a + b + c + d + e, f);
  }

  /** The user's `--vllm-env` entries come last, in order, without the empty ones. */
  lemma HostUserEnvLast(cudaVisibleDevices: string, cufileFound: bool, cufilePath: string, s: Settings)
    ensures var env := HostEnv(cudaVisibleDevices, cufileFound, cufilePath, s);
      var n := |HostEnvFixed(cudaVisibleDevices, cufileFound, cufilePath, s)|;
      n <= |env| && env[n..] == NonEmpty(s.vllmEnv)
      && |env| == n + |NonEmpty(s.vllmEnv)|
  {
    ConcatHalves(HostEnvFixed(cudaVisibleDevices, cufileFound, cufilePath, s), NonEmpty(s.vllmEnv));
  }

  /** The guard of `executeHostVllmCommand`: an empty argv is refused before anything runs. */
  function CheckCommand(vllmCmd: seq<string>, run: Outcome): (r: Outcome)
  {
    if |vllmCmd| == 0 then Fail("vLLM command is empty")
    else if run.Fail? then Fail("vLLM command failed: " + run.error)
    else Pass
  }

  /** An empty argv is refused with its own message; a non-empty one reports how the process ended. */
  lemma CheckCommandEmpty(vllmCmd: seq<string>, run: Outcome)
    ensures |vllmCmd| == 0 <==> CheckCommand(vllmCmd, run) == Fail("vLLM command is empty")
    ensures |vllmCmd| > 0 ==> (CheckCommand(vllmCmd, run).Pass? <==> run.Pass?)
  {
    if |vllmCmd| > 0 && run.Fail? {
      assert ("vLLM command failed: " + run.error)[13] == 'f';
    }
  }

  /** The argv `buildHostVllmCommand` returns is never empty, so the guard lets it through. */
  lemma HostCommandNeverEmpty(model: string, tp: int, s: Settings, run: Outcome)
    ensures CheckCommand(HostVllmCommand(model, tp, s), run).Pass? <==> run.Pass?
  {
    HostCommandStart(model, tp, s);
  }

  /** How one `runHostLaunch` ends. */
  datatype HostRun =
    | Refused(error: string)
    | DryRun(vllmCmd: seq<string>, envVars: seq<string>)
    | Launched(vllmCmd: seq<string>, envVars: seq<string>, outcome: Outcome)

  /**
   * `runHostLaunch`, with the effects as inputs: the preflight outcome, the
   * result of generating cufile.json, the detected GPU count, whether
   * cufile.json exists and what the vLLM process reports.
   */
  function RunHostLaunch(model: string, s: Settings, preflight: Outcome, cufileGeneration: Outcome,
                         gpuCount: Result<int>, cufileFound: bool, cufilePath: string, run: Outcome): HostRun
  {
    if s.noPrometheus && s.prometheusDir != DefaultPrometheusMultiprocDir then
      Refused("--no-prometheus and --prometheus-multiproc-dir flags are mutually exclusive")
    else if preflight.Fail? then Refused(preflight.error)
    else if s.generateCufileJson && !s.dryRun && cufileGeneration.Fail? then
      Refused("failed to generate cufile.json: " + cufileGeneration.error)
    else
      var alloc := Allocate(s.gpuSlots, s.tensorParallelSize, gpuCount);
      if alloc.Err? then Refused(alloc.error)
      else
        var vllmCmd := HostVllmCommand(model, alloc.value.tensorParallelSize, s);
        var envVars := HostEnv(alloc.value.cudaVisibleDevices, cufileFound, cufilePath, s);
        if s.dryRun then DryRun(vllmCmd, envVars)
        else Launched(vllmCmd, envVars, CheckCommand(vllmCmd, run))
  }

  /** Disabling prometheus while also moving its directory is refused before any other step. */
  lemma HostRunConflict(model: string, s: Settings, preflight: Outcome, cufileGeneration: Outcome,
                        gpuCount: Result<int>, cufileFound: bool, cufilePath: string, run: Outcome)
    requires s.noPrometheus && s.prometheusDir != DefaultPrometheusMultiprocDir
    ensures RunHostLaunch(model, s, preflight, cufileGeneration, gpuCount, cufileFound, cufilePath, run)
      == Refused("--no-prometheus and --prometheus-multiproc-dir flags are mutually exclusive")
  {
  }

  /** A dry run never starts vLLM, and only a dry run stops at showing the argv. */
  lemma HostRunDry(model: string, s: Settings, preflight: Outcome, cufileGeneration: Outcome,
                   gpuCount: Result<int>, cufileFound: bool, cufilePath: string, run: Outcome)
    ensures var r := RunHostLaunch(model, s, preflight, cufileGeneration, gpuCount, cufileFound, cufilePath, run);
      (r.DryRun? ==> s.dryRun) && (r.Launched? ==> !s.dryRun)
  {
  }

  /**
   * A run that gets past the checks passed the preflight, allocated the GPUs and
   * uses that allocation in both the argv and the environment.
   */
  lemma HostRunUsesAllocation(model: string, s: Settings, preflight: Outcome, cufileGeneration: Outcome,
                              gpuCount: Result<int>, cufileFound: bool, cufilePath: string, run: Outcome)
    ensures var r := RunHostLaunch(model, s, preflight, cufileGeneration, gpuCount, cufileFound, cufilePath, run);
      var alloc := Allocate(s.gpuSlots, s.tensorParallelSize, gpuCount);
      !r.Refused? ==>
        preflight.Pass? && alloc.Ok?
        && r.vllmCmd == HostVllmCommand(model, alloc.value.tensorParallelSize, s)
        && r.envVars == HostEnv(alloc.value.cudaVisibleDevices, cufileFound, cufilePath, s)
  {
  }

  /** A launch fails exactly when the vLLM process does: the argv is never empty. */
  lemma HostRunOutcome(model: string, s: Settings, preflight: Outcome, cufileGeneration: Outcome,
                       gpuCount: Result<int>, cufileFound: bool, cufilePath: string, run: Outcome)
    ensures var r := RunHostLaunch(model, s, preflight, cufileGeneration, gpuCount, cufileFound, cufilePath, run);
      r.Launched? ==> (r.outcome.Pass? <==> run.Pass?)
  {
    var alloc := Allocate(s.gpuSlots, s.tensorParallelSize, gpuCount);
    if alloc.Ok? {
      HostCommandNeverEmpty(model, alloc.value.tensorParallelSize, s, run);
    }
  }
}
