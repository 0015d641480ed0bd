/**
 * `amgctl docker launch` (tools/amgctl/cmd/docker-launch.go): a `docker run`
 * argv whose container command is `amgctl host launch`, forwarding only the
 * options the user set explicitly.
 */
module DockerLaunch {
  import opened Wrappers
  import opened Strings
  import opened LaunchSettings
  import opened GpuAllocation

  // ---------------------------------------------------------------------
  // The container environment
  // ---------------------------------------------------------------------

  /** The variables the generator sets itself, before the user's `--vllm-env` entries. */
  function DockerEnvFixed(cudaVisibleDevices: string, s: Settings): seq<string>
  {
    Opt(cudaVisibleDevices != "" && s.gpuSlots != "", [Entry("CUDA_VISIBLE_DEVICES", cudaVisibleDevices)])
    + LmcacheEnv("LMCACHE_WEKA_PATH", s)
    + [Entry("HF_HOME", s.hfHome), Entry("PROMETHEUS_MULTIPROC_DIR", s.prometheusDir)]
    + Opt(!s.skipFastSafetensors, [Entry("USE_FASTSAFETENSOR", "true")])
  }

  /** The environment the container receives. */
  function DockerEnv(cudaVisibleDevices: string, s: Settings): seq<string>
  {
    DockerEnvFixed(cudaVisibleDevices, s) + NonEmpty(s.vllmEnv)
  }

  /** The environment part of the argv, as the generator appends it. */
  function DockerEnvArgs(cudaVisibleDevices: string, s: Settings): seq<string>
  {
    CudaArgs(cudaVisibleDevices, s)
    + DockerLmcacheArgs("LMCACHE_WEKA_PATH", s)
    + ["-e", Entry("HF_HOME", s.hfHome), "-e", Entry("PROMETHEUS_MULTIPROC_DIR", s.prometheusDir)]
    + Opt(!s.skipFastSafetensors, ["-e", Entry("USE_FASTSAFETENSOR", "true")])
    + FlagEach("-e", s.vllmEnv)
  }

  /** The environment appends, from `CUDA_VISIBLE_DEVICES` to the last `--vllm-env` entry. */
  method AppendDockerEnv(cmd0: seq<string>, cudaVisibleDevices: string, s: Settings) returns (cmd: seq<string>)
    ensures cmd == cmd0 + DockerEnvArgs(cudaVisibleDevices, s)
  {
    cmd := cmd0;
    if cudaVisibleDevices != "" && s.gpuSlots != "" {
      cmd := cmd + ["-e", Entry("CUDA_VISIBLE_DEVICES", cudaVisibleDevices)];
    }
    assert cmd == cmd0 + CudaArgs(cudaVisibleDevices, s);
    ghost var c1 := cmd;
    cmd := cmd + ["-e", Entry("LMCACHE_WEKA_PATH", s.lmcachePath)];
    cmd := cmd + ["-e", Entry("LMCACHE_CHUNK_SIZE", IntToString(s.lmcacheChunkSize))];
    cmd := cmd + ["-e", Entry("LMCACHE_EXTRA_CONFIG", ExtraConfig(s.lmcacheGdsThreads))];
    cmd := cmd + ["-e", Entry("LMCACHE_CUFILE_BUFFER_SIZE", s.lmcacheCufileBufferSize)];
    cmd := cmd + ["-e", Entry("LMCACHE_LOCAL_CPU", BoolToString(s.lmcacheLocalCpu))];
    cmd := cmd + ["-e", Entry("LMCACHE_SAVE_DECODE_CACHE", BoolToString(s.lmcacheSaveDecodeCache))];
    AppendLmcacheArgs(c1, "LMCACHE_WEKA_PATH", s);
    assert cmd == c1 + DockerLmcacheArgs("LMCACHE_WEKA_PATH", s);
    ghost var c2 := cmd;
    cmd := cmd + ["-e", Entry("HF_HOME", s.hfHome)];
    cmd := cmd + ["-e", Entry("PROMETHEUS_MULTIPROC_DIR", s.prometheusDir)];
    assert cmd == c2 + ["-e", Entry("HF_HOME", s.hfHome), "-e", Entry("PROMETHEUS_MULTIPROC_DIR", s.prometheusDir)];
    ghost var c3 := cmd;
    if !s.skipFastSafetensors {
      cmd := cmd + ["-e", Entry("USE_FASTSAFETENSOR", "true")];
    }
    assert cmd == c3 + Opt(!s.skipFastSafetensors, ["-e", Entry("USE_FASTSAFETENSOR", "true")]);
    AppendAssoc(cmd0, CudaArgs(cudaVisibleDevices, s), DockerLmcacheArgs("LMCACHE_WEKA_PATH", s));
    ghost var fixedArgs := CudaArgs(cudaVisibleDevices, s) + DockerLmcacheArgs("LMCACHE_WEKA_PATH", s);
    AppendAssoc(cmd0, fixedArgs, ["-e", Entry("HF_HOME", s.hfHome), "-e", Entry("PROMETHEUS_MULTIPROC_DIR", s.prometheusDir)]);
    fixedArgs := fixedArgs + ["-e", Entry("HF_HOME", s.hfHome), "-e", Entry("PROMETHEUS_MULTIPROC_DIR", s.prometheusDir)];
    AppendAssoc(cmd0, fixedArgs, Opt(!s.skipFastSafetensors, ["-e", Entry("USE_FASTSAFETENSOR", "true")]));
    fixedArgs := fixedArgs + Opt(!s.skipFastSafetensors, ["-e", Entry("USE_FASTSAFETENSOR", "true")]);
    assert cmd == cmd0 + fixedArgs;
    AppendAssoc(cmd0, fixedArgs, FlagEach("-e", s.vllmEnv));
    cmd := AppendFlagEach(cmd, "-e", s.vllmEnv);
  }

  /** Every variable of the container environment is passed as its own `-e` argument, in order. */
  lemma DockerEnvPaired(cudaVisibleDevices: string, s: Settings)
    ensures DockerEnvArgs(cudaVisibleDevices, s) == FlagEach("-e", DockerEnv(cudaVisibleDevices, s))
  {
    var a := Opt(cudaVisibleDevices != "" && s.gpuSlots != "", [Entry("CUDA_VISIBLE_DEVICES", cudaVisibleDevices)]);
    var b := LmcacheEnv("LMCACHE_WEKA_PATH", s);
    var c := [Entry("HF_HOME", s.hfHome), Entry("PROMETHEUS_MULTIPROC_DIR", s.prometheusDir)];
    var d := Opt(!s.skipFastSafetensors, [Entry("USE_FASTSAFETENSOR", "true")]);
    var e := NonEmpty(s.vllmEnv);
    FlagOptEntry(cudaVisibleDevices != "" && s.gpuSlots != "", "CUDA_VISIBLE_DEVICES", cudaVisibleDevices);
    DockerLmcacheArgsPaired("LMCACHE_WEKA_PATH", s);
    FlagEachTwo("-e", Entry("HF_HOME", s.hfHome), Entry("PROMETHEUS_MULTIPROC_DIR", s.prometheusDir));
    FlagOptEntry(!s.skipFastSafetensors, "USE_FASTSAFETENSOR", "true");
    FlagEachNonEmpty("-e", s.vllmEnv);
    FlagEachFive("-e", a, b, c, d, e);
  }

  /** The names of the variables the generator sets itself, in order. */
  function DockerEnvFixedKeys(cudaVisibleDevices: string, s: Settings): seq<string>
  {
    Opt(cudaVisibleDevices != "" && s.gpuSlots != "", ["CUDA_VISIBLE_DEVICES"])
    + ["LMCACHE_WEKA_PATH", "LMCACHE_CHUNK_SIZE", "LMCACHE_EXTRA_CONFIG",
       "LMCACHE_CUFILE_BUFFER_SIZE", "LMCACHE_LOCAL_CPU", "LMCACHE_SAVE_DECODE_CACHE"]
    + ["HF_HOME", "PROMETHEUS_MULTIPROC_DIR"]
    + Opt(!s.skipFastSafetensors, ["USE_FASTSAFETENSOR"])
  }

  /**
   * The variables the generator sets itself, in order: `CUDA_VISIBLE_DEVICES`
   * only with gpu-slots (and devices), the LMCache block, `HF_HOME` and
   * `PROMETHEUS_MULTIPROC_DIR` always, `USE_FASTSAFETENSOR` unless skipped.
   */
  lemma DockerEnvKeys(cudaVisibleDevices: string, s: Settings)
    ensures Keys(DockerEnvFixed(cudaVisibleDevices, s)) == DockerEnvFixedKeys(cudaVisibleDevices, s)
  {
    CudaNamePlain();
    LmcachePathNamePlain();
    HfHomeNamePlain();
    PrometheusNamePlain();
    FastSafetensorNamePlain();
    var a := Opt(cudaVisibleDevices != "" && s.gpuSlots != "", [Entry("CUDA_VISIBLE_DEVICES", cudaVisibleDevices)]);
    var b := LmcacheEnv("LMCACHE_WEKA_PATH", s);
    var c := [Entry("HF_HOME", s.hfHome), Entry("PROMETHEUS_MULTIPROC_DIR", s.prometheusDir)];
    var d := Opt(!s.skipFastSafetensors, [Entry("USE_FASTSAFETENSOR", "true")]);
    KeysOfOptEntry(cudaVisibleDevices != "" && s.gpuSlots != "", "CUDA_VISIBLE_DEVICES", cudaVisibleDevices);
    LmcacheEnvKeys("LMCACHE_WEKA_PATH", s);
    KeyOfEntry("HF_HOME", s.hfHome);
    KeyOfEntry("PROMETHEUS_MULTIPROC_DIR", s.prometheusDir);
    SameElements(Keys(c), ["HF_HOME", "PROMETHEUS_MULTIPROC_DIR"]);
    KeysOfOptEntry(!s.skipFastSafetensors, "USE_FASTSAFETENSOR", "true");
    KeysConcat(a, b);
    KeysConcat(a + b, c);
    KeysConcat(a + b + c, d);
  }

  /** The user's `--vllm-env` entries come last, in order, without the empty ones. */
  lemma DockerUserEnvLast(cudaVisibleDevices: string, s: Settings)
    ensures var env := DockerEnv(cudaVisibleDevices, s);
      var n := |DockerEnvFixed(cudaVisibleDevices, s)|;
      n <= |env| && env[n..] == NonEmpty(s.vllmEnv)
  {
    ConcatHalves(DockerEnvFixed(cudaVisibleDevices, s), NonEmpty(s.vllmEnv));
  }

  // ---------------------------------------------------------------------
  // The `amgctl host launch` command run inside the container
  // ---------------------------------------------------------------------

  /** `amgctl host launch <model>`. */
  function HostLaunchHead(model: string): seq<string> {
    ["amgctl", "host", "launch", model]
  }

  /** The GPU choice: the slots when that flag was set, else a positive tensor-parallel size. */
  function GpuArgs(tp: int, s: Settings): seq<string> {
    if FlagGpuSlots in s.changed then ["--gpu-slots", s.gpuSlots]
    else if tp > 0 then ["--tensor-parallel-size", IntToString(tp)]
    else []
  }

  /** What one forwarded option contributes when its flag was set. */
  function Forwarded(f: Flag, s: Settings): seq<string> {
    match f
    case FlagGpuMemUtil => ["--gpu-mem-util", s.gpuMemUtil]
    case FlagMaxSequences => ["--max-sequences", IntToString(s.maxSequences)]
    case FlagMaxModelLen => ["--max-model-len", IntToString(s.maxModelLen)]
    case FlagMaxNumBatchedTokens => ["--max-num-batched-tokens", IntToString(s.maxBatchedTokens)]
    case FlagPort => ["--port", IntToString(s.port)]
    case FlagWekaMount => ["--weka-mount", s.wekaMount]
    case FlagLmcacheWekaPath => ["--lmcache-weka-path", s.lmcachePath]
    case FlagLmcacheChunkSize => ["--lmcache-chunk-size", IntToString(s.lmcacheChunkSize)]
    case FlagLmcacheGdsThreads => ["--lmcache-gds-threads", IntToString(s.lmcacheGdsThreads)]
    case FlagLmcacheCufileBufferSize => ["--lmcache-cufile-buffer-size", s.lmcacheCufileBufferSize]
    case FlagLmcacheLocalCpu => ["--lmcache-local-cpu"]
    case FlagLmcacheSaveDecodeCache => ["--lmcache-save-decode-cache", BoolToString(s.lmcacheSaveDecodeCache)]
    case FlagHfHome => ["--hf-home", s.hfHome]
    case FlagPrometheusMultiprocDir => ["--prometheus-multiproc-dir", s.prometheusDir]
    case FlagNoEnablePrefixCaching => ["--no-enable-prefix-caching"]
    case FlagSkipSafefasttensors => ["--skip-safefasttensors"]
    case FlagSkipCufileConfigure => ["--skip-cufile-configure"]
    case FlagVllmArg => FlagEach("--vllm-arg", s.vllmArgs)
    case FlagVllmEnv => FlagEach("--vllm-env", s.vllmEnv)
    case _ => []
  }

  /** The options forwarded after the GPU choice, in the order the builder tests them. */
  const SizeFlags: seq<Flag> := [FlagGpuMemUtil, FlagMaxSequences, FlagMaxModelLen, FlagMaxNumBatchedTokens, FlagPort]
  const StorageFlags: seq<Flag> := [
    FlagWekaMount, FlagLmcacheWekaPath, FlagLmcacheChunkSize, FlagLmcacheGdsThreads, FlagLmcacheCufileBufferSize]
  const CacheModeFlags: seq<Flag> := [FlagLmcacheLocalCpu, FlagLmcacheSaveDecodeCache]
  const SwitchFlags: seq<Flag> := [
    FlagHfHome, FlagPrometheusMultiprocDir, FlagNoEnablePrefixCaching, FlagSkipSafefasttensors, FlagSkipCufileConfigure]
  const UserFlags: seq<Flag> := [FlagVllmArg, FlagVllmEnv]
  const ForwardOrder: seq<Flag> := SizeFlags + StorageFlags + CacheModeFlags + SwitchFlags + UserFlags

  /** One option's guarded `append`: its arguments when its flag was set, nothing otherwise. */
  function ForwardIfChanged(f: Flag, s: Settings): seq<string> {
    Opt(f in s.changed, Forwarded(f, s))
  }

  /** One guarded append per flag of `fs`, in order. */
  function ForwardAll(fs: seq<Flag>, s: Settings): seq<string>
    decreases |fs|
  {
    if |fs| == 0 then [] else ForwardAll(fs[..|fs| - 1], s) + ForwardIfChanged(fs[|fs| - 1], s)
  }

  /** The argv `buildDockerHostLaunchCommand` returns. */
  function HostLaunchArgs(model: string, tp: int, s: Settings): seq<string> {
    HostLaunchHead(model) + GpuArgs(tp, s) + ForwardAll(ForwardOrder, s)
  }

  lemma ForwardAllSnoc(fs: seq<Flag>, f: Flag, s: Settings)
    ensures ForwardAll(fs + [f], s) == ForwardAll(fs, s) + ForwardIfChanged(f, s)
  {
    assert (fs + [f])[..|fs|] == fs;
  }

  lemma ForwardTwo(f1: Flag, f2: Flag, s: Settings)
    ensures ForwardAll([f1, f2], s) == ForwardIfChanged(f1, s) + ForwardIfChanged(f2, s)
  {
    assert ForwardAll([f1], s) == ForwardIfChanged(f1, s) by {
      assert [f1][..0] == [];
      assert [] + ForwardIfChanged(f1, s) == ForwardIfChanged(f1, s);
    }
    assert [f1, f2][..1] == [f1];
  }

  lemma ForwardFive(f1: Flag, f2: Flag, f3: Flag, f4: Flag, f5: Flag, s: Settings)
    ensures ForwardAll([f1, f2, f3, f4, f5], s)
      == ForwardIfChanged(f1, s) + ForwardIfChanged(f2, s) + ForwardIfChanged(f3, s)
         + ForwardIfChanged(f4, s) + ForwardIfChanged(f5, s)
  {
    ForwardTwo(f1, f2, s);
    ForwardAllSnoc([f1, f2], f3, s);
    assert [f1, f2] + [f3] == [f1, f2, f3];
    ForwardAllSnoc([f1, f2, f3], f4, s);
    assert [f1, f2, f3] + [f4] == [f1, f2, f3, f4];
    ForwardAllSnoc([f1, f2, f3, f4], f5, s);
    assert [f1, f2, f3, f4] + [f5] == [f1, f2, f3, f4, f5];
  }

  /** One option's guarded append, written out, is its `ForwardIfChanged`. */
  lemma ForwardStep(prev: seq<string>, cur: seq<string>, f: Flag, s: Settings, piece: seq<string>)
    requires Forwarded(f, s) == piece
    requires cur == if f in s.changed then prev + piece else prev
    ensures cur == prev + ForwardIfChanged(f, s)
  {
    if f !in s.changed {
      assert prev + [] == prev;
    }
  }

  /** Five guarded appends after `cmd0` give `cmd0` followed by the five options forwarded in order. */
  lemma ForwardFiveAfter(cmd0: seq<string>, f1: Flag, f2: Flag, f3: Flag, f4: Flag, f5: Flag, s: Settings)
    ensures cmd0 + ForwardIfChanged(f1, s) + ForwardIfChanged(f2, s) + ForwardIfChanged(f3, s)
            + ForwardIfChanged(f4, s) + ForwardIfChanged(f5, s)
         == cmd0 + ForwardAll([f1, f2, f3, f4, f5], s)
  {
    ForwardFive(f1, f2, f3, f4, f5, s);
    AppendFiveParts(cmd0, ForwardIfChanged(f1, s), ForwardIfChanged(f2, s), ForwardIfChanged(f3, s),
                    ForwardIfChanged(f4, s), ForwardIfChanged(f5, s));
  }

  /** The `Changed` tests for the memory fraction, the sequence and token limits and the port. */
  method ForwardSizeOptions(cmd0: seq<string>, s: Settings) returns (hostCmd: seq<string>)
    ensures hostCmd == cmd0 + ForwardAll(SizeFlags, s)
  {
    hostCmd := cmd0;
    if FlagGpuMemUtil in s.changed {
      hostCmd := hostCmd + ["--gpu-mem-util", s.gpuMemUtil];
    }
    assert hostCmd == cmd0 + ForwardIfChanged(FlagGpuMemUtil, s);
    ghost var c1 := hostCmd;
    if FlagMaxSequences in s.changed {
      hostCmd := hostCmd + ["--max-sequences", IntToString(s.maxSequences)];
    }
    assert hostCmd == c1 + ForwardIfChanged(FlagMaxSequences, s);
    ghost var c2 := hostCmd;
    if FlagMaxModelLen in s.changed {
      hostCmd := hostCmd + ["--max-model-len", IntToString(s.maxModelLen)];
    }
    assert hostCmd == c2 + ForwardIfChanged(FlagMaxModelLen, s);
    ghost var c3 := hostCmd;
    if FlagMaxNumBatchedTokens in s.changed {
      hostCmd := hostCmd + ["--max-num-batched-tokens", IntToString(s.maxBatchedTokens)];
    }
    assert hostCmd == c3 + ForwardIfChanged(FlagMaxNumBatchedTokens, s);
    ghost var c4 := hostCmd;
    if FlagPort in s.changed {
      hostCmd := hostCmd + ["--port", IntToString(s.port)];
    }
    assert hostCmd == c4 + ForwardIfChanged(FlagPort, s);
    ForwardFiveAfter(cmd0, FlagGpuMemUtil, FlagMaxSequences, FlagMaxModelLen, FlagMaxNumBatchedTokens, FlagPort, s);
  }

  /** The `Changed` tests for the Weka mount, the LMCache path and the LMCache sizes. */
  method ForwardStorageOptions(cmd0: seq<string>, s: Settings) returns (hostCmd: seq<string>)
    ensures hostCmd == cmd0 + ForwardAll(StorageFlags, s)
  {
    hostCmd := cmd0;
    if FlagWekaMount in s.changed {
      hostCmd := hostCmd + ["--weka-mount", s.wekaMount];
    }
    assert hostCmd == cmd0 + ForwardIfChanged(FlagWekaMount, s);
    ghost var c1 := hostCmd;
    if FlagLmcacheWekaPath in s.changed {
      hostCmd := hostCmd + ["--lmcache-weka-path", s.lmcachePath];
    }
    assert hostCmd == c1 + ForwardIfChanged(FlagLmcacheWekaPath, s);
    ghost var c2 := hostCmd;
    if FlagLmcacheChunkSize in s.changed {
      hostCmd := hostCmd + ["--lmcache-chunk-size", IntToString(s.lmcacheChunkSize)];
    }
    assert hostCmd == c2 + ForwardIfChanged(FlagLmcacheChunkSize, s);
    ghost var c3 := hostCmd;
    if FlagLmcacheGdsThreads in s.changed {
      hostCmd := hostCmd + ["--lmcache-gds-threads", IntToString(s.lmcacheGdsThreads)];
    }
    assert hostCmd == c3 + ForwardIfChanged(FlagLmcacheGdsThreads, s);
    ghost var c4 := hostCmd;
    if FlagLmcacheCufileBufferSize in s.changed {
      hostCmd := hostCmd + ["--lmcache-cufile-buffer-size", s.lmcacheCufileBufferSize];
    }
    assert hostCmd == c4 + ForwardIfChanged(FlagLmcacheCufileBufferSize, s);
    ForwardFiveAfter(cmd0, FlagWekaMount, FlagLmcacheWekaPath, FlagLmcacheChunkSize, FlagLmcacheGdsThreads, FlagLmcacheCufileBufferSize, s);
  }

  /** The `Changed` tests for the two LMCache switches; the decode-cache one carries its value. */
  method ForwardCacheModeOptions(cmd0: seq<string>, s: Settings) returns (hostCmd: seq<string>)
    ensures hostCmd == cmd0 + ForwardAll(CacheModeFlags, s)
  {
    hostCmd := cmd0;
    if FlagLmcacheLocalCpu in s.changed {
      hostCmd := hostCmd + ["--lmcache-local-cpu"];
    }
    assert hostCmd == cmd0 + ForwardIfChanged(FlagLmcacheLocalCpu, s);
    ghost var c1 := hostCmd;
    if FlagLmcacheSaveDecodeCache in s.changed {
      hostCmd := hostCmd + ["--lmcache-save-decode-cache", BoolToString(s.lmcacheSaveDecodeCache)];
    }
    assert hostCmd == c1 + ForwardIfChanged(FlagLmcacheSaveDecodeCache, s);
    ForwardTwo(FlagLmcacheLocalCpu, FlagLmcacheSaveDecodeCache, s);
    AppendAssoc(cmd0, ForwardIfChanged(FlagLmcacheLocalCpu, s), ForwardIfChanged(FlagLmcacheSaveDecodeCache, s));
  }

  /** The `Changed` tests for the cache directories and the three switches. */
  method ForwardSwitchOptions(cmd0: seq<string>, s: Settings) returns (hostCmd: seq<string>)
    ensures hostCmd == cmd0 + ForwardAll(SwitchFlags, s)
  {
    hostCmd := cmd0;
    if FlagHfHome in s.changed {
      hostCmd := hostCmd + ["--hf-home", s.hfHome];
    }
    ForwardStep(cmd0, hostCmd, FlagHfHome, s, ["--hf-home", s.hfHome]);
    ghost var c1 := hostCmd;
    if FlagPrometheusMultiprocDir in s.changed {
      hostCmd := hostCmd + ["--prometheus-multiproc-dir", s.prometheusDir];
    }
    ForwardStep(c1, hostCmd, FlagPrometheusMultiprocDir, s, ["--prometheus-multiproc-dir", s.prometheusDir]);
    ghost var c2 := hostCmd;
    if FlagNoEnablePrefixCaching in s.changed {
      hostCmd := hostCmd + ["--no-enable-prefix-caching"];
    }
    ForwardStep(c2, hostCmd, FlagNoEnablePrefixCaching, s, ["--no-enable-prefix-caching"]);
    ghost var c3 := hostCmd;
    if FlagSkipSafefasttensors in s.changed {
      hostCmd := hostCmd + ["--skip-safefasttensors"];
    }
    ForwardStep(c3, hostCmd, FlagSkipSafefasttensors, s, ["--skip-safefasttensors"]);
    ghost var c4 := hostCmd;
    if FlagSkipCufileConfigure in s.changed {
      hostCmd := hostCmd + ["--skip-cufile-configure"];
    }
    ForwardStep(c4, hostCmd, FlagSkipCufileConfigure, s, ["--skip-cufile-configure"]);
    ForwardFiveAfter(cmd0, FlagHfHome, FlagPrometheusMultiprocDir, FlagNoEnablePrefixCaching, FlagSkipSafefasttensors, FlagSkipCufileConfigure, s);
  }

  /** The `Changed` tests for the user's `--vllm-arg` and `--vllm-env` values, each as its own pair. */
  method ForwardUserOptions(cmd0: seq<string>, s: Settings) returns (hostCmd: seq<string>)
    ensures hostCmd == cmd0 + ForwardAll(UserFlags, s)
  {
    hostCmd := cmd0;
    if FlagVllmArg in s.changed {
      hostCmd := AppendFlagEach(hostCmd, "--vllm-arg", s.vllmArgs);
    }
    assert hostCmd == cmd0 + ForwardIfChanged(FlagVllmArg, s);
    ghost var c1 := hostCmd;
    if FlagVllmEnv in s.changed {
      hostCmd := AppendFlagEach(hostCmd, "--vllm-env", s.vllmEnv);
    }
    assert hostCmd == c1 + ForwardIfChanged(FlagVllmEnv, s);
    ForwardTwo(FlagVllmArg, FlagVllmEnv, s);
    AppendAssoc(cmd0, ForwardIfChanged(FlagVllmArg, s), ForwardIfChanged(FlagVllmEnv, s));
  }

  /** `buildDockerHostLaunchCommand`: the GPU choice, then one `Changed` test per option. */
  method BuildDockerHostLaunchCommand(model: string, tp: int, s: Settings) returns (hostCmd: seq<string>)
    ensures hostCmd == HostLaunchArgs(model, tp, s)
  {
    hostCmd := ["amgctl", "host", "launch", model];
    if FlagGpuSlots in s.changed {
      hostCmd := hostCmd + ["--gpu-slots", s.gpuSlots];
    } else if tp > 0 {
      hostCmd := hostCmd + ["--tensor-parallel-size", IntToString(tp)];
    }
    ghost var base := hostCmd;
    hostCmd := ForwardSizeOptions(hostCmd, s);
    hostCmd := ForwardStorageOptions(hostCmd, s);
    hostCmd := ForwardCacheModeOptions(hostCmd, s);
    hostCmd := ForwardSwitchOptions(hostCmd, s);
    hostCmd := ForwardUserOptions(hostCmd, s);
    ForwardOrderParts(base, s);
  }

  /** The forwarded options are the five groups in order. */
  lemma ForwardOrderParts(base: seq<string>, s: Settings)
    ensures base + ForwardAll(SizeFlags, s) + ForwardAll(StorageFlags, s) + ForwardAll(CacheModeFlags, s)
      + ForwardAll(SwitchFlags, s) + ForwardAll(UserFlags, s)
      == base + ForwardAll(ForwardOrder, s)
  {
    ForwardAllConcat(SizeFlags, StorageFlags, s);
    ForwardAllConcat(SizeFlags + StorageFlags, CacheModeFlags, s);
    ForwardAllConcat(SizeFlags + StorageFlags + CacheModeFlags, SwitchFlags, s);
    ForwardAllConcat(SizeFlags + StorageFlags + CacheModeFlags + SwitchFlags, UserFlags, s);
    AppendFiveParts(base, ForwardAll(SizeFlags, s), ForwardAll(StorageFlags, s), ForwardAll(CacheModeFlags, s),
      ForwardAll(SwitchFlags, s), ForwardAll(UserFlags, s));
  }

  /** Forwarding a concatenation of flag lists forwards each list in turn. */
  lemma {:induction false} ForwardAllConcat(a: seq<Flag>, b: seq<Flag>, s: Settings)
    ensures ForwardAll(a + b, s) == ForwardAll(a, s) + ForwardAll(b, s)
    decreases |b|
  {
    if |b| == 0 {
      assert a + b == a;
    } else {
      var init := b[..|b| - 1];
      var last := b[|b| - 1];
      ForwardAllConcat(a, init, s);
      assert (a + b)[..|a + b| - 1] == a + init;
      assert (a + b)[|a + b| - 1] == last;
      AppendAssoc(ForwardAll(a, s), ForwardAll(init, s), ForwardIfChanged(last, s));
    }
  }

  // ---------------------------------------------------------------------
  // What the forwarding promises
  // ---------------------------------------------------------------------

  /** Options whose flag was not set contribute nothing. */
  lemma {:induction false} ForwardNothing(fs: seq<Flag>, s: Settings)
    requires forall f :: f in fs ==> f !in s.changed
    ensures ForwardAll(fs, s) == []
    decreases |fs|
  {
    if |fs| > 0 {
      assert forall f :: f in fs[..|fs| - 1] ==> f in fs;
      ForwardNothing(fs[..|fs| - 1], s);
    }
  }

  /**
   * Only the options whose flag was set matter: two settings that set the same
   * flags, with the same values for those, forward the same arguments.
   */
  lemma {:induction false} ForwardOnlyChanged(fs: seq<Flag>, s1: Settings, s2: Settings)
    requires forall f :: f in fs ==> (f in s1.changed <==> f in s2.changed)
    requires forall f :: f in fs && f in s1.changed ==> Forwarded(f, s1) == Forwarded(f, s2)
    ensures ForwardAll(fs, s1) == ForwardAll(fs, s2)
    decreases |fs|
  {
    if |fs| > 0 {
      assert forall f :: f in fs[..|fs| - 1] ==> f in fs;
      ForwardOnlyChanged(fs[..|fs| - 1], s1, s2);
      assert fs[|fs| - 1] in fs;
    }
  }

  /** With no flag set, the container runs `amgctl host launch <model>`, plus the size when it is positive. */
  lemma HostLaunchNothingChanged(model: string, tp: int, s: Settings)
    requires s.changed == {}
    ensures HostLaunchArgs(model, tp, s)
      == ["amgctl", "host", "launch", model] + (if tp > 0 then ["--tensor-parallel-size", IntToString(tp)] else [])
  {
    ForwardNothing(ForwardOrder, s);
  }

  /**
   * The values of unset flags never reach the container command: settings
   * that set the same flags with the same values (and the same slots, when
   * those were set) give the same command.
   */
  lemma HostLaunchOnlyChanged(model: string, tp: int, s1: Settings, s2: Settings)
    requires s1.changed == s2.changed
    requires FlagGpuSlots in s1.changed ==> s1.gpuSlots == s2.gpuSlots
    requires forall f :: f in s1.changed ==> Forwarded(f, s1) == Forwarded(f, s2)
    ensures HostLaunchArgs(model, tp, s1) == HostLaunchArgs(model, tp, s2)
  {
    ForwardOnlyChanged(ForwardOrder, s1, s2);
  }

  /** The flags that configure docker itself: none of them is forwarded. */
  lemma DockerFlagsNotForwarded()
    ensures FlagDryRun !in ForwardOrder && FlagDockerImage !in ForwardOrder && FlagDockerArg !in ForwardOrder
    ensures FlagGpuSlots !in ForwardOrder && FlagTensorParallelSize !in ForwardOrder
  {
  }

  /**
   * `--dry-run`, `--docker-image` and `--docker-arg` are never passed on to the
   * host launch, whatever their values and whether or not they were set.
   */
  lemma DryRunNotForwarded(model: string, tp: int, s: Settings, dryRun: bool, image: string, dockerArgs: seq<string>)
    ensures HostLaunchArgs(model, tp, s)
      == HostLaunchArgs(model, tp, s.(dryRun := dryRun, dockerImage := image, dockerArgs := dockerArgs,
                                      changed := s.changed + {FlagDryRun, FlagDockerImage, FlagDockerArg}))
  {
    var s2 := s.(dryRun := dryRun, dockerImage := image, dockerArgs := dockerArgs,
                 changed := s.changed + {FlagDryRun, FlagDockerImage, FlagDockerArg});
    DockerFlagsNotForwarded();
    forall f
      ensures Forwarded(f, s) == Forwarded(f, s2)
    {
    }
    ForwardOnlyChanged(ForwardOrder, s, s2);
  }

  /** The container command starts `amgctl host launch <model>` followed by the GPU choice. */
  lemma HostLaunchStart(model: string, tp: int, s: Settings)
    ensures var cmd := HostLaunchArgs(model, tp, s);
      |cmd| >= 4 + |GpuArgs(tp, s)|
      && cmd[..4] == ["amgctl", "host", "launch", model]
      && cmd[4..4 + |GpuArgs(tp, s)|] == GpuArgs(tp, s)
  {
    var head := HostLaunchHead(model) + GpuArgs(tp, s);
    ConcatHalves(head, ForwardAll(ForwardOrder, s));
    ConcatHalves(HostLaunchHead(model), GpuArgs(tp, s));
  }

  /** The user's `--vllm-arg` and `--vllm-env` pairs come last, in that order. */
  lemma HostLaunchUserPairsLast(model: string, tp: int, s: Settings)
    ensures var cmd := HostLaunchArgs(model, tp, s);
      var tail := ForwardIfChanged(FlagVllmArg, s) + ForwardIfChanged(FlagVllmEnv, s);
      |tail| <= |cmd| && cmd[|cmd| - |tail|..] == tail
  {
    var front := SizeFlags + StorageFlags + CacheModeFlags + SwitchFlags;
    assert ForwardOrder == front + UserFlags;
    ForwardAllConcat(front, UserFlags, s);
    ForwardTwo(FlagVllmArg, FlagVllmEnv, s);
    var head := HostLaunchHead(model) + GpuArgs(tp, s);
    AppendAssoc(head, ForwardAll(front, s), ForwardAll(UserFlags, s));
    ConcatHalves(head + ForwardAll(front, s), ForwardAll(UserFlags, s));
  }

  // ---------------------------------------------------------------------
  // The docker argv and the command run
  // ---------------------------------------------------------------------

  /**
   * The image: the docker-image setting when non-empty; otherwise the default,
   * pulled (with its fallback) when it is not present locally. Whether it is
   * present and what the pull reports are inputs.
   */
  function DockerImage(s: Settings, defaultImage: string, imagePresent: bool, pulled: Result<string>): Result<string>
  {
    if s.dockerImage != "" then Ok(s.dockerImage)
    else if imagePresent then Ok(defaultImage)
    else if pulled.Err? then Err("failed to ensure Docker image is available: " + pulled.error)
    else Ok(pulled.value)
  }

  /** Everything before the image. */
  function DockerRunArgs(cudaVisibleDevices: string, ibFlags: string, s: Settings): seq<string>
  {
    DockerHead(ibFlags, s) + DockerEnvArgs(cudaVisibleDevices, s) + DockerTail(s)
  }

  /** What `generateDockerHostLaunchCommand` returns. */
  function DockerHostLaunchCommand(model: string, cudaVisibleDevices: string, tp: int, ibFlags: string, s: Settings,
                                   defaultImage: string, imagePresent: bool, pulled: Result<string>): Result<seq<string>>
  {
    var image := DockerImage(s, defaultImage, imagePresent, pulled);
    if image.Err? then Err(image.error)
    else Ok(DockerRunArgs(cudaVisibleDevices, ibFlags, s) + [image.value] + HostLaunchArgs(model, tp, s))
  }

  /** `generateDockerHostLaunchCommand`: the docker options in order, the image, then the container command. */
  method GenerateDockerHostLaunchCommand(model: string, cudaVisibleDevices: string, tp: int, ibFlags: string, s: Settings,
                                         defaultImage: string, imagePresent: bool, pulled: Result<string>)
    returns (r: Result<seq<string>>)
    ensures r == DockerHostLaunchCommand(model, cudaVisibleDevices, tp, ibFlags, s, defaultImage, imagePresent, pulled)
  {
    var cmd := AppendDockerHead(ibFlags, s);
    cmd := AppendDockerEnv(cmd, cudaVisibleDevices, s);
    cmd := AppendDockerTail(cmd, s);
    var dockerImage := s.dockerImage;
    if dockerImage == "" {
      dockerImage := defaultImage;
      if !imagePresent {
        if pulled.Err? {
          return Err("failed to ensure Docker image is available: " + pulled.error);
        }
        dockerImage := pulled.value;
      }
    }
    cmd := cmd + [dockerImage];
    var hostCmd := BuildDockerHostLaunchCommand(model, tp, s);
    cmd := cmd + hostCmd;
    r := Ok(cmd);
  }

  /**
   * The argv is the docker options, then the image, then the container
   * command; it fails only when no image is given, the default is missing and
   * the pull fails. A given image is used as is.
   */
  lemma DockerCommandLayout(model: string, cudaVisibleDevices: string, tp: int, ibFlags: string, s: Settings,
                            defaultImage: string, imagePresent: bool, pulled: Result<string>)
    ensures var r := DockerHostLaunchCommand(model, cudaVisibleDevices, tp, ibFlags, s, defaultImage, imagePresent, pulled);
      var n := |DockerRunArgs(cudaVisibleDevices, ibFlags, s)|;
      (r.Ok? <==> s.dockerImage != "" || imagePresent || pulled.Ok?)
      && (r.Ok? ==>
            n < |r.value|
            && r.value[..n] == DockerRunArgs(cudaVisibleDevices, ibFlags, s)
            && r.value[n] == (if s.dockerImage != "" then s.dockerImage
                              else if imagePresent then defaultImage else pulled.value)
            && r.value[n + 1..] == HostLaunchArgs(model, tp, s))
  {
    var r := DockerHostLaunchCommand(model, cudaVisibleDevices, tp, ibFlags, s, defaultImage, imagePresent, pulled);
    if r.Ok? {
      var pre := DockerRunArgs(cudaVisibleDevices, ibFlags, s);
      var image := DockerImage(s, defaultImage, imagePresent, pulled).value;
      AppendAssoc(pre, [image], HostLaunchArgs(model, tp, s));
      ConcatHalves(pre, [image] + HostLaunchArgs(model, tp, s));
    }
  }

  /** The docker options begin with the fixed `docker run` prefix. */
  lemma DockerCommandPrefix(cudaVisibleDevices: string, ibFlags: string, s: Settings)
    ensures var pre := DockerRunArgs(cudaVisibleDevices, ibFlags, s);
      |pre| >= 11 && pre[..11] == DockerPrefix
  {
    var rest := Opt(ibFlags != "", Fields(ibFlags)) + Volume(s);
    AppendAssoc(DockerPrefix, Opt(ibFlags != "", Fields(ibFlags)), Volume(s));
    var tail := DockerEnvArgs(cudaVisibleDevices, s) + DockerTail(s);
    AppendAssoc(DockerPrefix + rest, DockerEnvArgs(cudaVisibleDevices, s), DockerTail(s));
    AppendAssoc(DockerPrefix, rest, tail);
    ConcatHalves(DockerPrefix, rest + tail);
  }

  /** How `amgctl docker launch` ends, given its effects as inputs. */
  function RunDockerLaunch(model: string, s: Settings, preflight: Outcome, gpuCount: Result<int>, ibFlags: Result<string>,
                           defaultImage: string, imagePresent: bool, pulled: Result<string>, run: Outcome): DockerRun
  {
    if preflight.Fail? then DockerRefused(preflight.error)
    else
      var alloc := Allocate(s.gpuSlots, s.tensorParallelSize, gpuCount);
      if alloc.Err? then DockerRefused(alloc.error)
      else
        var ib := if ibFlags.Ok? then ibFlags.value else "";
        var cmd := DockerHostLaunchCommand(model, alloc.value.cudaVisibleDevices, alloc.value.tensorParallelSize, ib, s,
                                           defaultImage, imagePresent, pulled);
        if cmd.Err? then DockerRefused("failed to generate Docker command: " + cmd.error)
        else if s.dryRun then DockerDryRun(cmd.value)
        else DockerLaunched(cmd.value, CheckDockerCommand(cmd.value, run))
  }

  /** Failing to detect InfiniBand devices is the same as having none. */
  lemma DockerRunIbOptional(model: string, s: Settings, preflight: Outcome, gpuCount: Result<int>, ibError: string,
                            defaultImage: string, imagePresent: bool, pulled: Result<string>, run: Outcome)
    ensures RunDockerLaunch(model, s, preflight, gpuCount, Err(ibError), defaultImage, imagePresent, pulled, run)
         == RunDockerLaunch(model, s, preflight, gpuCount, Ok(""), defaultImage, imagePresent, pulled, run)
  {
  }

  /** A dry run never starts docker, and only a dry run stops at showing the argv. */
  lemma DockerRunDry(model: string, s: Settings, preflight: Outcome, gpuCount: Result<int>, ibFlags: Result<string>,
                     defaultImage: string, imagePresent: bool, pulled: Result<string>, run: Outcome)
    ensures var r := RunDockerLaunch(model, s, preflight, gpuCount, ibFlags, defaultImage, imagePresent, pulled, run);
      (r.DockerDryRun? ==> s.dryRun) && (r.DockerLaunched? ==> !s.dryRun)
  {
  }

  /** A run that gets past the checks passed the preflight, allocated the GPUs and uses that allocation. */
  lemma DockerRunUsesAllocation(model: string, s: Settings, preflight: Outcome, gpuCount: Result<int>, ibFlags: Result<string>,
                                defaultImage: string, imagePresent: bool, pulled: Result<string>, run: Outcome)
    ensures var r := RunDockerLaunch(model, s, preflight, gpuCount, ibFlags, defaultImage, imagePresent, pulled, run);
      var alloc := Allocate(s.gpuSlots, s.tensorParallelSize, gpuCount);
      var ib := if ibFlags.Ok? then ibFlags.value else "";
      !r.DockerRefused? ==>
        preflight.Pass? && alloc.Ok?
        && DockerHostLaunchCommand(model, alloc.value.cudaVisibleDevices, alloc.value.tensorParallelSize, ib, s,
                                   defaultImage, imagePresent, pulled) == Ok(r.dockerCmd)
  {
  }

  /** A launch fails exactly when docker does: the argv is never empty. */
  lemma DockerRunOutcome(model: string, s: Settings, preflight: Outcome, gpuCount: Result<int>, ibFlags: Result<string>,
                         defaultImage: string, imagePresent: bool, pulled: Result<string>, run: Outcome)
    ensures var r := RunDockerLaunch(model, s, preflight, gpuCount, ibFlags, defaultImage, imagePresent, pulled, run);
      r.DockerLaunched? ==> (r.outcome.Pass? <==> run.Pass?)
  {
    var r := RunDockerLaunch(model, s, preflight, gpuCount, ibFlags, defaultImage, imagePresent, pulled, run);
    if r.DockerLaunched? {
      var alloc := Allocate(s.gpuSlots, s.tensorParallelSize, gpuCount);
      var ib := if ibFlags.Ok? then ibFlags.value else "";
      DockerCommandPrefix(alloc.value.cudaVisibleDevices, ib, s);
      DockerCommandLayout(model, alloc.value.cudaVisibleDevices, alloc.value.tensorParallelSize, ib, s,
                          defaultImage, imagePresent, pulled);
      CheckDockerCommandEmpty(r.dockerCmd, run);
    }
  }
}
