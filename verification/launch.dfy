/**
 * The legacy `amgctl docker launch` (tools/amgctl/cmd/launch.go): a
 * `docker run` argv whose container command is `vllm serve` itself.
 */
module Launch {
  import opened Wrappers
  import opened Strings
  import opened LaunchSettings
  import opened GpuAllocation

  // ---------------------------------------------------------------------
  // The `vllm serve` command run inside the container
  // ---------------------------------------------------------------------

  const NoPrefixCachingFlag: string := "--no-enable-prefix-caching"

  /** Everything `buildVllmCommand` appends itself, before the user's `--vllm-arg` values. */
  function VllmFixed(model: string, tp: int, s: Settings): seq<string>
  {
    ["vllm", "serve", model, "--tensor-parallel-size", IntToString(tp)]
    + ServeOptions(s)
    + Opt(s.noPrefixCaching, [NoPrefixCachingFlag])
    + ["--kv-transfer-config", KvTransferConfig]
  }

  /** The argv `buildVllmCommand` returns. */
  function VllmCommand(model: string, tp: int, s: Settings): seq<string>
  {
    VllmFixed(model, tp, s) + NonEmpty(s.vllmArgs)
  }

  /** `buildVllmCommand`: one `append` per option, then the user arguments. */
  method BuildVllmCommand(model: string, tp: int, s: Settings) returns (vllmCmd: seq<string>)
    ensures vllmCmd == VllmCommand(model, tp, s)
  {
    vllmCmd := ["vllm", "serve", model];
    vllmCmd := vllmCmd + ["--tensor-parallel-size", IntToString(tp)];
    ghost var head := vllmCmd;
    vllmCmd := vllmCmd + ["--gpu-memory-utilization", s.gpuMemUtil];
    vllmCmd := vllmCmd + ["--max-num-seqs", IntToString(s.maxSequences)];
    vllmCmd := vllmCmd + ["--max-model-len", IntToString(s.maxModelLen)];
    vllmCmd := vllmCmd + ["--max-num-batched-tokens", IntToString(s.maxBatchedTokens)];
    vllmCmd := vllmCmd + ["--port", IntToString(s.port)];
    vllmCmd := vllmCmd + ["--host", "0.0.0.0"];
    SameElements(head, ["vllm", "serve", model, "--tensor-parallel-size", IntToString(tp)]);
    SameElements(vllmCmd, head + ServeOptions(s));
    ghost var withOptions := vllmCmd;
    if s.noPrefixCaching {
      vllmCmd := vllmCmd + [NoPrefixCachingFlag];
    }
    assert vllmCmd == withOptions + Opt(s.noPrefixCaching, [NoPrefixCachingFlag]);
    vllmCmd := vllmCmd + ["--kv-transfer-config", KvTransferConfig];
    assert vllmCmd == VllmFixed(model, tp, s);
    vllmCmd := AppendNonEmpty(vllmCmd, s.vllmArgs);
  }

  /** The argv begins `vllm serve <model> --tensor-parallel-size TP` and the fixed option pairs. */
  lemma VllmCommandStart(model: string, tp: int, s: Settings)
    ensures var cmd := VllmCommand(model, tp, s);
      |cmd| >= 17
      && cmd[..5] == ["vllm", "serve", model, "--tensor-parallel-size", IntToString(tp)]
      && cmd[5..17] == ServeOptions(s)
  {
    var head := ["vllm", "serve", model, "--tensor-parallel-size", IntToString(tp)];
    var rest := Opt(s.noPrefixCaching, [NoPrefixCachingFlag]) + ["--kv-transfer-config", KvTransferConfig]
                + NonEmpty(s.vllmArgs);
    assert VllmCommand(model, tp, s) == head + ServeOptions(s) + rest;
    ConcatHalves(head + ServeOptions(s), rest);
    ConcatHalves(head, ServeOptions(s));
  }

  /** `--no-enable-prefix-caching` is passed exactly when prefix caching is disabled, right after the fixed pairs. */
  lemma VllmPrefixCachingFlag(model: string, tp: int, s: Settings)
    ensures var cmd := VllmCommand(model, tp, s);
      |cmd| > 18 && (cmd[17] == NoPrefixCachingFlag <==> s.noPrefixCaching)
  {
    if !s.noPrefixCaching {
      assert VllmCommand(model, tp, s)[17] == "--kv-transfer-config";
    }
  }

  /** The KV-transfer configuration is always passed, as one argument after its flag. */
  lemma VllmKvTransferAlways(model: string, tp: int, s: Settings)
    ensures var k := 17 + |Opt(s.noPrefixCaching, [NoPrefixCachingFlag])|;
      k + 1 < |VllmCommand(model, tp, s)|
      && VllmCommand(model, tp, s)[k] == "--kv-transfer-config"
      && VllmCommand(model, tp, s)[k + 1] == KvTransferConfig
  {
  }

  /** The user arguments come last, in order, without the empty ones. */
  lemma VllmUserArgsLast(model: string, tp: int, s: Settings)
    ensures var cmd := VllmCommand(model, tp, s);
      |VllmFixed(model, tp, s)| <= |cmd| && cmd[|VllmFixed(model, tp, s)|..] == NonEmpty(s.vllmArgs)
  {
    ConcatHalves(VllmFixed(model, tp, s), NonEmpty(s.vllmArgs));
  }

  // ---------------------------------------------------------------------
  // The container environment
  // ---------------------------------------------------------------------

  /** The environment the container receives: no Prometheus or fastsafetensors variables here. */
  function LegacyEnv(cudaVisibleDevices: string, s: Settings): seq<string>
  {
    Opt(cudaVisibleDevices != "" && s.gpuSlots != "", [Entry("CUDA_VISIBLE_DEVICES", cudaVisibleDevices)])
    + LmcacheEnv("LMCACHE_PATH", s)
    + [Entry("HF_HOME", s.hfHome)]
    + NonEmpty(s.vllmEnv)
  }

  /** The environment part of the argv, as the generator appends it. */
  function LegacyEnvArgs(cudaVisibleDevices: string, s: Settings): seq<string>
  {
    CudaArgs(cudaVisibleDevices, s)
    + DockerLmcacheArgs("LMCACHE_PATH", s)
    + ["-e", Entry("HF_HOME", s.hfHome)]
    + FlagEach("-e", s.vllmEnv)
  }

  /** The environment appends, from `CUDA_VISIBLE_DEVICES` to the last `--vllm-env` entry. */
  method AppendLegacyEnv(cmd0: seq<string>, cudaVisibleDevices: string, s: Settings) returns (cmd: seq<string>)
    ensures cmd == cmd0 + LegacyEnvArgs(cudaVisibleDevices, s)
  {
    cmd := cmd0;
    if cudaVisibleDevices != "" && s.gpuSlots != "" {
      cmd := cmd + ["-e", Entry("CUDA_VISIBLE_DEVICES", cudaVisibleDevices)];
    }
    assert cmd == cmd0 + CudaArgs(cudaVisibleDevices, s);
    ghost var c1 := cmd;
    cmd := cmd + ["-e", Entry("LMCACHE_PATH", s.lmcachePath)];
    cmd := cmd + ["-e", Entry("LMCACHE_CHUNK_SIZE", IntToString(s.lmcacheChunkSize))];
    cmd := cmd + ["-e", Entry("LMCACHE_EXTRA_CONFIG", ExtraConfig(s.lmcacheGdsThreads))];
    cmd := cmd + ["-e", Entry("LMCACHE_CUFILE_BUFFER_SIZE", s.lmcacheCufileBufferSize)];
    cmd := cmd + ["-e", Entry("LMCACHE_LOCAL_CPU", BoolToString(s.lmcacheLocalCpu))];
    cmd := cmd + ["-e", Entry("LMCACHE_SAVE_DECODE_CACHE", BoolToString(s.lmcacheSaveDecodeCache))];
    AppendLmcacheArgs(c1, "LMCACHE_PATH", s);
    assert cmd == c1 + DockerLmcacheArgs("LMCACHE_PATH", s);
    cmd := cmd + ["-e", Entry("HF_HOME", s.hfHome)];
    AppendAssoc(cmd0, CudaArgs(cudaVisibleDevices, s), DockerLmcacheArgs("LMCACHE_PATH", s));
    ghost var fixedArgs := CudaArgs(cudaVisibleDevices, s) + DockerLmcacheArgs("LMCACHE_PATH", s);
    AppendAssoc(cmd0, fixedArgs, ["-e", Entry("HF_HOME", s.hfHome)]);
    fixedArgs := fixedArgs + ["-e", Entry("HF_HOME", s.hfHome)];
    assert cmd == cmd0 + fixedArgs;
    AppendAssoc(cmd0, fixedArgs, FlagEach("-e", s.vllmEnv));
    cmd := AppendFlagEach(cmd, "-e", s.vllmEnv);
  }

  /** Every variable of the container environment is passed as its own `-e` argument, in order. */
  lemma LegacyEnvPaired(cudaVisibleDevices: string, s: Settings)
    ensures LegacyEnvArgs(cudaVisibleDevices, s) == FlagEach("-e", LegacyEnv(cudaVisibleDevices, s))
  {
    var a := Opt(cudaVisibleDevices != "" && s.gpuSlots != "", [Entry("CUDA_VISIBLE_DEVICES", cudaVisibleDevices)]);
    var b := LmcacheEnv("LMCACHE_PATH", s);
    var c := [Entry("HF_HOME", s.hfHome)];
    var e := NonEmpty(s.vllmEnv);
    FlagOptEntry(cudaVisibleDevices != "" && s.gpuSlots != "", "CUDA_VISIBLE_DEVICES", cudaVisibleDevices);
    DockerLmcacheArgsPaired("LMCACHE_PATH", s);
    FlagEachOne("-e", Entry("HF_HOME", s.hfHome));
    FlagEachNonEmpty("-e", s.vllmEnv);
    FlagEachFour("-e", a, b, c, e);
  }

  /** The names of the variables the generator sets itself, in order. */
  function LegacyEnvFixedKeys(cudaVisibleDevices: string, s: Settings): seq<string>
  {
    Opt(cudaVisibleDevices != "" && s.gpuSlots != "", ["CUDA_VISIBLE_DEVICES"])
    + ["LMCACHE_PATH", "LMCACHE_CHUNK_SIZE", "LMCACHE_EXTRA_CONFIG",
       "LMCACHE_CUFILE_BUFFER_SIZE", "LMCACHE_LOCAL_CPU", "LMCACHE_SAVE_DECODE_CACHE"]
    + ["HF_HOME"]
  }

  /**
   * The variables the generator sets itself, in order: `CUDA_VISIBLE_DEVICES`
   * only with gpu-slots (and devices), the six LMCache variables, then `HF_HOME`;
   * the user's entries follow.
   */
  lemma LegacyEnvKeys(cudaVisibleDevices: string, s: Settings)
    ensures var fixed := Opt(cudaVisibleDevices != "" && s.gpuSlots != "", [Entry("CUDA_VISIBLE_DEVICES", cudaVisibleDevices)])
                         + LmcacheEnv("LMCACHE_PATH", s) + [Entry("HF_HOME", s.hfHome)];
      LegacyEnv(cudaVisibleDevices, s) == fixed + NonEmpty(s.vllmEnv)
      && Keys(fixed) == LegacyEnvFixedKeys(cudaVisibleDevices, s)
  {
    CudaNamePlain();
    LmcachePathNamePlain();
    HfHomeNamePlain();
    var a := Opt(cudaVisibleDevices != "" && s.gpuSlots != "", [Entry("CUDA_VISIBLE_DEVICES", cudaVisibleDevices)]);
    var b := LmcacheEnv("LMCACHE_PATH", s);
    var c := [Entry("HF_HOME", s.hfHome)];
    KeysOfOptEntry(cudaVisibleDevices != "" && s.gpuSlots != "", "CUDA_VISIBLE_DEVICES", cudaVisibleDevices);
    LmcacheEnvKeys("LMCACHE_PATH", s);
    KeysOfOptEntry(true, "HF_HOME", s.hfHome);
    KeysConcat(a, b);
    KeysConcat(a + b, c);
  }

  /** Empty `--vllm-env`, `--docker-arg` and `--vllm-arg` values never reach the argv. */
  lemma LegacyUserValuesNonEmpty(s: Settings)
    ensures "" !in FlagEach("-e", s.vllmEnv)
    ensures DockerTail(s)[2..] == NonEmpty(s.dockerArgs) && "" !in NonEmpty(s.dockerArgs)
    ensures "" !in NonEmpty(s.vllmArgs)
  {
    var r := FlagEach("-e", s.vllmEnv);
    forall i | 0 <= i < |r|
      ensures r[i] != ""
    {
      if i % 2 == 0 {
        assert r[2 * (i / 2)] == "-e";
      } else {
        assert r[2 * (i / 2) + 1] == NonEmpty(s.vllmEnv)[i / 2];
      }
    }
    ConcatHalves(PortMapping(s.port), NonEmpty(s.dockerArgs));
  }

  // ---------------------------------------------------------------------
  // The docker argv and the command run
  // ---------------------------------------------------------------------

  /** Everything before the image. */
  function LegacyRunArgs(cudaVisibleDevices: string, ibFlags: string, s: Settings): seq<string>
  {
    DockerHead(ibFlags, s) + LegacyEnvArgs(cudaVisibleDevices, s) + DockerTail(s)
  }

  /**
   * What `generateDockerCommand` returns. The image is the docker-image setting
   * when non-empty, else the default, which is pulled if needed; what that pull
   * reports is the input `pull`, and the default is used after it either way.
   */
  function DockerCommand(model: string, cudaVisibleDevices: string, tp: int, ibFlags: string, s: Settings,
                         defaultImage: string, pull: Outcome): Result<seq<string>>
  {
    if s.dockerImage == "" && pull.Fail? then Err("failed to ensure Docker image is available: " + pull.error)
    else
      var image := if s.dockerImage != "" then s.dockerImage else defaultImage;
      Ok(LegacyRunArgs(cudaVisibleDevices, ibFlags, s) + [image] + VllmCommand(model, tp, s))
  }

  /** `generateDockerCommand`: the docker options in order, the image, then `vllm serve`. */
  method GenerateDockerCommand(model: string, cudaVisibleDevices: string, tp: int, ibFlags: string, s: Settings,
                               defaultImage: string, pull: Outcome)
    returns (r: Result<seq<string>>)
    ensures r == DockerCommand(model, cudaVisibleDevices, tp, ibFlags, s, defaultImage, pull)
  {
    var cmd := AppendDockerHead(ibFlags, s);
    cmd := AppendLegacyEnv(cmd, cudaVisibleDevices, s);
    cmd := AppendDockerTail(cmd, s);
    var dockerImage := s.dockerImage;
    if dockerImage == "" {
      dockerImage := defaultImage;
      if pull.Fail? {
        return Err("failed to ensure Docker image is available: " + pull.error);
      }
    }
    cmd := cmd + [dockerImage];
    var vllmCmd := BuildVllmCommand(model, tp, s);
    cmd := cmd + vllmCmd;
    r := Ok(cmd);
  }

  /**
   * The argv is the docker options, the image, then `vllm serve`; it fails only
   * when no image is given and pulling the default fails. A given image is
   * used as is, without a pull.
   */
  lemma DockerCommandLayout(model: string, cudaVisibleDevices: string, tp: int, ibFlags: string, s: Settings,
                            defaultImage: string, pull: Outcome)
    ensures var r := DockerCommand(model, cudaVisibleDevices, tp, ibFlags, s, defaultImage, pull);
      var n := |LegacyRunArgs(cudaVisibleDevices, ibFlags, s)|;
      (r.Ok? <==> s.dockerImage != "" || pull.Pass?)
      && (r.Ok? ==>
            n < |r.value|
            && r.value[..n] == LegacyRunArgs(cudaVisibleDevices, ibFlags, s)
            && r.value[n] == (if s.dockerImage != "" then s.dockerImage else defaultImage)
            && r.value[n + 1..] == VllmCommand(model, tp, s))
  {
    var r := DockerCommand(model, cudaVisibleDevices, tp, ibFlags, s, defaultImage, pull);
    if r.Ok? {
      var pre := LegacyRunArgs(cudaVisibleDevices, ibFlags, s);
      var image := if s.dockerImage != "" then s.dockerImage else defaultImage;
      AppendAssoc(pre, [image], VllmCommand(model, tp, s));
      ConcatHalves(pre, [image] + VllmCommand(model, tp, s));
    }
  }

  // ---------------------------------------------------------------------
  // Preflight and the whole command
  // ---------------------------------------------------------------------

  /**
   * `performPreflightChecks`: docker on the PATH, then the weka mount, then
   * the Hugging Face directory; an empty path is not checked. What `LookPath`
   * and `os.Stat` report are inputs.
   */
  function PreflightChecks(dockerFound: bool, s: Settings, wekaStatus: PathStatus, hfStatus: PathStatus): (r: Outcome)
    ensures r.Pass? <==> dockerFound && (s.wekaMount == "" || wekaStatus.Exists?) && (s.hfHome == "" || hfStatus.Exists?)
    ensures !dockerFound ==> r == Fail(DockerMissingError)
    ensures dockerFound && CheckWekaMount(s.wekaMount, wekaStatus).Fail? ==> r == CheckWekaMount(s.wekaMount, wekaStatus)
  {
    if !dockerFound then Fail(DockerMissingError)
    else if CheckWekaMount(s.wekaMount, wekaStatus).Fail? then CheckWekaMount(s.wekaMount, wekaStatus)
    else CheckHfHome(s.hfHome, hfStatus)
  }

  /** How the legacy docker launch ends, given its effects as inputs. */
  function RunLaunch(model: string, s: Settings, dockerFound: bool, wekaStatus: PathStatus, hfStatus: PathStatus,
                     gpuCount: Result<int>, ibFlags: Result<string>, defaultImage: string, pull: Outcome,
                     run: Outcome): DockerRun
  {
    var preflight := PreflightChecks(dockerFound, s, wekaStatus, hfStatus);
    if preflight.Fail? then DockerRefused(preflight.error)
    else
      var alloc := Allocate(s.gpuSlots, s.tensorParallelSize, gpuCount);
      if alloc.Err? then DockerRefused(alloc.error)
      else
        var ib := if ibFlags.Ok? then ibFlags.value else "";
        var cmd := DockerCommand(model, alloc.value.cudaVisibleDevices, alloc.value.tensorParallelSize, ib, s,
                                 defaultImage, pull);
        if cmd.Err? then DockerRefused("failed to generate Docker command: " + cmd.error)
        else if s.dryRun then DockerDryRun(cmd.value)
        else DockerLaunched(cmd.value, CheckDockerCommand(cmd.value, run))
  }

  /** Failing to detect InfiniBand devices is the same as having none. */
  lemma RunLaunchIbOptional(model: string, s: Settings, dockerFound: bool, wekaStatus: PathStatus, hfStatus: PathStatus,
                            gpuCount: Result<int>, ibError: string, defaultImage: string, pull: Outcome, run: Outcome)
    ensures RunLaunch(model, s, dockerFound, wekaStatus, hfStatus, gpuCount, Err(ibError), defaultImage, pull, run)
         == RunLaunch(model, s, dockerFound, wekaStatus, hfStatus, gpuCount, Ok(""), defaultImage, pull, run)
  {
  }

  /** A dry run never starts docker, and only a dry run stops at showing the argv. */
  lemma RunLaunchDry(model: string, s: Settings, dockerFound: bool, wekaStatus: PathStatus, hfStatus: PathStatus,
                     gpuCount: Result<int>, ibFlags: Result<string>, defaultImage: string, pull: Outcome, run: Outcome)
    ensures var r := RunLaunch(model, s, dockerFound, wekaStatus, hfStatus, gpuCount, ibFlags, defaultImage, pull, run);
      (r.DockerDryRun? ==> s.dryRun) && (r.DockerLaunched? ==> !s.dryRun)
  {
  }

  /**
   * A run that gets past the checks found docker and every non-empty path,
   * allocated the GPUs and uses that allocation.
   */
  lemma RunLaunchUsesAllocation(model: string, s: Settings, dockerFound: bool, wekaStatus: PathStatus, hfStatus: PathStatus,
                                gpuCount: Result<int>, ibFlags: Result<string>, defaultImage: string, pull: Outcome,
                                run: Outcome)
    ensures var r := RunLaunch(model, s, dockerFound, wekaStatus, hfStatus, gpuCount, ibFlags, defaultImage, pull, run);
      var alloc := Allocate(s.gpuSlots, s.tensorParallelSize, gpuCount);
      var ib := if ibFlags.Ok? then ibFlags.value else "";
      !r.DockerRefused? ==>
        dockerFound && (s.wekaMount == "" || wekaStatus.Exists?) && (s.hfHome == "" || hfStatus.Exists?)
        && alloc.Ok?
        && DockerCommand(model, alloc.value.cudaVisibleDevices, alloc.value.tensorParallelSize, ib, s,
                         defaultImage, pull) == Ok(r.dockerCmd)
  {
    var r := RunLaunch(model, s, dockerFound, wekaStatus, hfStatus, gpuCount, ibFlags, defaultImage, pull, run);
    if !r.DockerRefused? {
      assert PreflightChecks(dockerFound, s, wekaStatus, hfStatus).Pass?;
    }
  }

  /** A launch fails exactly when docker does: the argv is never empty. */
  lemma RunLaunchOutcome(model: string, s: Settings, dockerFound: bool, wekaStatus: PathStatus, hfStatus: PathStatus,
                         gpuCount: Result<int>, ibFlags: Result<string>, defaultImage: string, pull: Outcome,
                         run: Outcome)
    ensures var r := RunLaunch(model, s, dockerFound, wekaStatus, hfStatus, gpuCount, ibFlags, defaultImage, pull, run);
      r.DockerLaunched? ==> (r.outcome.Pass? <==> run.Pass?)
  {
    var r := RunLaunch(model, s, dockerFound, wekaStatus, hfStatus, gpuCount, ibFlags, defaultImage, pull, run);
    if r.DockerLaunched? {
      var alloc := Allocate(s.gpuSlots, s.tensorParallelSize, gpuCount);
      var ib := if ibFlags.Ok? then ibFlags.value else "";
      DockerCommandLayout(model, alloc.value.cudaVisibleDevices, alloc.value.tensorParallelSize, ib, s, defaultImage, pull);
      CheckDockerCommandEmpty(r.dockerCmd, run);
    }
  }
}
