/**
 * The settings the three launch commands read through viper, the default
 * values of `tools/amgctl/cmd/constants.go`, and the argv and environment
 * pieces that the host launch and both docker launch commands share.
 */
module LaunchSettings {
  import opened Wrappers
  import opened Strings

  /**
   * The flag values after viper has merged defaults, config and command line,
   * plus the set of flag names the user set explicitly (cobra's `Changed`).
   * `gpuMemUtil` holds the value as `%.2f` prints it; `lmcachePath` is
   * `lmcache-weka-path` for the host and docker launch, `lmcache-path` for the
   * legacy docker launch.
   */
  datatype Settings = Settings(
    wekaMount: string, gpuMemUtil: string, maxSequences: int, maxModelLen: int,
    maxBatchedTokens: int, port: int, gpuSlots: string, tensorParallelSize: int,
    dockerImage: string, dryRun: bool,
    lmcachePath: string, lmcacheChunkSize: int, lmcacheGdsThreads: int,
    lmcacheCufileBufferSize: string, lmcacheLocalCpu: bool, lmcacheSaveDecodeCache: bool,
    hfHome: string, prometheusDir: string, noPrometheus: bool,
    noPrefixCaching: bool, skipFastSafetensors: bool, skipCufileConfigure: bool,
    generateCufileJson: bool,
    dockerArgs: seq<string>, vllmArgs: seq<string>, vllmEnv: seq<string>,
    changed: set<Flag>)

  /** The command-line flags whose cobra `Changed` state the docker launch consults. */
  datatype Flag =
    | FlagGpuSlots | FlagGpuMemUtil | FlagMaxSequences | FlagMaxModelLen | FlagMaxNumBatchedTokens | FlagPort
    | FlagWekaMount | FlagLmcacheWekaPath | FlagLmcacheChunkSize | FlagLmcacheGdsThreads
    | FlagLmcacheCufileBufferSize | FlagLmcacheLocalCpu | FlagLmcacheSaveDecodeCache
    | FlagHfHome | FlagPrometheusMultiprocDir | FlagNoEnablePrefixCaching | FlagSkipSafefasttensors
    | FlagSkipCufileConfigure | FlagVllmArg | FlagVllmEnv
    | FlagTensorParallelSize | FlagDockerImage | FlagDryRun | FlagDockerArg

  const DefaultGpuMemUtil: string := "0.80"
  const DefaultMaxSequences: int := 256
  const DefaultMaxModelLen: int := 16384
  const DefaultMaxBatchedTokens: int := 16384
  const DefaultPort: int := 8000
  const DefaultWekaMount: string := "/mnt/weka"
  const DefaultHfHome: string := "/mnt/weka/hf_cache"
  const DefaultLmcachePath: string := "/mnt/weka/cache"
  const DefaultLmcacheChunkSize: int := 256
  const DefaultLmcacheGdsThreads: int := 32
  const DefaultLmcacheCufileBuffer: string := "8192"
  const DefaultLmcacheSaveDecodeCache: bool := true
  const DefaultPrometheusMultiprocDir: string := "/tmp/lmcache_prometheus"

  /** What `os.Stat` reports for a path. */
  datatype PathStatus = Exists | NotExist | StatError(message: string)

  /** `xs` when `c` holds, nothing otherwise: one guarded `append`. */
  function Opt(c: bool, xs: seq<string>): seq<string> { if c then xs else [] }

  /** The KV-transfer configuration every vLLM command carries. */
  const KvTransferConfig: string :=
    "{\"kv_connector\":\"LMCacheConnectorV1\",\"kv_role\":\"kv_both\",\"kv_connector_extra_config\": {}}"

  /** The option pairs both `vllm serve` builders add after the tensor-parallel size. */
  function ServeOptions(s: Settings): (r: seq<string>)
    ensures |r| == 12
    ensures r[0] == "--gpu-memory-utilization" && r[1] == s.gpuMemUtil
    ensures r[2] == "--max-num-seqs" && r[3] == IntToString(s.maxSequences)
    ensures r[4] == "--max-model-len" && r[5] == IntToString(s.maxModelLen)
    ensures r[6] == "--max-num-batched-tokens" && r[7] == IntToString(s.maxBatchedTokens)
    ensures r[8] == "--port" && r[9] == IntToString(s.port)
    ensures r[10] == "--host" && r[11] == "0.0.0.0"
  {
    ["--gpu-memory-utilization", s.gpuMemUtil,
     "--max-num-seqs", IntToString(s.maxSequences),
     "--max-model-len", IntToString(s.maxModelLen),
     "--max-num-batched-tokens", IntToString(s.maxBatchedTokens),
     "--port", IntToString(s.port),
     "--host", "0.0.0.0"]
  }

  /** `LMCACHE_EXTRA_CONFIG`: a JSON object whose only field is the GDS thread count. */
  function ExtraConfig(gdsThreads: int): string {
    "{\"gds_io_threads\": " + IntToString(gdsThreads) + "}"
  }

  /** The six LMCache variables, the first named `pathVar`. */
  function LmcacheEnv(pathVar: string, s: Settings): (r: seq<string>)
    ensures |r| == 6
    ensures r[2] == "LMCACHE_EXTRA_CONFIG=" + ExtraConfig(s.lmcacheGdsThreads)
  {
    [Entry(pathVar, s.lmcachePath),
     Entry("LMCACHE_CHUNK_SIZE", IntToString(s.lmcacheChunkSize)),
     Entry("LMCACHE_EXTRA_CONFIG", ExtraConfig(s.lmcacheGdsThreads)),
     Entry("LMCACHE_CUFILE_BUFFER_SIZE", s.lmcacheCufileBufferSize),
     Entry("LMCACHE_LOCAL_CPU", BoolToString(s.lmcacheLocalCpu)),
     Entry("LMCACHE_SAVE_DECODE_CACHE", BoolToString(s.lmcacheSaveDecodeCache))]
  }

  /** The LMCache block sets exactly these variables, in this order. */
  lemma LmcacheEnvKeys(pathVar: string, s: Settings)
    requires '=' !in pathVar
    ensures Keys(LmcacheEnv(pathVar, s)) ==
      [pathVar, "LMCACHE_CHUNK_SIZE", "LMCACHE_EXTRA_CONFIG",
       "LMCACHE_CUFILE_BUFFER_SIZE", "LMCACHE_LOCAL_CPU", "LMCACHE_SAVE_DECODE_CACHE"]
  {
    LmcacheNamesPlain();
    KeyOfEntry(pathVar, s.lmcachePath);
    KeyOfEntry("LMCACHE_CHUNK_SIZE", IntToString(s.lmcacheChunkSize));
    KeyOfEntry("LMCACHE_EXTRA_CONFIG", ExtraConfig(s.lmcacheGdsThreads));
    KeyOfEntry("LMCACHE_CUFILE_BUFFER_SIZE", s.lmcacheCufileBufferSize);
    KeyOfEntry("LMCACHE_LOCAL_CPU", BoolToString(s.lmcacheLocalCpu));
    KeyOfEntry("LMCACHE_SAVE_DECODE_CACHE", BoolToString(s.lmcacheSaveDecodeCache));
    SameElements(Keys(LmcacheEnv(pathVar, s)),
      [pathVar, "LMCACHE_CHUNK_SIZE", "LMCACHE_EXTRA_CONFIG",
       "LMCACHE_CUFILE_BUFFER_SIZE", "LMCACHE_LOCAL_CPU", "LMCACHE_SAVE_DECODE_CACHE"]);
  }

  /** The fixed LMCache variable names hold no '='. */
  lemma LmcacheNamesPlain()
    ensures '=' !in "LMCACHE_CHUNK_SIZE" && '=' !in "LMCACHE_EXTRA_CONFIG" && '=' !in "LMCACHE_CUFILE_BUFFER_SIZE"
    ensures '=' !in "LMCACHE_LOCAL_CPU" && '=' !in "LMCACHE_SAVE_DECODE_CACHE"
  {
  }

  /** The other fixed variable names hold no '=' either. */
  lemma CudaNamePlain() ensures '=' !in "CUDA_VISIBLE_DEVICES" {}
  lemma CufileNamePlain() ensures '=' !in "CUFILE_ENV_PATH_JSON" {}
  lemma LmcachePathNamePlain() ensures '=' !in "LMCACHE_WEKA_PATH" && '=' !in "LMCACHE_PATH" {}
  lemma HfHomeNamePlain() ensures '=' !in "HF_HOME" {}
  lemma PrometheusNamePlain() ensures '=' !in "PROMETHEUS_MULTIPROC_DIR" {}
  lemma FastSafetensorNamePlain() ensures '=' !in "USE_FASTSAFETENSOR" {}

  /** One `KEY=VALUE` environment entry. */
  function Entry(key: string, value: string): (e: string)
    ensures |e| == |key| + 1 + |value| && e[|key|] == '='
  {
    key + "=" + value
  }

  /** The name of a `KEY=VALUE` entry: the text before its first '='. */
  function KeyOf(entry: string): (k: string)
    ensures k <= entry && '=' !in k
    decreases |entry|
  {
    if |entry| == 0 || entry[0] == '=' then "" else [entry[0]] + KeyOf(entry[1..])
  }

  lemma {:induction false} KeyOfEntry(key: string, value: string)
    requires '=' !in key
    ensures KeyOf(Entry(key, value)) == key
    decreases |key|
  {
    if |key| > 0 {
      KeyOfEntry(key[1..], value);
      assert Entry(key, value)[1..] == Entry(key[1..], value);
    }
  }

  /** The variable names of an environment list, in order. */
  function Keys(entries: seq<string>): (r: seq<string>)
    ensures |r| == |entries|
    ensures forall i :: 0 <= i < |r| ==> r[i] == KeyOf(entries[i])
  {
    seq(|entries|, i requires 0 <= i < |entries| => KeyOf(entries[i]))
  }

  /** A guarded single entry names its variable exactly when the guard holds. */
  lemma KeysOfOptEntry(c: bool, key: string, value: string)
    requires '=' !in key
    ensures Keys(Opt(c, [Entry(key, value)])) == Opt(c, [key])
  {
    if c {
      KeyOfEntry(key, value);
      SameElements(Keys([Entry(key, value)]), [key]);
    }
  }

  lemma KeysConcat(a: seq<string>, b: seq<string>)
    ensures Keys(a + b) == Keys(a) + Keys(b)
  {
  }

  // ---------------------------------------------------------------------
  // Pieces shared by the two docker launch commands
  // ---------------------------------------------------------------------

  /** `docker run -d --gpus all --runtime nvidia --network host --ipc host`. */
  const DockerPrefix: seq<string> :=
    ["docker", "run", "-d", "--gpus", "all", "--runtime", "nvidia", "--network", "host", "--ipc", "host"]

  /** The Weka mount, always mapped to `/mnt/weka` in the container. */
  function Volume(s: Settings): seq<string> {
    ["-v", s.wekaMount + ":/mnt/weka"]
  }

  /** `-p P:P`. */
  function PortMapping(port: int): seq<string> {
    ["-p", IntToString(port) + ":" + IntToString(port)]
  }

  /** What both generators put before the environment: the fixed prefix, the IB device flags and the volume. */
  function DockerHead(ibFlags: string, s: Settings): seq<string> {
    DockerPrefix + Opt(ibFlags != "", Fields(ibFlags)) + Volume(s)
  }

  /** What both generators put between the environment and the image: the port mapping and the user's docker args. */
  function DockerTail(s: Settings): seq<string> {
    PortMapping(s.port) + NonEmpty(s.dockerArgs)
  }

  /** `CUDA_VISIBLE_DEVICES`, passed only when the devices came from `--gpu-slots`. */
  function CudaArgs(cudaVisibleDevices: string, s: Settings): seq<string> {
    Opt(cudaVisibleDevices != "" && s.gpuSlots != "", ["-e", Entry("CUDA_VISIBLE_DEVICES", cudaVisibleDevices)])
  }

  /** The appends up to the volume mount; the IB flags are split on white space. */
  method AppendDockerHead(ibFlags: string, s: Settings) returns (cmd: seq<string>)
    ensures cmd == DockerHead(ibFlags, s)
  {
    cmd := ["docker", "run", "-d"];
    cmd := cmd + ["--gpus", "all"];
    cmd := cmd + ["--runtime", "nvidia"];
    cmd := cmd + ["--network", "host"];
    cmd := cmd + ["--ipc", "host"];
    assert cmd == DockerPrefix;
    if ibFlags != "" {
      var deviceFlags := Fields(ibFlags);
      cmd := cmd + deviceFlags;
    }
    cmd := cmd + ["-v", s.wekaMount + ":/mnt/weka"];
  }

  /** The appends from the port mapping to the last docker argument. */
  method AppendDockerTail(cmd0: seq<string>, s: Settings) returns (cmd: seq<string>)
    ensures cmd == cmd0 + DockerTail(s)
  {
    cmd := cmd0 + ["-p", IntToString(s.port) + ":" + IntToString(s.port)];
    AppendAssoc(cmd0, PortMapping(s.port), NonEmpty(s.dockerArgs));
    cmd := AppendNonEmpty(cmd, s.dockerArgs);
  }

  /** The six LMCache variables as `-e` arguments, one `append` each. */
  function DockerLmcacheArgs(pathVar: string, s: Settings): seq<string> {
    ["-e", Entry(pathVar, s.lmcachePath),
     "-e", Entry("LMCACHE_CHUNK_SIZE", IntToString(s.lmcacheChunkSize)),
     "-e", Entry("LMCACHE_EXTRA_CONFIG", ExtraConfig(s.lmcacheGdsThreads)),
     "-e", Entry("LMCACHE_CUFILE_BUFFER_SIZE", s.lmcacheCufileBufferSize),
     "-e", Entry("LMCACHE_LOCAL_CPU", BoolToString(s.lmcacheLocalCpu)),
     "-e", Entry("LMCACHE_SAVE_DECODE_CACHE", BoolToString(s.lmcacheSaveDecodeCache))]
  }

  /** Each LMCache variable is passed as its own `-e` argument, in the order of the environment block. */
  lemma DockerLmcacheArgsPaired(pathVar: string, s: Settings)
    ensures DockerLmcacheArgs(pathVar, s) == FlagEach("-e", LmcacheEnv(pathVar, s))
  {
    FlagSix("-e", Entry(pathVar, s.lmcachePath),
      Entry("LMCACHE_CHUNK_SIZE", IntToString(s.lmcacheChunkSize)),
      Entry("LMCACHE_EXTRA_CONFIG", ExtraConfig(s.lmcacheGdsThreads)),
      Entry("LMCACHE_CUFILE_BUFFER_SIZE", s.lmcacheCufileBufferSize),
      Entry("LMCACHE_LOCAL_CPU", BoolToString(s.lmcacheLocalCpu)),
      Entry("LMCACHE_SAVE_DECODE_CACHE", BoolToString(s.lmcacheSaveDecodeCache)));
  }

  /** A guarded single entry, flagged. */
  lemma FlagOptEntry(c: bool, key: string, value: string)
    ensures FlagEach("-e", Opt(c, [Entry(key, value)])) == Opt(c, ["-e", Entry(key, value)])
  {
    if c {
      FlagEachOne("-e", Entry(key, value));
    }
  }

  /** Six appends of `-e X` give the LMCache argument block. */
  lemma AppendLmcacheArgs(xs: seq<string>, pathVar: string, s: Settings)
    ensures xs + ["-e", Entry(pathVar, s.lmcachePath)]
      + ["-e", Entry("LMCACHE_CHUNK_SIZE", IntToString(s.lmcacheChunkSize))]
      + ["-e", Entry("LMCACHE_EXTRA_CONFIG", ExtraConfig(s.lmcacheGdsThreads))]
      + ["-e", Entry("LMCACHE_CUFILE_BUFFER_SIZE", s.lmcacheCufileBufferSize)]
      + ["-e", Entry("LMCACHE_LOCAL_CPU", BoolToString(s.lmcacheLocalCpu))]
      + ["-e", Entry("LMCACHE_SAVE_DECODE_CACHE", BoolToString(s.lmcacheSaveDecodeCache))]
      == xs + DockerLmcacheArgs(pathVar, s)
  {
    AppendSixPairs(xs, "-e", Entry(pathVar, s.lmcachePath),
      "-e", Entry("LMCACHE_CHUNK_SIZE", IntToString(s.lmcacheChunkSize)),
      "-e", Entry("LMCACHE_EXTRA_CONFIG", ExtraConfig(s.lmcacheGdsThreads)),
      "-e", Entry("LMCACHE_CUFILE_BUFFER_SIZE", s.lmcacheCufileBufferSize),
      "-e", Entry("LMCACHE_LOCAL_CPU", BoolToString(s.lmcacheLocalCpu)),
      "-e", Entry("LMCACHE_SAVE_DECODE_CACHE", BoolToString(s.lmcacheSaveDecodeCache)));
  }

  const DockerMissingError: string :=
    "docker command not found in PATH. Please install Docker and ensure it's available in your system PATH"

  /** The weka-mount check of both preflights: an empty path is not checked. */
  function CheckWekaMount(wekaMount: string, status: PathStatus): (r: Outcome)
    ensures r.Pass? <==> wekaMount == "" || status.Exists?
  {
    if wekaMount == "" then Pass
    else match status
      case Exists => Pass
      case NotExist => Fail("weka mount path '" + wekaMount
                            + "' does not exist. Please ensure the path exists or specify a different --weka-mount")
      case StatError(m) => Fail("failed to access weka mount path '" + wekaMount + "': " + m)
  }

  /** The hf-home check of both preflights: an empty path is not checked. */
  function CheckHfHome(hfHome: string, status: PathStatus): (r: Outcome)
    ensures r.Pass? <==> hfHome == "" || status.Exists?
  {
    if hfHome == "" then Pass
    else match status
      case Exists => Pass
      case NotExist => Fail("hugging Face cache directory '" + hfHome
                            + "' does not exist. Please create the directory or specify a different --hf-home")
      case StatError(m) => Fail("failed to access Hugging Face cache directory '" + hfHome + "': " + m)
  }

  /** The guard of `executeDockerCommand`/`executeDockerLaunchCommand`. */
  function CheckDockerCommand(dockerCmd: seq<string>, run: Outcome): Outcome
  {
    if |dockerCmd| == 0 then Fail("docker command is empty")
    else if run.Fail? then Fail("docker command failed: " + run.error)
    else Pass
  }

  /** An empty argv is refused with its own message; a non-empty one reports how docker ended. */
  lemma CheckDockerCommandEmpty(dockerCmd: seq<string>, run: Outcome)
    ensures |dockerCmd| == 0 <==> CheckDockerCommand(dockerCmd, run) == Fail("docker command is empty")
    ensures |dockerCmd| > 0 ==> (CheckDockerCommand(dockerCmd, run).Pass? <==> run.Pass?)
  {
    if |dockerCmd| > 0 && run.Fail? {
      assert ("docker command failed: " + run.error)[15] == 'f';
    }
  }

  /** How one docker launch ends. */
  datatype DockerRun =
    | DockerRefused(error: string)
    | DockerDryRun(dockerCmd: seq<string>)
    | DockerLaunched(dockerCmd: seq<string>, outcome: Outcome)
}
