# amg-utils core, modelled in Dafny

This project models the decision and assembly logic of the amg-utils repository and proves properties of it. The repository has three parts: an LMCache chunk benchmark, the `amgctl` command-line tool, and the `amg-qad` QA daemon. Every external effect is a parameter of the model: the GPU, the LMCache engine, processes, HTTP, the filesystem, viper/cobra settings, sysfs and `net`. Each run is then a deterministic function of those inputs.

The model has one module per area of the source:

- **Benchmark** (`benchmarks/benchmark_lmcache_chunk_profiling.py`):
  - `BenchTiming`: the per-name timing collector and the profiler state machine, both as classes.
  - `StoreWait`: the poll that turns the fire-and-forget store into a blocking one, over a bounded sequence of backend-queue snapshots.
  - `BenchStats`: mean, variance (the square of the standard deviation), minimum, maximum and outlier flags, over exact reals.
  - `ChunkBenchmark`: the per-configuration result, covering chunk and block arithmetic with Python floor division, the store-failure short circuit, per-iteration error counting, latency as `Inf | Finite(real)` and the zero-throughput rule.
  - `BenchmarkSweep`: the sweep, covering pair order, the clear-once rule, skip-on-exception and the JSON mapping of an infinite latency to `null`.
- **amgctl builders and checks**:
  - `GpuAllocation`: GPU-slot parsing and tensor-parallel selection. The code is identical in the three launchers and is defined once.
  - `HostLaunch`, `DockerLaunch`, `Launch` and the shared `LaunchSettings`: the `vllm`/`docker` argv and environment lists, forwarding only the flags the user changed, the preflight checks and the empty-argv guard.
  - `Cufile`: the idempotent `cufile.json` normalisation.
  - `GdsCheck`: the `gdscheck` output validator.
  - `JsonComments`: the JSON comment stripper.
  - `ActivationScript` and `HostLegacy`: the activation-script rewriters and the older host commands.
  - `ClusterPreflight`: the k8s and minikube tool classification and `/proc/modules` matching.
  - `Infiniband`: device-flag assembly, where the `/dev/infiniband` scan adds no flag twice.
- **Updaters**:
  - `SelfUpdate` (`tools/amgctl/update.go`): version comparison, release, asset and checksum-line selection, and the update/skip decision.
  - `CmdUpdate` (`tools/amgctl/cmd/update.go`): the newer updater.
- **amg-qad**:
  - `QadConfig`: config validation.
  - `QadStorage`: the append-only result log, with its filter, newest-first sort and limit.
  - `QadWeb`: dashboard aggregation and the JSON API.
  - `QadScheduler`: the next run time, folding test outcomes into a suite, and the running flag.
  - `QadTests`: the pass criteria of the QA tests.

`Wrappers` and `Strings` hold the shared `Option`/`Result`/`Outcome` types and Go string semantics:
- `strings.Split` keeps empty pieces; `strings.Fields` splits on Unicode white space and drops them.
- `strconv.Atoi` accepts 64-bit values only.

Go's `sort.Slice` is modelled as a stable insertion sort, which is one of the orders it may produce.

Loops in the source are methods with loop invariants, proved equal to a specification function. Objects updated in place are classes: the timing collector, the profiler, the cuFile configuration, the result log and the scheduler. The lemmas next to each function state what the source promises.

Behaviours of the source the model keeps:
- `DetailedTimer.__exit__` also runs when `retrieve` raises, and the sweep always turns on detailed timing. Failed iterations therefore add a `retrieve_total` sample. The mean includes them, and latency is infinite only when no sample exists, not when every iteration failed.
- `AdvancedProfiler.stop` never clears `active`.
- The comment stripper does not know about string literals: it cuts a `//` inside a quoted URL. `JsonComments.UrlInStringCut` proves this.

## Model

| member | source | states |
|---|---|---|
| BenchTiming.Appended | benchmarks/benchmark_lmcache_chunk_profiling.py:112-117 | one more sample is appended under the timer's name, the list created when absent; every other name keeps its list |
| BenchTiming.AppendedCounts | benchmarks/benchmark_lmcache_chunk_profiling.py:112-117 | recording adds exactly one sample under its own name and none under any other |
| BenchTiming.TimingCollector.Record | benchmarks/benchmark_lmcache_chunk_profiling.py:112-117 | the timer's exit appends its elapsed time to the collector, whether or not the timed body raised |
| BenchTiming.AdvancedProfiler.Start | benchmarks/benchmark_lmcache_chunk_profiling.py:128-140 | the profiler is active exactly for an available pyinstrument or line_profiler backend; a backend object exists once one was created |
| BenchTiming.AdvancedProfiler.Stop | benchmarks/benchmark_lmcache_chunk_profiling.py:142-157 | nothing unless active with a backend; the backend's text for pyinstrument, the fixed placeholder for line_profiler, nothing for any other type |
| BenchTiming.AdvancedProfiler.SaveHtmlReport | benchmarks/benchmark_lmcache_chunk_profiling.py:159-170 | a report is saved exactly when an active pyinstrument profiler's write succeeds; a failing write yields false |
| BenchTiming.ProfileOutput | benchmarks/benchmark_lmcache_chunk_profiling.py:128-157 | a profiler started and stopped yields text exactly when its start switched it on |
| BenchTiming.StartThenStop | benchmarks/benchmark_lmcache_chunk_profiling.py:128-157 | a fresh profiler started then stopped returns exactly `ProfileOutput` |
| BenchStats.SumSqDev | benchmarks/benchmark_lmcache_chunk_profiling.py:555 | the sum of squared deviations behind `np.std` is never negative |
| BenchStats.Variance | benchmarks/benchmark_lmcache_chunk_profiling.py:555 | the population variance (the square of `np.std`) is never negative |
| BenchStats.Min | benchmarks/benchmark_lmcache_chunk_profiling.py:556 | `np.min` is a sample and at most every sample |
| BenchStats.Max | benchmarks/benchmark_lmcache_chunk_profiling.py:557 | `np.max` is a sample and at least every sample |
| BenchStats.SumBounds | benchmarks/benchmark_lmcache_chunk_profiling.py:554 | bounds on every sample bound the sum by count times bound |
| BenchStats.MeanBounded | benchmarks/benchmark_lmcache_chunk_profiling.py:554 | a bound on every sample bounds `np.mean` |
| BenchStats.MeanWithinRange | benchmarks/benchmark_lmcache_chunk_profiling.py:554-557 | the mean lies between the minimum and the maximum sample |
| BenchStats.FewSamplesNoStar | benchmarks/benchmark_lmcache_chunk_profiling.py:560-565 | with at most two samples no time is marked as an outlier |
| BenchStats.SumSqDevAbove | benchmarks/benchmark_lmcache_chunk_profiling.py:555 | if every sample deviates by more than t, the squared deviations sum to more than count times t |
| BenchStats.NotAllStarred | benchmarks/benchmark_lmcache_chunk_profiling.py:560-565 | the outlier mark (deviation above 1.5 standard deviations) never hits every sample of a series |
| BenchStats.StatOf | benchmarks/benchmark_lmcache_chunk_profiling.py:589-594 | a timer's aggregate has min <= mean <= max and a non-negative variance |
| BenchStats.Aggregate | benchmarks/benchmark_lmcache_chunk_profiling.py:585-594 | one aggregate per timer with at least one sample, and no other key |
| StoreWait.EnhancedStoreWithWait | benchmarks/benchmark_lmcache_chunk_profiling.py:307-358 | a raising store is re-raised before any poll; otherwise the result is true exactly when some poll pass finds every backend queue empty, the first such pass ends the polling, and false means every pass was used |
| BenchTiming.TimingCollector.constructor | benchmarks/benchmark_lmcache_chunk_profiling.py:462 | the per-run timing collector starts with no samples |
| BenchTiming.AdvancedProfiler.constructor | benchmarks/benchmark_lmcache_chunk_profiling.py:123-126 | a new profiler keeps its type, has no backend and is not active |
| ChunkBenchmark.FloorDiv | benchmarks/benchmark_lmcache_chunk_profiling.py:382-383 | Python's `//` rounds toward negative infinity: the quotient times the divisor is within one divisor of the dividend, on the dividend's side |
| ChunkBenchmark.CeilingDivision | benchmarks/benchmark_lmcache_chunk_profiling.py:382 | `(n + d - 1) // d` is the ceiling of n / d for a positive divisor, and non-negative for a non-negative n |
| ChunkBenchmark.ChunksAndBlocks | benchmarks/benchmark_lmcache_chunk_profiling.py:382-383 | `num_chunks` chunks of `chunk_size` tokens, and `num_blocks` blocks of 16 tokens, are the fewest that cover every token |
| ChunkBenchmark.DataSizeClosedForm | benchmarks/benchmark_lmcache_chunk_profiling.py:581-582 | the data size is 16384 bytes per token and layer, that is tokens times layers over 64 MiB |
| ChunkBenchmark.Throughput | benchmarks/benchmark_lmcache_chunk_profiling.py:583 | throughput is 0 for an infinite or non-positive latency, otherwise the data size over the latency in GiB/s |
| ChunkBenchmark.RetrieveErrorDetails | benchmarks/benchmark_lmcache_chunk_profiling.py:513-521 | a failing iteration adds one message, and a second (the storage hint) exactly when the error text mentions the 'NoneType … tensor' attribute error |
| ChunkBenchmark.Iterations | benchmarks/benchmark_lmcache_chunk_profiling.py:466-538 | after any number of retrieve iterations no timer list is empty |
| ChunkBenchmark.ErrorEndsLoop | benchmarks/benchmark_lmcache_chunk_profiling.py:466-538 | an exception raised by an iteration ends the loop and is what the whole loop raises |
| ChunkBenchmark.BenchmarkSpec | benchmarks/benchmark_lmcache_chunk_profiling.py:360-618 | a returned record carries the configuration's chunk size and token count |
| ChunkBenchmark.RetrieveIteration | benchmarks/benchmark_lmcache_chunk_profiling.py:466-538 | one retrieve iteration updates the loop variables as `IterationStep` says and leaves the timing collector holding the new timings |
| ChunkBenchmark.BenchmarkChunkSize | benchmarks/benchmark_lmcache_chunk_profiling.py:360-618 | the imperative run (timer collector, loop, summary) returns or raises exactly what `BenchmarkSpec` describes |
| ChunkBenchmark.AllElapsed | benchmarks/benchmark_lmcache_chunk_profiling.py:487-497 | one elapsed time per iteration run |
| ChunkBenchmark.SamplesRecorded | benchmarks/benchmark_lmcache_chunk_profiling.py:487-507 | in detailed mode every iteration, failed or not, records one `retrieve_total` sample and the plain list stays empty; otherwise only the iterations whose retrieve returned append to the plain list |
| ChunkBenchmark.ErrorsCounted | benchmarks/benchmark_lmcache_chunk_profiling.py:513-521 | `memory_errors` counts the failed iterations, and each adds one or two messages |
| ChunkBenchmark.OnlySetupErrorsEscape | benchmarks/benchmark_lmcache_chunk_profiling.py:513-522 | retrieve errors never end the loop: with buffer preparation and profile writes succeeding every iteration completes |
| ChunkBenchmark.StoreFailureShortCircuit | benchmarks/benchmark_lmcache_chunk_profiling.py:444-458 | a raising initial store returns the failed record: infinite latency, zero throughput and size, one memory error and the "Initial store failed" message |
| ChunkBenchmark.DetailedLatency | benchmarks/benchmark_lmcache_chunk_profiling.py:572-577 | in detailed mode the latency is infinite exactly when no iteration ran, and otherwise the mean of every iteration's elapsed time |
| BenchmarkSweep.Row | benchmarks/benchmark_lmcache_chunk_profiling.py:658-675 | the inner loop visits one configuration per token count, in list order, for the current chunk size |
| BenchmarkSweep.ResultsOf | benchmarks/benchmark_lmcache_chunk_profiling.py:657-684 | the sweep keeps at most one record per configuration visited; the k-th run meets its own environment, so a repeated pair is run afresh |
| BenchmarkSweep.ResultsOfSnoc | benchmarks/benchmark_lmcache_chunk_profiling.py:659-684 | visiting one more configuration runs it in the next environment and appends its record when the run returns, nothing when it raises |
| BenchmarkSweep.RunRow | benchmarks/benchmark_lmcache_chunk_profiling.py:658-684 | the inner loop visits its row of configurations and keeps the records of the runs that return |
| BenchmarkSweep.RunComprehensiveBenchmark | benchmarks/benchmark_lmcache_chunk_profiling.py:657-684 | the nested loops visit the chunk-size-major grid and return the records of the runs that did not raise, in visit order |
| BenchmarkSweep.GridOrder | benchmarks/benchmark_lmcache_chunk_profiling.py:657-675 | the grid has one configuration per (chunk size, token count) pair, at position i * len(token_counts) + j |
| BenchmarkSweep.ClearOnce | benchmarks/benchmark_lmcache_chunk_profiling.py:671 | with distinct sizes and counts, only the first configuration may clear the cache, and it does exactly when clearing was requested |
| BenchmarkSweep.ResultsOfConcat | benchmarks/benchmark_lmcache_chunk_profiling.py:657-684 | the records of two stretches of the sweep are the records of each, concatenated, the second stretch running in the later environments |
| BenchmarkSweep.SkipRaising | benchmarks/benchmark_lmcache_chunk_profiling.py:682-684 | a run that raises leaves no record and does not disturb the runs before and after it |
| BenchmarkSweep.ResultsInOrder | benchmarks/benchmark_lmcache_chunk_profiling.py:657-684 | when no run raises, the k-th record is the k-th configuration's result in the k-th environment |
| BenchmarkSweep.RepeatedPairRunTwice | benchmarks/benchmark_lmcache_chunk_profiling.py:657-684 | a pair listed twice is run twice, each run with its own environment, and both records are kept in order |
| BenchmarkSweep.ToJson | benchmarks/benchmark_lmcache_chunk_profiling.py:691-702 | an infinite latency is written as null and a finite one as itself; profiling text becomes the `has_profiling_data` flag; the other fields are copied |
| BenchmarkSweep.JsonLatencyRoundTrip | benchmarks/benchmark_lmcache_chunk_profiling.py:695 | the latency read back from the JSON record is the original, infinite included |
| BenchmarkSweep.JsonResults | benchmarks/benchmark_lmcache_chunk_profiling.py:689-703 | one JSON record per result, in order |
| ActivationScript.FirstPromptLine | tools/amgctl/cmd/host.go:534-539 | the index of the first line that is a prompt assignment without a `#`, and no earlier line is one; none when no line is |
| ActivationScript.FirstPromptLineAt | tools/amgctl/cmd/host.go:534-539 | a prompt line preceded only by non-prompt lines is the one the loop stops at |
| ActivationScript.RewrittenLines | tools/amgctl/cmd/host.go:533-541 | the rewrite keeps the number of lines |
| ActivationScript.RewritePrompt | tools/amgctl/cmd/host.go:534-540 | the loop over the line array rewrites the first prompt line in place and leaves every other line as it was |
| ActivationScript.CustomizeActivationScript | tools/amgctl/cmd/host.go:512-549 | a failed read is reported and writes nothing; otherwise the customized text is written, and a failed write is reported |
| ActivationScript.TrimmedFoundAtStart | tools/amgctl/cmd/host.go:535-537 | the trimmed line is first found where the leading white space ends, so `strings.Replace` rewrites exactly the trimmed part |
| ActivationScript.PromptKeepsIndentation | tools/amgctl/cmd/host.go:537 | the rewritten prompt line keeps the original leading and trailing white space around `VIRTUAL_ENV_PROMPT="amg"` |
| ActivationScript.PromptLineNoNewline | tools/amgctl/cmd/host.go:537 | rewriting a prompt line never introduces a newline |
| ActivationScript.RewrittenNoNewline | tools/amgctl/cmd/host.go:533-540 | lines without newlines stay without newlines after the rewrite |
| ActivationScript.CustomizeKeepsLines | tools/amgctl/cmd/host.go:527-541 | the customized script splits into the rewritten lines of the condition-fixed script, and has exactly as many newlines as the original |
| ActivationScript.Customize | tools/amgctl/cmd/host.go:520-541 | defines the edit: the condition fixed, then the first prompt line rewritten, lines joined back with newlines |
| ClusterPreflight.MinikubeToolsExtendK8s | tools/amgctl/cmd/minikube.go:47-61 | minikube requires the Kubernetes tool list plus `minikube`, and `helm` is required by neither |
| ClusterPreflight.Missing | tools/amgctl/cmd/k8s.go:62-69 | the missing tools are a sub-list of the checked tools |
| ClusterPreflight.MissingIff | tools/amgctl/cmd/k8s.go:62-69 | a tool is reported missing exactly when it is listed and not on the PATH |
| ClusterPreflight.MissingNone | tools/amgctl/cmd/k8s.go:83-90 | nothing is missing exactly when every listed tool is on the PATH |
| ClusterPreflight.MissingConcat | tools/amgctl/cmd/k8s.go:62-78 | checking two lists one after the other reports the missing tools of each, in order |
| ClusterPreflight.MissingTools | tools/amgctl/cmd/k8s.go:62-69 | the loop collects exactly the tools not on the PATH, in list order |
| ClusterPreflight.LoadedCheck | tools/amgctl/cmd/k8s.go:146-160 | the module counts as loaded exactly when `/proc/modules` can be read and has a line naming it |
| ClusterPreflight.CheckModuleLoaded | tools/amgctl/cmd/k8s.go:146-160 | the line loop answers what `LoadedCheck` says |
| ClusterPreflight.NamesModuleExactly | tools/amgctl/cmd/k8s.go:154 | a line names the module exactly when it starts with the name followed by a space or a tab |
| ClusterPreflight.ExistsCheck | tools/amgctl/cmd/k8s.go:132-144 | the module exists exactly when `modinfo` succeeds with non-empty output |
| ClusterPreflight.PeermemCheckCases | tools/amgctl/cmd/k8s.go:117-130 | the peermem check passes exactly when the module is loaded; otherwise it reports "not found" when `modinfo` fails or is empty and "found but not loaded" otherwise |
| ClusterPreflight.RunPreflight | tools/amgctl/cmd/k8s.go:41-109 | the imperative pre-flight run reports what `Preflight` describes |
| ClusterPreflight.PreflightPasses | tools/amgctl/cmd/k8s.go:83-108 | the pre-flight passes exactly when every required tool is on the PATH and peermem is loaded; missing required tools are reported first, listed |
| ClusterPreflight.PreflightOptionalOnlyWarns | tools/amgctl/cmd/k8s.go:92-99 | a tool that is not required (helm) never changes the verdict |
| ClusterPreflight.MissingUnlisted | tools/amgctl/cmd/k8s.go:62-69 | whether an unlisted tool is on the PATH never changes which listed tools are missing |
| CmdUpdate.FirstNamed | tools/amgctl/cmd/update.go:113-117 | the index of the first asset with exactly the platform's name, no earlier asset has it; none when no asset has it |
| CmdUpdate.FetchedRelease | tools/amgctl/cmd/update.go:59-110 | the latest endpoint's release when its reply is 200 and decodes; with prereleases, the first listed release, or an empty one for an empty listing; a reply other than 200 fails with "failed to fetch releases: " and its status text |
| CmdUpdate.LatestVersion | tools/amgctl/cmd/update.go:59-120 | succeeds exactly when a release was fetched and has an asset with the platform's name; the answer is the tag and the first such asset's URL |
| CmdUpdate.EmptyListingFails | tools/amgctl/cmd/update.go:102-119 | an empty release listing yields no asset, so the lookup fails |
| CmdUpdate.GetLatestVersion | tools/amgctl/cmd/update.go:59-120 | the asset loop returns what `LatestVersion` describes |
| CmdUpdate.Install | tools/amgctl/cmd/update.go:122-179 | installation succeeds exactly when every step (executable path, temporary file, download, copy, chmod, close, rename) succeeds |
| CmdUpdate.Update | tools/amgctl/cmd/update.go:39-57 | the imperative update returns what `UpdateResult` describes |
| CmdUpdate.SkipIffSameTag | tools/amgctl/cmd/update.go:42-53 | an update is skipped exactly when unforced and the latest tag equals the running version as a string; the prerelease listing is never consulted |
| CmdUpdate.UpdateResult | tools/amgctl/cmd/update.go:39-57 | defines how `Update` ends: the lookup error, a skip for an unforced run on the same tag, or the install outcome |
| Cufile.CutAtSlashBefore | tools/amgctl/cmd/host.go:2172-2176 | the address keeps the text before its first `/` (the CIDR suffix removed) and is unchanged when it has none |
| Cufile.UpIps | tools/amgctl/cmd/host.go:2168-2179 | at most one address per interface |
| Cufile.CollectUpIps | tools/amgctl/cmd/host.go:2168-2179 | the interface loop collects exactly `UpIps`, in interface order |
| Cufile.UpIpsConcat | tools/amgctl/cmd/host.go:2168-2179 | the addresses of two interface lists are the addresses of each, concatenated |
| Cufile.UpIpsExactly | tools/amgctl/cmd/host.go:2168-2179 | an address is collected exactly when some interface is up, has an IP, and yields it once the CIDR suffix is cut |
| Cufile.NormalizedIsOptimal | tools/amgctl/cmd/host.go:2190-2248 | after the rewrite the record has the values GPU Direct Storage wants, the address list is the up addresses, and larger queue depth and parallelism are kept |
| Cufile.NormalizeIdempotent | tools/amgctl/cmd/host.go:2190-2248 | rewriting a rewritten record changes nothing |
| Cufile.NormalizeFixedPoint | tools/amgctl/cmd/host.go:2190-2248 | the rewrite leaves a record unchanged exactly when it already has the wanted values and the up addresses |
| Cufile.CuFileConfig.constructor | tools/amgctl/cmd/host.go:2154-2157 | the configuration object holds the record `json.Unmarshal` filled in |
| Cufile.CuFileConfig.Normalize | tools/amgctl/cmd/host.go:2190-2248 | the guarded in-place field updates leave the object holding `Normalized` of its old record |
| Cufile.RunHostConfigCufile | tools/amgctl/cmd/host.go:2126-2269 | the imperative command returns what `ConfigureCufile` describes: each failing step reported with its context, otherwise the rewritten record |
| Cufile.ConfigureCufileIdempotent | tools/amgctl/cmd/host.go:2126-2269 | configuring again from the written file, with the same interfaces, writes the same record |
| Cufile.Normalized | tools/amgctl/cmd/host.go:2190-2248 | defines the rewritten record: I/O threads 0, parallel I/O on, queue depth and request parallelism raised to at least their minimums, the up addresses as RDMA list, compatibility mode and both RDMA-write switches on |
| Cufile.ConfigureCufile | tools/amgctl/cmd/host.go:2126-2269 | defines `runHostConfigCufile`: each failing step (missing source, base directory, read, parse of the text without comments, interfaces, write) with its context, else the record written |
| DockerLaunch.AppendDockerEnv | tools/amgctl/cmd/docker-launch.go:186-225 | the appends add exactly `DockerEnvArgs` after the arguments already built |
| DockerLaunch.DockerEnvPaired | tools/amgctl/cmd/docker-launch.go:186-225 | every container variable is passed as its own `-e` argument, in order |
| DockerLaunch.DockerEnvKeys | tools/amgctl/cmd/docker-launch.go:186-217 | the generator sets, in order, `CUDA_VISIBLE_DEVICES` (only with gpu-slots and devices), the six LMCache variables, `HF_HOME`, `PROMETHEUS_MULTIPROC_DIR`, and `USE_FASTSAFETENSOR` unless skipped |
| DockerLaunch.DockerUserEnvLast | tools/amgctl/cmd/docker-launch.go:219-225 | the user's `--vllm-env` entries come after the generated ones, in order, without the empty ones |
| DockerLaunch.ForwardAllSnoc | tools/amgctl/cmd/docker-launch.go:275-383 | testing one more flag appends its arguments exactly when it was set |
| DockerLaunch.ForwardTwo | tools/amgctl/cmd/docker-launch.go:366-383 | the two user-list flags contribute their guarded arguments in order |
| DockerLaunch.ForwardFive | tools/amgctl/cmd/docker-launch.go:275-300 | five guarded flags contribute their arguments in order |
| DockerLaunch.ForwardSizeOptions | tools/amgctl/cmd/docker-launch.go:275-300 | the memory, sequence, length, batch and port flags are forwarded exactly when set, in that order |
| DockerLaunch.ForwardStorageOptions | tools/amgctl/cmd/docker-launch.go:302-327 | the Weka mount and LMCache path, chunk size, thread and buffer flags are forwarded exactly when set, in that order |
| DockerLaunch.ForwardCacheModeOptions | tools/amgctl/cmd/docker-launch.go:328-336 | `--lmcache-local-cpu` and `--lmcache-save-decode-cache` (with its value) are forwarded exactly when set |
| DockerLaunch.ForwardSwitchOptions | tools/amgctl/cmd/docker-launch.go:338-363 | the cache directories and the three skip and prefix switches are forwarded exactly when set, in that order |
| DockerLaunch.ForwardUserOptions | tools/amgctl/cmd/docker-launch.go:365-383 | each non-empty `--vllm-arg` and `--vllm-env` value is forwarded with its flag, only when the flag was set |
| DockerLaunch.BuildDockerHostLaunchCommand | tools/amgctl/cmd/docker-launch.go:261-388 | the builder returns `amgctl host launch <model>`, the GPU choice, then every set option in the builder's order |
| DockerLaunch.ForwardOrderParts | tools/amgctl/cmd/docker-launch.go:275-336 | forwarding the groups one after the other equals forwarding them as one list |
| DockerLaunch.ForwardAllConcat | tools/amgctl/cmd/docker-launch.go:275-383 | forwarding two lists of flags is forwarding each, concatenated |
| DockerLaunch.ForwardNothing | tools/amgctl/cmd/docker-launch.go:275-383 | flags that were not set contribute nothing |
| DockerLaunch.ForwardOnlyChanged | tools/amgctl/cmd/docker-launch.go:275-383 | only the set flags, and their values, decide what is forwarded |
| DockerLaunch.HostLaunchNothingChanged | tools/amgctl/cmd/docker-launch.go:261-273 | with no flag set the container command is `amgctl host launch <model>` plus a positive tensor-parallel size |
| DockerLaunch.HostLaunchOnlyChanged | tools/amgctl/cmd/docker-launch.go:261-388 | two settings with the same set flags and the same forwarded values give the same container command |
| DockerLaunch.DockerFlagsNotForwarded | tools/amgctl/cmd/docker-launch.go:385 | the dry-run, image and docker-argument flags, and the GPU flags handled first, are not among the forwarded options |
| DockerLaunch.DryRunNotForwarded | tools/amgctl/cmd/docker-launch.go:385 | the dry-run, image and docker-argument settings never change the container command, set or not |
| DockerLaunch.HostLaunchStart | tools/amgctl/cmd/docker-launch.go:264-273 | the container command starts `amgctl host launch <model>` followed by the GPU choice |
| DockerLaunch.HostLaunchUserPairsLast | tools/amgctl/cmd/docker-launch.go:365-383 | the user's `--vllm-arg` and then `--vllm-env` pairs end the container command |
| DockerLaunch.GenerateDockerHostLaunchCommand | tools/amgctl/cmd/docker-launch.go:167-258 | the imperative generator returns what `DockerHostLaunchCommand` describes |
| DockerLaunch.DockerCommandLayout | tools/amgctl/cmd/docker-launch.go:167-258 | the argv is the docker options, the image, then the container command; it fails only when no image is set, the default is absent and the pull fails |
| DockerLaunch.DockerCommandPrefix | tools/amgctl/cmd/docker-launch.go:171-175 | the argv starts with `docker run -d --gpus all --runtime nvidia --network host --ipc host` |
| DockerLaunch.DockerRunIbOptional | tools/amgctl/cmd/docker-launch.go:128-134 | failing to detect InfiniBand devices gives the same run as having none |
| DockerLaunch.DockerRunDry | tools/amgctl/cmd/docker-launch.go:148-162 | only a dry run stops at showing the argv, and a dry run never starts docker |
| DockerLaunch.DockerRunUsesAllocation | tools/amgctl/cmd/docker-launch.go:43-146 | a run past the checks passed the preflight, allocated the GPUs, and its argv is generated from that allocation |
| DockerLaunch.DockerRunOutcome | tools/amgctl/cmd/docker-launch.go:391-431 | a launch fails exactly when docker fails: the argv is never empty |
| DockerLaunch.DockerImage | tools/amgctl/cmd/docker-launch.go:236-250 | defines the image: the docker-image setting when set, else the default, replaced by what the pull reports when it is not present and failing when the pull fails |
| DockerLaunch.DockerHostLaunchCommand | tools/amgctl/cmd/docker-launch.go:167-258 | defines what `generateDockerHostLaunchCommand` returns: docker options, the image, the container command, or the image error |
| DockerLaunch.RunDockerLaunch | tools/amgctl/cmd/docker-launch.go:43-164 | defines how `amgctl docker launch` ends: preflight, GPU allocation, InfiniBand detection (optional), command generation, the dry run, the launch |
| GdsCheck.MissingUpTo | tools/amgctl/cmd/host.go:1128-1170 | the errors collected from the first n checks are among those checks' messages, at most one each |
| GdsCheck.ObserveLine | tools/amgctl/cmd/host.go:1091-1124 | one line's seven tests set exactly the flags `Observe` says, and never clear one |
| GdsCheck.ScanReport | tools/amgctl/cmd/host.go:1087-1125 | the line loop leaves the flags `Scan` describes |
| GdsCheck.CollectErrors | tools/amgctl/cmd/host.go:1127-1170 | the seven checks collect exactly the messages of the unmet requirements, in fixed order |
| GdsCheck.ValidateGdsOutput | tools/amgctl/cmd/host.go:1073-1178 | the imperative validation returns what `GdsVerdict` describes |
| GdsCheck.ObserveMet | tools/amgctl/cmd/host.go:1091-1124 | after a line a requirement is met exactly when it was met before or this trimmed line meets it |
| GdsCheck.ScanIff | tools/amgctl/cmd/host.go:1087-1125 | a requirement is met exactly when some trimmed line of the report meets it |
| GdsCheck.MessagesDistinct | tools/amgctl/cmd/host.go:1130-1167 | the seven error messages are pairwise different |
| GdsCheck.MissingExactly | tools/amgctl/cmd/host.go:1128-1170 | a requirement's message is reported exactly when the requirement is unmet |
| GdsCheck.NoneMissingIff | tools/amgctl/cmd/host.go:1128-1170 | no error is collected exactly when every checked requirement is met |
| GdsCheck.PassIff | tools/amgctl/cmd/host.go:1172-1177 | the report passes exactly when all seven requirements are met |
| GdsCheck.ReportedIffUnmet | tools/amgctl/cmd/host.go:1128-1177 | validation fails exactly when some requirement is unmet, and each unmet requirement, and no other, is named in the error |
| GdsCheck.GdsVerdict | tools/amgctl/cmd/host.go:1073-1178 | defines the verdict on a report: the lines scanned for the seven requirements, failing with the messages of the unmet ones |
| GpuAllocation.Trimmed | tools/amgctl/cmd/host.go:1771-1772 | each slot text is cut of surrounding white space, one id per piece |
| GpuAllocation.SlotIds | tools/amgctl/cmd/host.go:1767-1772 | the ids are the trimmed comma-separated pieces: one more than the number of commas, empty pieces kept |
| GpuAllocation.Checked | tools/amgctl/cmd/host.go:1771-1777 | the ids are accepted, unchanged, exactly when every one parses as a 64-bit integer |
| GpuAllocation.FirstInvalid | tools/amgctl/cmd/host.go:1771-1775 | the index of the first id that does not parse, with every earlier id parsing; none when all parse |
| GpuAllocation.DeviceRange | tools/amgctl/cmd/host.go:1799-1802 | the device ids 0 to n-1 as decimal text, none for a non-positive n |
| GpuAllocation.Allocate | tools/amgctl/cmd/host.go:1760-1804 | explicit slots are used as given when all parse (their count is the size); otherwise a positive tensor-parallel size, else the detected count, picks devices 0 to n-1; a failing detection is an error |
| GpuAllocation.ValidateSlots | tools/amgctl/cmd/host.go:1771-1777 | the validation loop returns what `Checked` says of the trimmed pieces, reporting the first id that does not parse |
| GpuAllocation.CountDevices | tools/amgctl/cmd/host.go:1799-1802 | the counting loop builds exactly `DeviceRange` |
| GpuAllocation.AllocateGpus | tools/amgctl/cmd/host.go:1760-1804 | the imperative allocation returns what `Allocate` describes |
| GpuAllocation.FirstInvalidAt | tools/amgctl/cmd/host.go:1771-1775 | an id that does not parse, preceded only by ids that do, is the one reported |
| GpuAllocation.NoCommaInNumber | tools/amgctl/cmd/host.go:1773 | an id that parses contains no comma |
| GpuAllocation.DevicesRoundTrip | tools/amgctl/cmd/host.go:1783-1803 | splitting `CUDA_VISIBLE_DEVICES` at commas gives back one parsing id per GPU of the tensor-parallel size: the slot ids, or 0 to n-1 |
| GpuAllocation.SlotsRoundTrip | tools/amgctl/cmd/host.go:1783 | joining parsing ids with commas and splitting again gives the ids back |
| GpuAllocation.RangeRoundTrip | tools/amgctl/cmd/host.go:1799-1803 | the joined device range splits back into n ids that parse as 0 to n-1 |
| HostLaunch.ServeHead | tools/amgctl/cmd/host.go:1979-1982 | the argv head is seven words: `uv run vllm serve <model> --tensor-parallel-size <n>` |
| HostLaunch.BuildHostVllmCommand | tools/amgctl/cmd/host.go:1975-2030 | the imperative builder returns `HostVllmCommand`: the serve head, the fixed options, the optional flags and the user's non-empty arguments |
| HostLaunch.HostCommandStart | tools/amgctl/cmd/host.go:1979-1982 | every argv starts `uv run vllm serve <model> --tensor-parallel-size <n>` |
| HostLaunch.ServeWordsAreNotOptionalFlags | tools/amgctl/cmd/host.go:1979-2018 | none of the fixed words of the argv is one of the two optional flags |
| HostLaunch.FixedWords | tools/amgctl/cmd/host.go:1979-2019 | every word before the user's arguments is a fixed word, the model, a setting's value, or an optional flag whose setting asks for it |
| HostLaunch.NumbersAreNotFlags | tools/amgctl/cmd/host.go:1982-2002 | a number written in decimal is never a `--` flag |
| HostLaunch.HostOptionalFlags | tools/amgctl/cmd/host.go:2007-2019 | `--no-enable-prefix-caching` appears exactly when prefix caching is disabled, `--load-format` exactly when fast safetensors are not skipped |
| HostLaunch.HostKvTransferAlways | tools/amgctl/cmd/host.go:2012-2014 | the LMCache `--kv-transfer-config` pair is always present, right after the fixed options |
| HostLaunch.HostUserArgsLast | tools/amgctl/cmd/host.go:2021-2027 | the user's non-empty `--vllm-arg` values end the argv, in order, and are exactly the non-empty ones |
| HostLaunch.SetupHostEnvironmentVariables | tools/amgctl/cmd/host.go:2033-2088 | the imperative environment builder returns `HostEnv` |
| HostLaunch.HostEnvKeys | tools/amgctl/cmd/host.go:2036-2077 | the names the builder sets, in order: `CUDA_VISIBLE_DEVICES` only with gpu-slots, `CUFILE_ENV_PATH_JSON` only when cufile.json exists, the LMCache block, `HF_HOME`, `PROMETHEUS_MULTIPROC_DIR` unless disabled, `USE_FASTSAFETENSOR` unless skipped |
| HostLaunch.HostUserEnvLast | tools/amgctl/cmd/host.go:2079-2085 | the user's non-empty `--vllm-env` entries end the environment, in order |
| HostLaunch.CheckCommandEmpty | tools/amgctl/cmd/host.go:2091-2119 | an empty argv is refused with "vLLM command is empty"; otherwise the launch fails exactly when the process does |
| HostLaunch.HostCommandNeverEmpty | tools/amgctl/cmd/host.go:1975-2030 | the built argv is never empty, so the launch fails exactly when the process does |
| HostLaunch.HostRunConflict | tools/amgctl/cmd/host.go:1734-1737 | `--no-prometheus` with a non-default Prometheus directory is refused before anything else |
| HostLaunch.HostRunDry | tools/amgctl/cmd/host.go:1853-1869 | only a dry run stops at showing the argv and environment, and a dry run starts nothing |
| HostLaunch.HostRunUsesAllocation | tools/amgctl/cmd/host.go:1726-1851 | a run past the checks passed the preflight, allocated the GPUs, and uses that allocation in both argv and environment |
| HostLaunch.HostRunOutcome | tools/amgctl/cmd/host.go:1867-1869 | a launch fails exactly when the vLLM process fails |
| HostLaunch.HostVllmCommand | tools/amgctl/cmd/host.go:1975-2030 | defines the argv `buildHostVllmCommand` returns: the serve head, the fixed options, the optional flags, the KV-transfer pair and the user's non-empty arguments |
| HostLaunch.HostEnv | tools/amgctl/cmd/host.go:2033-2088 | defines the environment list `setupHostEnvironmentVariables` returns, the user's non-empty entries last |
| HostLaunch.RunHostLaunch | tools/amgctl/cmd/host.go:1726-1870 | defines how `runHostLaunch` ends: the Prometheus conflict, the preflight, cufile generation and GPU allocation failures, the dry run, the launch |
| HostLegacy.FirstMarked | tools/amgctl/host.go:207-226 | the index of the first line that holds the key and no `#`, no earlier line does; none when no line does |
| HostLegacy.FirstMarkedAt | tools/amgctl/host.go:207-226 | a marked line preceded only by unmarked lines is the one the loop stops at |
| HostLegacy.ReplacedLines | tools/amgctl/host.go:206-213 | replacing the prompt line keeps the number of lines |
| HostLegacy.ReplacePromptLine | tools/amgctl/host.go:207-212 | the loop over the line array replaces the first marked prompt line in place with `VIRTUAL_ENV_PROMPT="amg"` and leaves every other line |
| HostLegacy.InsertPromptLine | tools/amgctl/host.go:216-227 | the loop inserts the prompt line after the first marked `VIRTUAL_ENV=` line, through a fresh slice one longer |
| HostLegacy.CustomizeLegacyActivationScript | tools/amgctl/host.go:189-238 | a failed read is reported and writes nothing; otherwise the edited text is written, and a failed write is reported |
| HostLegacy.AmgPromptPlain | tools/amgctl/host.go:209 | the prompt line contains no newline |
| HostLegacy.LegacySplitBack | tools/amgctl/host.go:204-229 | the edited script splits into the replaced lines when the script mentions the prompt, and into the lines with the prompt inserted otherwise |
| HostLegacy.LegacyReplaceKeepsOtherLines | tools/amgctl/host.go:204-213 | the replacement changes exactly the first marked prompt line and keeps the number of lines |
| HostLegacy.LegacyInsertAddsOneLine | tools/amgctl/host.go:214-228 | the insertion adds exactly one line, the prompt, right after the first marked `VIRTUAL_ENV=` line, and keeps every other line in place |
| HostLegacy.LegacyNothingToEdit | tools/amgctl/host.go:204-229 | a script with no marked line to replace or follow is written back unchanged |
| HostLegacy.AskForConfirmation | tools/amgctl/host.go:174-185 | a failed read is an error with its context, and only a failed read is |
| HostLegacy.LowerKeepsSpace | tools/amgctl/host.go:183 | lower-casing a character keeps whether it is white space |
| HostLegacy.LowerTrimStart | tools/amgctl/host.go:183 | lower-casing does not move where the leading white space ends |
| HostLegacy.LowerTrimEnd | tools/amgctl/host.go:183 | lower-casing does not move where the trailing white space starts |
| HostLegacy.LowerSlice | tools/amgctl/host.go:183 | lower-casing a slice is slicing the lower-cased text |
| HostLegacy.LowerTrimSpace | tools/amgctl/host.go:183 | trimming the lower-cased reply is lower-casing the trimmed reply |
| HostLegacy.ConfirmationAccepts | tools/amgctl/host.go:174-185 | a reply is accepted exactly when, trimmed and lower-cased, it is "y" or "yes" |
| HostLegacy.CheckCondaDeactivated | tools/amgctl/host.go:159-171 | the guard passes exactly when both conda variables are empty, and otherwise fails with the deactivation message |
| HostLegacy.NewSetupState | tools/amgctl/host.go:255-267 | the recorded state carries the flags, and a branch clears the commit |
| HostLegacy.SetupStateOneMode | tools/amgctl/host.go:264-267 | at most one of commit and branch is ever recorded |
| HostLegacy.PlanHostSetup | tools/amgctl/host.go:240-280 | an active conda refuses setup; on Linux the recorded state goes to the Linux setup; only Linux, macOS and Windows are accepted |
| HostLegacy.LinuxSetupChecks | tools/amgctl/host.go:286-293 | the Linux checks pass exactly when uv and git are both found, uv being reported first |
| HostLegacy.BranchModeWins | tools/amgctl/host.go:489-510 | with a branch recorded, the checkout fetches and then runs `checkout -B`, and any commit is ignored |
| HostLegacy.CommitModeChecksOutOnlyOnMismatch | tools/amgctl/host.go:511-538 | in commit mode a checkout runs exactly when the trimmed HEAD differs from the commit; otherwise only `rev-parse` runs |
| HostLegacy.NoModeRunsNothing | tools/amgctl/host.go:486-542 | with neither branch nor commit no git command runs and the step succeeds |
| HostLegacy.RequirementFlags | tools/amgctl/host.go:565-567 | one `-r <file>` pair per requirement file, in order |
| HostLegacy.InstallRepositoryDependencies | tools/amgctl/host.go:544-614 | the imperative installer runs the commands `InstallCommands` lists, in order |
| HostLegacy.RequirementInstallArgs | tools/amgctl/host.go:547-611 | with all three requirement files present the first command installs them with `-r`; otherwise it is the editable install; the transformers hotfix runs exactly unless skipped |
| HostLegacy.RunHostUpdate | tools/amgctl/host.go:616-620 | an active conda refuses the update |
| HostLegacy.UpdateNeedsBranch | tools/amgctl/host.go:624-643 | without a recorded state, or with one that does not follow a branch, the update fails before touching the repository; a run that gets further had a branch state and an existing repository |
| HostLegacy.UpdateReinstallsOnlyOnMove | tools/amgctl/host.go:655-689 | dependencies are reinstalled exactly when the pull moved the trimmed HEAD |
| HostLegacy.LegacyCustomize | tools/amgctl/host.go:204-229 | defines the edit: the prompt line replaced when the text mentions `VIRTUAL_ENV_PROMPT=`, inserted after the `VIRTUAL_ENV=` line otherwise |
| HostLegacy.CheckoutCommitOrBranch | tools/amgctl/host.go:486-542 | defines `checkoutCommitOrBranch`: the git commands run and the outcome, branch mode first, then commit mode only on a HEAD mismatch, each failure with its message |
| HostLegacy.InstallCommands | tools/amgctl/host.go:544-614 | defines the `uv` argument lists `installRepositoryDependencies` runs, in order |
| Infiniband.ContainsDevice | tools/amgctl/internal/hardware/infiniband.go:69-77 | the loop finds the device exactly when its `--device=` flag is already in the list |
| Infiniband.SysfsFlags | tools/amgctl/internal/hardware/infiniband.go:37-43 | at most one flag per InfiniBand class device |
| Infiniband.GetInfinibandDeviceFlags | tools/amgctl/internal/hardware/infiniband.go:16-60 | the imperative discovery returns what `DeviceFlags` describes |
| Infiniband.RdmaCmFirst | tools/amgctl/internal/hardware/infiniband.go:19-23 | when `rdma_cm` exists and sysfs reads, its flag comes first |
| Infiniband.DeviceFlagErrors | tools/amgctl/internal/hardware/infiniband.go:26-46 | discovery fails exactly when sysfs or its InfiniBand class cannot be read; an unreadable `/dev/infiniband` only skips the scan |
| Infiniband.SysfsFlagsExactly | tools/amgctl/internal/hardware/infiniband.go:37-43 | a sysfs flag is produced exactly for a class device whose `uverbs` node (the name with `mlx` removed) exists |
| Infiniband.ScanExtends | tools/amgctl/internal/hardware/infiniband.go:46-57 | the directory scan only appends to the flags found before it |
| Infiniband.ScanKeepsDistinct | tools/amgctl/internal/hardware/infiniband.go:46-57 | the scan never adds a flag twice |
| Infiniband.ScanCovers | tools/amgctl/internal/hardware/infiniband.go:46-57 | after the scan every `uverbs*` and `rdma_cm` entry has its flag, and every flag was there before or comes from such an entry |
| Infiniband.AddressEntries | tools/amgctl/internal/hardware/infiniband.go:179-198 | at most one entry per address of the interface |
| Infiniband.AppendAddressEntries | tools/amgctl/internal/hardware/infiniband.go:179-198 | the address loop appends exactly `AddressEntries` |
| Infiniband.GetInfiniBandNetworkInterfaces | tools/amgctl/internal/hardware/infiniband.go:144-203 | a failing interface listing is reported; otherwise the result is `IbInterfaces` of the listing |
| Infiniband.AddressEntriesOf | tools/amgctl/internal/hardware/infiniband.go:179-198 | every entry carries the interface's name and status and a usable address of the interface |
| Infiniband.InterfaceEntriesOf | tools/amgctl/internal/hardware/infiniband.go:155-176 | every entry comes from an `ib*` interface, carries its name and says "up" exactly when it is up; an `ib*` interface without addresses appears once, with "no IP assigned" |
| Infiniband.IbInterfacesConcat | tools/amgctl/internal/hardware/infiniband.go:154-200 | the entries of two interface lists are the entries of each, concatenated |
| Infiniband.IbInterfacesOnlyIb | tools/amgctl/internal/hardware/infiniband.go:154-200 | every entry names a listed `ib*` interface and says "up" exactly when that interface is up |
| Infiniband.DeviceFlags | tools/amgctl/internal/hardware/infiniband.go:16-60 | defines `GetInfinibandDeviceFlags`: `rdma_cm`, the sysfs flags, then the `/dev/infiniband` scan, joined by spaces, or the sysfs error |
| JsonComments.FromNewline | tools/amgctl/cmd/host.go:366-367 | what `.*` leaves of a line comment: a suffix of the rest of the text, starting at its next newline or empty |
| JsonComments.StripLineComments | tools/amgctl/cmd/host.go:366-367 | removing `//` comments never lengthens the text and keeps its first character unless a comment starts there |
| JsonComments.StripBlockComments | tools/amgctl/cmd/host.go:370-371 | removing `/* … */` comments never lengthens the text |
| JsonComments.NoLineCommentLeft | tools/amgctl/cmd/host.go:366-367 | after the first pass no `//` pair is left anywhere in the text |
| JsonComments.LineCommentsKeepLines | tools/amgctl/cmd/host.go:366-367 | the first pass keeps every newline, so line numbers of the remaining JSON do not move |
| JsonComments.CommentHoldsNoNewline | tools/amgctl/cmd/host.go:366-367 | a line comment removed at the head of the text takes no newline with it |
| JsonComments.SkipKeepsNewlines | tools/amgctl/cmd/host.go:366-367 | skipping to the next newline drops no newline |
| JsonComments.NoLineCommentUnchanged | tools/amgctl/cmd/host.go:366-367 | text without `//` passes the first pass unchanged |
| JsonComments.UnclosedBlockUnchanged | tools/amgctl/cmd/host.go:370-371 | text without `*/` passes the second pass unchanged, so an unclosed `/*` stays |
| JsonComments.LineCommentCut | tools/amgctl/cmd/host.go:366-367 | at the first `//` the rest of its line goes and the text continues from the next newline |
| JsonComments.NoClosingInside | tools/amgctl/cmd/host.go:370-371 | no `*/` starts inside a body that holds none |
| JsonComments.FirstClosing | tools/amgctl/cmd/host.go:370-371 | the first `*/` after such a body is the one that ends it |
| JsonComments.ShortestBlockRemoved | tools/amgctl/cmd/host.go:370-371 | the lazy `.*?` removes a block up to its first `*/`, across newlines, and the rest is stripped in turn |
| JsonComments.UrlInStringCut | tools/amgctl/cmd/host.go:364-374 | neither pass knows string literals: a quoted `http://…` value is cut at its `//` |
| JsonComments.FromNewlineNone | tools/amgctl/cmd/host.go:366-367 | with no newline left, a line comment runs to the end of the text |
| JsonComments.StripJsonComments | tools/amgctl/cmd/host.go:364-374 | defines `stripJSONComments`: the line-comment pass, then the block-comment pass over its output; its properties are the lemmas on the two passes |
| Launch.BuildVllmCommand | tools/amgctl/cmd/launch.go:244-293 | the appends build exactly the `VllmCommand` argv |
| Launch.VllmCommandStart | tools/amgctl/cmd/launch.go:247-273 | the argv starts `vllm serve MODEL --tensor-parallel-size N` followed by the twelve serving options |
| Launch.VllmPrefixCachingFlag | tools/amgctl/cmd/launch.go:275-278 | `--no-enable-prefix-caching` follows the options exactly when prefix caching is disabled |
| Launch.VllmKvTransferAlways | tools/amgctl/cmd/launch.go:280-282 | `--kv-transfer-config` with the LMCache connector is always passed, right after the optional prefix flag |
| Launch.VllmUserArgsLast | tools/amgctl/cmd/launch.go:284-290 | the user's `--vllm-arg` values close the argv, in order, with the empty ones dropped |
| Launch.AppendLegacyEnv | tools/amgctl/cmd/launch.go:180-212 | the appends add exactly the `-e` pairs of `LegacyEnvArgs` |
| Launch.LegacyEnvPaired | tools/amgctl/cmd/launch.go:180-212 | every environment entry is passed as its own `-e` argument, in order |
| Launch.LegacyEnvKeys | tools/amgctl/cmd/launch.go:181-203 | the fixed environment names are `CUDA_VISIBLE_DEVICES` (only with explicit slots), the six LMCache variables and `HF_HOME`, in that order |
| Launch.LegacyUserValuesNonEmpty | tools/amgctl/cmd/launch.go:205-223 | no empty `--vllm-env`, `--docker-arg` or `--vllm-arg` value reaches the argv |
| Launch.GenerateDockerCommand | tools/amgctl/cmd/launch.go:159-240 | the imperative generator returns what `DockerCommand` describes |
| Launch.DockerCommandLayout | tools/amgctl/cmd/launch.go:159-240 | the argv is the docker options, then the image (the user's, else the default once pulled), then the vLLM command; only a failed pull of the default image fails |
| Launch.PreflightChecks | tools/amgctl/cmd/launch.go:389-416 | the checks pass exactly when docker is found and every non-empty weka-mount and hf-home path exists, reporting the first failure |
| Launch.RunLaunchIbOptional | tools/amgctl/cmd/launch.go:121-127 | failing to detect InfiniBand devices gives the same launch as having none |
| Launch.RunLaunchDry | tools/amgctl/cmd/launch.go:139-153 | a dry run never starts docker, and only a dry run stops at showing the argv |
| Launch.RunLaunchUsesAllocation | tools/amgctl/cmd/launch.go:40-137 | a run past the checks found docker and the paths, allocated the GPUs and builds its argv from that allocation |
| Launch.RunLaunchOutcome | tools/amgctl/cmd/launch.go:151-153 | a launched container fails exactly when docker does, since the argv is never empty |
| LaunchSettings.ServeOptions | tools/amgctl/cmd/launch.go:252-273 | the twelve serving options: memory utilisation, sequences, model length, batched tokens, port and host 0.0.0.0, each flag before its value |
| LaunchSettings.LmcacheEnv | tools/amgctl/cmd/launch.go:194-199 | six LMCache variables, the third `LMCACHE_EXTRA_CONFIG` holding the GDS thread count as JSON |
| LaunchSettings.LmcacheEnvKeys | tools/amgctl/cmd/launch.go:194-199 | the LMCache variable names, in order: path, chunk size, extra config, cuFile buffer size, local CPU, save decode cache |
| LaunchSettings.Entry | tools/amgctl/cmd/launch.go:194 | a `KEY=VALUE` entry has its `=` right after the key |
| LaunchSettings.KeyOfEntry | tools/amgctl/cmd/launch.go:194 | the name of an entry built from a key without `=` is that key |
| LaunchSettings.AppendDockerHead | tools/amgctl/cmd/launch.go:162-178 | the appends up to the volume give the fixed docker options, the IB device flags split on white space, and `-v MOUNT:/mnt/weka` |
| LaunchSettings.AppendDockerTail | tools/amgctl/cmd/launch.go:214-223 | the appends add `-p P:P` and the non-empty `--docker-arg` values |
| LaunchSettings.DockerLmcacheArgsPaired | tools/amgctl/cmd/launch.go:194-199 | each LMCache variable is passed as its own `-e` argument |
| LaunchSettings.AppendLmcacheArgs | tools/amgctl/cmd/launch.go:194-199 | six `-e` appends give the LMCache argument block |
| LaunchSettings.CheckWekaMount | tools/amgctl/cmd/launch.go:396-403 | the weka-mount check passes exactly when the path is empty or exists |
| LaunchSettings.CheckHfHome | tools/amgctl/cmd/launch.go:406-413 | the hf-home check passes exactly when the path is empty or exists |
| LaunchSettings.CheckDockerCommandEmpty | tools/amgctl/cmd/launch.go:296-321 | an empty argv is refused with its own message; otherwise the launch passes exactly when docker does |
| Launch.VllmCommand | tools/amgctl/cmd/launch.go:244-293 | defines the argv `buildVllmCommand` returns |
| Launch.DockerCommand | tools/amgctl/cmd/launch.go:159-240 | defines what `generateDockerCommand` returns; only a failed pull of the default image fails it |
| Launch.RunLaunch | tools/amgctl/cmd/launch.go:36-156 | defines how the legacy docker launch ends: the preflight checks, GPU allocation, InfiniBand detection (optional), command generation, the dry run, the launch |
| SelfUpdate.Padded | tools/amgctl/update.go:129-134 | the version parts padded with "0" to at least three, the given parts unchanged |
| SelfUpdate.VersionKey | tools/amgctl/update.go:123-135 | a version compares as exactly three numbers |
| SelfUpdate.VersionKeyComponents | tools/amgctl/update.go:136-140 | each of the three numbers is its dotted part read by `Atoi`, a part that does not parse counting as 0 |
| SelfUpdate.PadVersion | tools/amgctl/update.go:125-134 | the padding loops produce exactly `Padded` of the dot-split version |
| SelfUpdate.IsNewerVersion | tools/amgctl/update.go:123-148 | the comparison loop answers `Newer`: the first differing number decides, equal versions are not newer |
| SelfUpdate.NewerAsymmetric | tools/amgctl/update.go:123-148 | no version is newer than itself, and of two versions at most one is newer |
| SelfUpdate.NewerTotal | tools/amgctl/update.go:123-148 | of two versions with different numbers, one is newer |
| SelfUpdate.ExtraComponentsIgnored | tools/amgctl/update.go:136 | parts after the third do not take part in the comparison |
| SelfUpdate.FirstEligible | tools/amgctl/update.go:112-118 | the first release that is not a pre-release, or the first one at all when pre-releases are included; none when no release qualifies |
| SelfUpdate.LatestRelease | tools/amgctl/update.go:87-120 | a release is found exactly when the request succeeds with status 200, the body decodes and some release qualifies; it is the first one that does |
| SelfUpdate.PrereleaseTakesFirst | tools/amgctl/update.go:113-117 | with pre-releases included, the newest listed release is taken |
| SelfUpdate.GetLatestRelease | tools/amgctl/update.go:87-120 | the imperative lookup returns what `LatestRelease` describes, with its error messages |
| SelfUpdate.AssetName | tools/amgctl/update.go:229-237 | the asset is named `amgctl-OS-ARCH`, with `.exe` only on Windows |
| SelfUpdate.ExtractOnlyTarGz | tools/amgctl/update.go:198 | extraction happens only when the asset name ends in `.tar.gz`, which a Windows name never does |
| SelfUpdate.LastNamed | tools/amgctl/update.go:158-165 | the scan keeps the URL of the last asset with the name sought |
| SelfUpdate.ScanAssets | tools/amgctl/update.go:158-165 | the asset loop returns the binary URL and the `checksums.txt` URL that `LastNamed` selects, empty when absent |
| SelfUpdate.FirstHashLine | tools/amgctl/update.go:285-291 | the first line of exactly two fields whose second is the asset name; none when no line is |
| SelfUpdate.FirstHashLineAt | tools/amgctl/update.go:285-291 | a matching line preceded only by non-matching lines is the one used |
| SelfUpdate.ExpectedHashFound | tools/amgctl/update.go:282-295 | an expected hash exists exactly when some line of the checksums file names the asset |
| SelfUpdate.ChecksumCheck | tools/amgctl/update.go:265-317 | verification passes exactly when the checksums download, name the asset, and the file hashes to that value |
| SelfUpdate.FindExpectedHash | tools/amgctl/update.go:282-291 | the line loop returns the hash of the first matching line, empty when none |
| SelfUpdate.VerifyChecksum | tools/amgctl/update.go:265-317 | the imperative check returns what `ChecksumCheck` describes |
| SelfUpdate.Install | tools/amgctl/update.go:150-226 | an install passes only with a binary for the platform, a verified checksum whenever one is published, and a successful replace |
| SelfUpdate.DownloadAndInstall | tools/amgctl/update.go:150-226 | the steps in order, the first failure reported: what `Install` describes |
| SelfUpdate.RunUpdate | tools/amgctl/update.go:59-85 | the imperative update returns what `UpdateResult` describes |
| SelfUpdate.UpdateDecision | tools/amgctl/update.go:59-85 | the run reports "already latest" exactly when a release is found and it is neither forced nor newer; an update installs the selected release; an unforced run never reinstalls the running version |
| SelfUpdate.Newer | tools/amgctl/update.go:123-148 | defines `isNewerVersion`: the three padded numbers compared lexicographically |
| SelfUpdate.ShouldInstall | tools/amgctl/update.go:72-78 | defines the decision: install when forced or when the release, one leading "v" stripped, is newer |
| SelfUpdate.UpdateResult | tools/amgctl/update.go:59-85 | defines how `runUpdate` ends: the release error, "already latest", or the install outcome |
| QadConfig.DigitsValueTwo | tools/amg-qad/internal/config/config.go:35 | two digits read as tens and units |
| QadConfig.DigitsValueOne | tools/amg-qad/internal/config/config.go:35 | one digit reads as its value |
| QadConfig.ClockTextMeans | tools/amg-qad/internal/config/config.go:35-36 | the time pattern accepts exactly an hour of one or two digits up to 23, a colon and two minute digits up to 59 |
| QadConfig.Validate | tools/amg-qad/internal/config/config.go:33-51 | a configuration is valid exactly when the time matches the pattern, the port is within 1-65535 and the results path is not empty |
| QadConfig.ValidateOrder | tools/amg-qad/internal/config/config.go:35-48 | the time is checked first, then the port, then the path, each with its own message |
| QadConfig.LoadConfig | tools/amg-qad/internal/config/config.go:18-30 | loading succeeds exactly when unmarshalling succeeds and the result validates, and then returns it unchanged |
| QadConfig.LoadedConfigValid | tools/amg-qad/internal/config/config.go:18-30 | every loaded configuration has a valid time, port and results path |
| QadStorage.Kept | tools/amg-qad/internal/storage/storage.go:85-98 | the scanner keeps at most one record per line |
| QadStorage.KeptIff | tools/amg-qad/internal/storage/storage.go:88-98 | a record is kept exactly when its line parses and it is a suite or does not mention "test" |
| QadStorage.Insert | tools/amg-qad/internal/storage/storage.go:105-107 | insertion adds exactly the one record |
| QadStorage.InsertNewestFirst | tools/amg-qad/internal/storage/storage.go:105-107 | inserting into a newest-first list keeps it newest first, with the newer of the two heads at the front |
| QadStorage.SortNewestFirst | tools/amg-qad/internal/storage/storage.go:105-107 | the sort is a permutation of the kept records |
| QadStorage.SortNewestFirstOrders | tools/amg-qad/internal/storage/storage.go:105-107 | the sorted records are newest first |
| QadStorage.LastResultsShape | tools/amg-qad/internal/storage/storage.go:104-114 | the answer is the first min(limit, kept) records of the newest-first sort of the kept records: newest first, each a kept record and none counted twice |
| QadStorage.NewestComesFirst | tools/amg-qad/internal/storage/storage.go:104-114 | a kept record newer than every other kept record is the first answer |
| QadStorage.New | tools/amg-qad/internal/storage/storage.go:38-48 | a failed `MkdirAll` gives "failed to create results directory: …" and no store; otherwise a fresh store over the existing log |
| QadStorage.Storage.constructor | tools/amg-qad/internal/storage/storage.go:44-47 | a store over an existing log reads its lines; a new one starts empty and absent |
| QadStorage.Storage.SaveResult | tools/amg-qad/internal/storage/storage.go:51-70 | a save appends exactly one record after all earlier lines and creates the log; an open or write failure appends nothing and reports its message |
| QadStorage.Storage.GetLastResults | tools/amg-qad/internal/storage/storage.go:73-115 | no log reads as no results; open and scan failures are errors; otherwise the answer is the kept records sorted newest first and cut to the limit |
| QadStorage.SavedSuiteFirst | tools/amg-qad/internal/storage/storage.go:51-115 | a suite saved after, and newer than, every other kept record is the first result read back |
| QadStorage.LastResults | tools/amg-qad/internal/storage/storage.go:104-114 | defines the answer on a readable log: the kept records sorted newest first, cut to `limit` |
| QadStorage.ReadLog | tools/amg-qad/internal/storage/storage.go:73-115 | defines what `GetLastResults` answers: no log gives none, open and scan failures are errors, otherwise `LastResults` |
| QadWeb.Suites | tools/amg-qad/internal/web/web.go:229-235 | the dashboard keeps at most the results it is given |
| QadWeb.SuitesIff | tools/amg-qad/internal/web/web.go:229-235 | a result is shown exactly when its parameters start with `test_suite_` |
| QadWeb.CountPassed | tools/amg-qad/internal/web/web.go:275-277 | no more suites passed than were shown |
| QadWeb.SuccessRateBounds | tools/amg-qad/internal/web/web.go:270-273 | the success rate is the floor of the passed percentage, between 0 and 100, and 100 when every suite passed |
| QadWeb.TestViews | tools/amg-qad/internal/web/web.go:244-253 | one row per individual test, with its name, outcome, duration and logs |
| QadWeb.Views | tools/amg-qad/internal/web/web.go:242-262 | one row per suite, in order |
| QadWeb.DashboardConsistent | tools/amg-qad/internal/web/web.go:226-283 | the dashboard shows as many rows as suites, passed and failed add up to the total, the rate is a percentage, and each row keeps its suite's outcome and test count |
| QadWeb.ViewTests | tools/amg-qad/internal/web/web.go:244-253 | the individual-test loop builds exactly `TestViews` |
| QadWeb.FilterSuites | tools/amg-qad/internal/web/web.go:229-235 | the filtering loop returns exactly `Suites` |
| QadWeb.PrepareDashboardData | tools/amg-qad/internal/web/web.go:226-283 | the imperative preparation returns what `DashboardOf` describes |
| QadWeb.ParseLimit | tools/amg-qad/internal/web/web.go:287-294 | the limit is the parameter when it is an integer from 1 to 100, else 10 |
| QadWeb.ApiObjects | tools/amg-qad/internal/web/web.go:312-319 | one JSON object per result, in order |
| QadWeb.ApiObjectsSnoc | tools/amg-qad/internal/web/web.go:306-324 | each loop step adds the next result's object |
| QadWeb.WriteApiBody | tools/amg-qad/internal/web/web.go:303-326 | the writes build exactly `ApiBody`: the objects between brackets, separated by commas |
| QadWeb.ApiBodyObjects | tools/amg-qad/internal/web/web.go:303-326 | no results give `[]`; each object belongs to its result, and its status reads "passed" exactly when the result passed |
| QadWeb.HandleApiResults | tools/amg-qad/internal/web/web.go:286-326 | a read failure gives a server error with its message; otherwise the body lists the results read with the parsed limit |
| QadWeb.HandleDashboard | tools/amg-qad/internal/web/web.go:66-223 | a read failure gives a server error with its message; otherwise the page shows the dashboard of the last ten results |
| QadWeb.ApiAnswerBounded | tools/amg-qad/internal/web/web.go:287-296 | the API never answers more than the parsed limit, at most 100, newest first and drawn from the kept records |
| QadWeb.SuccessRate | tools/amg-qad/internal/web/web.go:270-273 | defines the integer percentage of passed suites, 0 when there are none |
| QadWeb.DashboardOf | tools/amg-qad/internal/web/web.go:226-283 | defines the dashboard figures: the suites, their views, total, passed, failed and success rate |
| QadTests.DeclaredDependencies | tools/amg-qad/internal/scheduler/amgctl.go:158-248 | diagnostics, cufile and microbenchmark each depend only on the setup test; fetch, upgrade and setup declare none; the upgrade starts from 0.1.14 |
| QadTests.RunCommand | tools/amg-qad/internal/scheduler/amgctl.go:80-97 | an amgctl command passes exactly when it exits successfully |
| QadTests.SetupBinary | tools/amg-qad/internal/scheduler/amgctl.go:100-113 | the binary is ready exactly when the download and the chmod both succeed |
| QadTests.ExtractVersion | tools/amg-qad/internal/scheduler/amgctl.go:65-76 | an extracted version is a non-empty word without white space |
| QadTests.ThreeFields | tools/amg-qad/internal/scheduler/amgctl.go:69 | three words joined by single spaces split into exactly those three fields |
| QadTests.ExtractThirdWord | tools/amg-qad/internal/scheduler/amgctl.go:69-76 | the version is the third white-space separated word |
| QadTests.ExtractOfThree | tools/amg-qad/internal/scheduler/amgctl.go:69-76 | trimmed output of exactly three fields gives its third field |
| QadTests.ExtractOfShort | tools/amg-qad/internal/scheduler/amgctl.go:69-72 | trimmed output of fewer than three fields is an unexpected format, quoted in full |
| QadTests.ExtractVersionRoundTrip | tools/amg-qad/internal/scheduler/amgctl.go:54-77 | `amgctl version V` reads back as V |
| QadTests.ExtractVersionTooShort | tools/amg-qad/internal/scheduler/amgctl.go:69-72 | output with fewer than three words is an unexpected format, quoted in the error |
| QadTests.FetchLatestVerdict | tools/amg-qad/internal/scheduler/amgctl.go:251-304 | the fetch test passes exactly when the binary is set up and reports the expected version; it errors exactly when a step before the comparison fails |
| QadTests.UpgradeCommand | tools/amg-qad/internal/scheduler/amgctl.go:429-438 | the upgrade command passes exactly when it exits successfully |
| QadTests.UpgradeVerdict | tools/amg-qad/internal/scheduler/amgctl.go:307-388 | an initial version other than the older one fails with "initial version mismatch"; the test passes exactly when every step succeeds and the final version is the current one |
| QadTests.SetupVerdict | tools/amg-qad/internal/scheduler/amgctl.go:441-491 | the setup test passes exactly when the temporary directory, the binary, the clear and the setup succeed, and errors exactly when it does not pass |
| QadTests.DiagnosticsVerdict | tools/amg-qad/internal/scheduler/amgctl.go:494-561 | the diagnostics test passes exactly when its setup does; the diagnostic commands only log |
| QadTests.ValidateCufileConfig | tools/amg-qad/internal/scheduler/amgctl.go:660-780 | the checks pass exactly when execution, properties (with at least one IP in the RDMA address list) and the fs settings are valid |
| QadTests.ExpectedCufilePasses | tools/amg-qad/internal/scheduler/amgctl.go:660-780 | the configuration `amgctl` writes, with an IP address, passes every check |
| QadTests.NoIpAddressFails | tools/amg-qad/internal/scheduler/amgctl.go:700-740 | an RDMA address list without an IP address fails the validation |
| QadTests.CufileVerdict | tools/amg-qad/internal/scheduler/amgctl.go:564-657 | the cufile test passes exactly when its steps run, `cufile.json` is found, read, decoded and valid; a missing file fails with "cufile.json not created" |
| QadTests.BenchmarkInVenv | tools/amg-qad/internal/scheduler/amgctl.go:896-929 | the benchmark passes exactly when the virtual environment exists and the script succeeds |
| QadTests.MicroBenchmarkVerdict | tools/amg-qad/internal/scheduler/amgctl.go:783-981 | the microbenchmark passes exactly when every step runs, the profile exists and the JSON results file exists and either cannot be read or decodes; missing or invalid outputs fail it without an error, a failing step with one |
| QadTests.FetchLatestRun | tools/amg-qad/internal/scheduler/amgctl.go:251-304 | defines the fetch test's verdict from its steps' outcomes |
| QadTests.UpgradeRun | tools/amg-qad/internal/scheduler/amgctl.go:307-388 | defines the upgrade test's verdict from its steps' outcomes |
| QadTests.SetupRun | tools/amg-qad/internal/scheduler/amgctl.go:441-491 | defines the setup test's verdict from its steps' outcomes |
| QadTests.DiagnosticsRun | tools/amg-qad/internal/scheduler/amgctl.go:494-561 | defines the diagnostics test's verdict; the diagnostic commands do not enter it |
| QadTests.CufileRun | tools/amg-qad/internal/scheduler/amgctl.go:564-657 | defines the cufile test's verdict from its steps and the validation of the decoded file |
| QadTests.MicroBenchmarkRun | tools/amg-qad/internal/scheduler/amgctl.go:783-981 | defines the microbenchmark test's verdict from its steps' outcomes |
| QadTests.CufileValid | tools/amg-qad/internal/scheduler/amgctl.go:660-780 | defines what the cufile test requires of `cufile.json`: execution, properties with an IP in the RDMA list, and the fs settings |
| QadScheduler.ClockTextParts | tools/amg-qad/internal/scheduler/scheduler.go:97-100 | a valid test time splits at its colon into hour and minute, which read as at most 23 and 59 |
| QadScheduler.NextRunWithinDay | tools/amg-qad/internal/scheduler/scheduler.go:94-111 | the next run is today's test time unless that time has already passed, and then the same time a day later |
| QadScheduler.IndividualPasses | tools/amg-qad/internal/scheduler/scheduler.go:154-160 | an individual test keeps its name and duration and passes exactly when it passed, was not skipped and returned no error; a test that ran and returned an error has that error written before its logs |
| QadScheduler.StatusPriority | tools/amg-qad/internal/scheduler/scheduler.go:167-172 | the status is SKIPPED for a skipped test, else PASSED or FAILED as the individual test |
| QadScheduler.Individuals | tools/amg-qad/internal/scheduler/scheduler.go:136-188 | one individual test per engine result, in order |
| QadScheduler.SuiteShape | tools/amg-qad/internal/scheduler/scheduler.go:193-200 | the suite holds one test per engine result with its name, passes exactly when every test passed unskipped and without error, and is named `test_suite_N_tests` |
| QadScheduler.SuiteReadBack | tools/amg-qad/internal/scheduler/scheduler.go:193-200 | a stored suite is always read back by the results log |
| QadScheduler.StoredSuiteComesFirst | tools/amg-qad/internal/scheduler/scheduler.go:193-205 | a saved suite newer than every kept record is the first result the log returns |
| QadScheduler.DefaultRunnersOrdered | tools/amg-qad/internal/scheduler/scheduler.go:23-36 | every dependency a default runner declares names a runner installed before it |
| QadScheduler.FoldResults | tools/amg-qad/internal/scheduler/scheduler.go:136-188 | the result loop builds the individual tests, the overall flag and the combined logs |
| QadScheduler.Scheduler.constructor | tools/amg-qad/internal/scheduler/scheduler.go:23-36 | a new scheduler keeps its time and storage, installs the five default runners and is not running |
| QadScheduler.Scheduler.SetTestRunners | tools/amg-qad/internal/scheduler/scheduler.go:39-41 | the runners are replaced, nothing else changes |
| QadScheduler.Scheduler.AddTestRunner | tools/amg-qad/internal/scheduler/scheduler.go:44-46 | the runner is appended, nothing else changes |
| QadScheduler.Scheduler.Start | tools/amg-qad/internal/scheduler/scheduler.go:49-59 | a second start is refused with "scheduler is already running"; afterwards the scheduler runs |
| QadScheduler.Scheduler.Stop | tools/amg-qad/internal/scheduler/scheduler.go:62-70 | afterwards the scheduler is stopped, nothing else changes |
| QadScheduler.Scheduler.ExecuteTest | tools/amg-qad/internal/scheduler/scheduler.go:119-214 | an engine failure stores nothing; otherwise exactly one suite record is appended, or a save failure is reported and nothing is appended |
| QadScheduler.NextRunTime | tools/amg-qad/internal/scheduler/scheduler.go:94-111 | defines `getNextRunTime`: the configured hour and minute after `dayStart`, moved one day later when `now` is past it; requires the colon Go indexes past without a check |

## Left out

- Workload generation: random tokens, paged KV tensors, slot mappings and `torch.cuda.synchronize` are GPU work. Only the chunk, block and byte-size arithmetic derived from them is modelled.
- The wall clock: elapsed times are input samples. The store poll's timeout and its 0.05 s sleeps are replaced by the finite sequence of poll passes that start before the timeout.
- Floating point: latencies, means and throughput are exact reals. `%.2f` formatting is an input string in `LaunchSettings.Settings`.
- `BenchStats.TimingStat`: the standard deviation is kept as its square, the variance, because the exact reals of the model have no square root. The `detailed_timings` aggregates, in `BenchStats.StatOf` and in the JSON record, therefore carry the variance where the script writes `np.std`. The outlier test compares squares, which gives the same verdict.
- The profiler backends (pyinstrument, line_profiler) and their reports are inputs.
- Console output, logging, `fmt.Print*`, the dry-run text layout, and the logs and durations a QA test accumulates are left out.
- External effects are inputs of each model function, never performed. These include:
  - process execution and exit status (`exec`);
  - HTTP requests and downloads;
  - `os.Stat`, `MkdirTemp`, `MkdirAll`, `Chmod`, file reads and writes;
  - the docker image check and pull;
  - `net.Interfaces`, sysfs and `/dev/infiniband` listings;
  - `net.ParseIP`, taken as a predicate parameter;
  - home and venv paths;
  - viper and cobra flag values.
- `QadWeb.HandleApiResults` and `QadWeb.WriteApiBody`: failed writes of the response body are not modelled. The results API returns early after a failed `w.Write`, so the client gets a cut-off body, while the model always writes the whole body.
- Go map iteration order in the InfiniBand sysfs loop is taken as an input order.
- Concurrency is left out: the scheduler goroutine, its timer and `stopChan` are not modelled. `QadScheduler.Scheduler.Stop` only clears the running flag.
- The test dependency engine is not part of this model. `QadScheduler.Scheduler.ExecuteTest` takes the engine's results (or its error) as input.
- The contents of the HTML dashboard template are left out, and so is its `LastUpdated` clock text.
- The `bufio.Scanner` 64 KiB line limit in `GetLastResults` is not modelled. A longer line would end the scan with an error.
- `json.Marshal`/`json.Unmarshal` are left out: a log line is either a decoded record or unparsable text. The marshal error branch of `SaveResult` is not modelled; it needs a timestamp outside years 0-9999.
- Partial writes to the result log are not modelled: a write either appends the whole record or fails.
- `QadStorage.Storage.GetLastResults`: requires `limit >= 0`. Go panics on `results[:limit]` with a negative limit, and every caller passes a positive one.
- `QadScheduler.NextRunTime`: requires a colon in the test time, because Go indexes `parts[1]` unchecked. Time zones and DST are left out: the start of the day is an input and a day is 24 hours.
- `BenchmarkSweep.ClearOnce`: stated only for chunk-size and token-count lists without duplicates. The cache is cleared whenever a pair equals the first chunk size and the first token count, so repeated values clear more than once.
- `HostLegacy.RunHostUpdate`: the `[:8]` slices of the commit hashes in the update message are not modelled. They are display text and would panic on hashes shorter than eight characters.
- `HostLegacy.AskForConfirmation`: lower-cases ASCII letters only. Go's `strings.ToLower` also folds non-ASCII letters.
- `GetInfinibandDeviceInfo`, `checkCuFileConfig` and `runGDSChecks` are not part of this model. They are diagnostic helpers that list devices, look for `cufile.json` and run `gdscheck`. The `gdscheck` output validator is modelled in `GdsCheck`.
- `json.MarshalIndent` text layout in `runHostConfigCufile` is left out. The configuration is the record of its known fields, and a marshal error cannot occur for it.
