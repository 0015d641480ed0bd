/**
 * The integration tests the QA daemon runs against `amgctl`
 * (tools/amg-qad/internal/scheduler/amgctl.go): their names and declared
 * dependencies, how each `RunTest` turns the outcome of its steps into a
 * verdict, the version extraction, and the `cufile.json` validation.
 *
 * Every external step (a temporary directory, a download, `chmod`, running
 * `amgctl`, the home directory, reading a file) is an input `Outcome`; only
 * the decisions between them are modelled. Logs and durations are left out.
 */
module QadTests {
  import opened Wrappers
  import opened Strings

  // ---------------------------------------------------------------------
  // The tests and their declared dependencies
  // ---------------------------------------------------------------------

  const FetchLatestName: string := "amgctl_fetch_latest_test"
  const UpgradeName: string := "amgctl_upgrade_to_latest_test"
  const SetupName: string := "amgctl_setup_test"
  const DiagnosticsName: string := "amgctl_on_diagnostics_test"
  const CufileName: string := "amgctl_config_cufile_test"
  const MicroBenchmarkName: string := "lmcache_microbenchmark_test"

  /** The release the upgrade test starts from. */
  const OlderVersion: string := "0.1.14"

  /** The test runners; the three that implement `GetDependencies` carry their list. */
  datatype TestRunner =
    | FetchLatest(expectedVersion: string)
    | UpgradeToLatest(currentVersion: string, olderVersion: string)
    | Setup
    | OnDiagnostics(dependencies: seq<string>)
    | ConfigCufile(dependencies: seq<string>)
    | MicroBenchmark(dependencies: seq<string>)

  /** `GetName`: the name each constructor gives its test. */
  function Name(t: TestRunner): string {
    match t
    case FetchLatest(_) => FetchLatestName
    case UpgradeToLatest(_, _) => UpgradeName
    case Setup => SetupName
    case OnDiagnostics(_) => DiagnosticsName
    case ConfigCufile(_) => CufileName
    case MicroBenchmark(_) => MicroBenchmarkName
  }

  /** `GetDependencies`, for the runners that have it. */
  function Dependencies(t: TestRunner): Option<seq<string>> {
    match t
    case OnDiagnostics(deps) => Some(deps)
    case ConfigCufile(deps) => Some(deps)
    case MicroBenchmark(deps) => Some(deps)
    case _ => None
  }

  function NewFetchLatest(expectedVersion: string): TestRunner { FetchLatest(expectedVersion) }
  function NewUpgradeToLatest(currentVersion: string): TestRunner { UpgradeToLatest(currentVersion, OlderVersion) }
  function NewSetup(): TestRunner { Setup }
  function NewOnDiagnostics(): TestRunner { OnDiagnostics([SetupName]) }
  function NewConfigCufile(): TestRunner { ConfigCufile([SetupName]) }
  function NewMicroBenchmark(): TestRunner { MicroBenchmark([SetupName]) }

  /**
   * The diagnostics, cufile and microbenchmark tests each depend on the
   * setup test alone; the fetch, upgrade and setup tests declare nothing,
   * and the upgrade test starts from release 0.1.14.
   */
  lemma DeclaredDependencies(version: string)
    ensures Dependencies(NewOnDiagnostics()) == Some([Name(NewSetup())])
    ensures Dependencies(NewConfigCufile()) == Some([Name(NewSetup())])
    ensures Dependencies(NewMicroBenchmark()) == Some([Name(NewSetup())])
    ensures Dependencies(NewFetchLatest(version)).None? && Dependencies(NewUpgradeToLatest(version)).None?
    ensures Dependencies(NewSetup()).None?
    ensures NewUpgradeToLatest(version).olderVersion == OlderVersion
  {
  }

  // ---------------------------------------------------------------------
  // Verdicts
  // ---------------------------------------------------------------------

  /** What `RunTest` returns besides its logs and duration. */
  datatype TestRun = TestRun(passed: bool, error: Option<string>)

  /** A test that stopped on an error. */
  function Failed(e: string): TestRun { TestRun(false, Some(e)) }

  /** One step of a `RunTest`: its failure ends the test with that error; otherwise the rest decides. */
  function Then(step: Outcome, next: TestRun): TestRun {
    if step.Fail? then Failed(step.error) else next
  }

  /** `runAmgctlCommand`: the error names the command. */
  function RunCommand(args: seq<string>, exit: Outcome): (r: Outcome)
    ensures r.Pass? <==> exit.Pass?
  {
    if exit.Fail? then Fail("command 'amgctl " + Join(args, " ") + "' failed: " + exit.error) else Pass
  }

  /** `setupAmgctlBinary`: download, then make executable. */
  function SetupBinary(download: Outcome, chmod: Outcome): (r: Outcome)
    ensures r.Pass? <==> download.Pass? && chmod.Pass?
  {
    if download.Fail? then Fail("failed to download amgctl: " + download.error)
    else if chmod.Fail? then Fail("failed to make binary executable: " + chmod.error)
    else Pass
  }

  // ---------------------------------------------------------------------
  // The version of a binary
  // ---------------------------------------------------------------------

  /** The version in `--version` output such as "amgctl version 0.1.16": its third whitespace-separated field. */
  function ExtractVersion(output: string): (r: Result<string>)
    ensures r.Ok? ==> |r.value| > 0 && NoSpace(r.value)
  {
    var trimmed := TrimSpace(output);
    var parts := Fields(trimmed);
    if |parts| < 3 then Err("unexpected version output format: " + trimmed)
    else
      FieldsAreWords(trimmed);
      Ok(parts[2])
  }

  /** `getAmgctlVersion`: what running `--version` printed, or why it could not run, is the input. */
  function VersionOf(output: Result<string>): Result<string> {
    if output.Err? then Err("failed to run version command: " + output.error) else ExtractVersion(output.value)
  }

  /** Three words separated by single spaces are trimmed to themselves and split into those three fields. */
  lemma ThreeFields(w1: string, w2: string, w3: string)
    requires |w1| > 0 && NoSpace(w1) && |w2| > 0 && NoSpace(w2) && |w3| > 0 && NoSpace(w3)
    ensures var s := w1 + " " + (w2 + " " + w3);
      TrimSpace(s) == s && |Fields(s)| == 3 && Fields(s)[2] == w3
  {
    var t := w2 + " " + w3;
    assert t[|t| - 1] == w3[|w3| - 1];
    WordsTrimmed(w1, t);
    TwoFields(w2, w3);
    FieldsWordThen(w1, t);
  }

  /** Two words separated by a single space are exactly the two fields. */
  lemma TwoFields(w1: string, w2: string)
    requires |w1| > 0 && NoSpace(w1) && |w2| > 0 && NoSpace(w2)
    ensures Fields(w1 + " " + w2) == [w1, w2]
  {
    FieldsWordThen(w1, w2);
    FieldsOfWord(w2);
  }

  /** A word, a space and text ending in a non-space have nothing to trim. */
  lemma WordsTrimmed(w: string, t: string)
    requires |w| > 0 && NoSpace(w) && |t| > 0 && !IsSpace(t[|t| - 1])
    ensures TrimSpace(w + " " + t) == w + " " + t
  {
    var s := w + " " + t;
    assert s[0] == w[0];
    assert s[|s| - 1] == t[|t| - 1];
    TrimSpaceUnchanged(s);
  }

  /** Trimmed output of exactly three fields yields its third field. */
  lemma ExtractOfThree(s: string)
    requires TrimSpace(s) == s && |Fields(s)| == 3
    ensures ExtractVersion(s) == Ok(Fields(s)[2])
  {
  }

  /** `a + " " + b + " " + c`, grouped from the right. */
  lemma JoinThree<T>(a: seq<T>, sep: seq<T>, b: seq<T>, c: seq<T>)
    ensures a + sep + b + sep + c == a + sep + (b + sep + c)
  {
    AppendAssoc(a + sep + b, sep, c);
    AppendAssoc(a + sep, b, sep + c);
    AppendAssoc(a, sep, b + sep + c);
  }

  /** Output made of three words separated by single spaces yields the third word. */
  lemma ExtractThirdWord(w1: string, w2: string, w3: string)
    requires |w1| > 0 && NoSpace(w1) && |w2| > 0 && NoSpace(w2) && |w3| > 0 && NoSpace(w3)
    ensures ExtractVersion(w1 + " " + w2 + " " + w3) == Ok(w3)
  {
    JoinThree(w1, " ", w2, w3);
    ThreeFields(w1, w2, w3);
    ExtractOfThree(w1 + " " + (w2 + " " + w3));
  }

  /** The version a binary announces as "amgctl version <v>" is read back as `v`. */
  lemma ExtractVersionRoundTrip(v: string)
    requires |v| > 0 && NoSpace(v)
    ensures ExtractVersion("amgctl version " + v) == Ok(v)
  {
    assert "amgctl version " + v == "amgctl" + " " + "version" + " " + v;
    assert NoSpace("amgctl") && NoSpace("version");
    ExtractThirdWord("amgctl", "version", v);
  }

  /** Trimmed output of fewer than three fields is reported as it stands. */
  lemma ExtractOfShort(s: string)
    requires TrimSpace(s) == s && |Fields(s)| < 3
    ensures ExtractVersion(s) == Err("unexpected version output format: " + s)
  {
  }

  /** Output with fewer than three fields is reported with the trimmed text. */
  lemma ExtractVersionTooShort(w1: string, w2: string)
    requires |w1| > 0 && NoSpace(w1) && |w2| > 0 && NoSpace(w2)
    ensures ExtractVersion(w1 + " " + w2) == Err("unexpected version output format: " + w1 + " " + w2)
  {
    var s := w1 + " " + w2;
    TrimSpaceUnchanged(s);
    FieldsWordThen(w1, w2);
    FieldsOfWord(w2);
    ExtractOfShort(s);
    AppendAssoc("unexpected version output format: " + w1, " ", w2);
    AppendAssoc("unexpected version output format: ", w1, " ");
    AppendAssoc("unexpected version output format: ", w1 + " ", w2);
  }

  // ---------------------------------------------------------------------
  // The RunTest methods
  // ---------------------------------------------------------------------

  /** `AmgctlFetchLatestTest.RunTest`: the downloaded binary must announce the expected version. */
  function FetchLatestRun(expected: string, tempDir: Outcome, binary: Outcome, versionOutput: Result<string>): TestRun {
    Then(tempDir, Then(binary,
      match VersionOf(versionOutput)
      case Err(e) => Failed(e)
      case Ok(v) => TestRun(v == expected, None)))
  }

  /**
   * The fetch test passes exactly when every step succeeds and the version
   * read is the expected one; a wrong version fails it without an error.
   */
  lemma FetchLatestVerdict(expected: string, tempDir: Outcome, binary: Outcome, versionOutput: Result<string>)
    ensures var r := FetchLatestRun(expected, tempDir, binary, versionOutput);
      (r.passed <==> tempDir.Pass? && binary.Pass? && VersionOf(versionOutput) == Ok(expected))
      && (r.error.None? <==> tempDir.Pass? && binary.Pass? && VersionOf(versionOutput).Ok?)
  {
  }

  /** `runUpgradeCommand`. */
  function UpgradeCommand(exit: Outcome): (r: Outcome)
    ensures r.Pass? <==> exit.Pass?
  {
    var run := RunCommand(["update"], exit);
    if run.Fail? then Fail("upgrade command failed: " + run.error) else Pass
  }

  /**
   * `AmgctlUpgradeToLatestTest.RunTest`: download the older release, check
   * that it announces that release, run `amgctl update`, and check that the
   * binary now announces the current one.
   */
  function UpgradeRun(older: string, current: string, tempDir: Outcome, download: Outcome, chmod: Outcome,
                      initialOutput: Result<string>, update: Outcome, finalOutput: Result<string>): TestRun
  {
    Then(tempDir, Then(download, Then(chmod,
      match VersionOf(initialOutput)
      case Err(e) => Failed(e)
      case Ok(initial) =>
        if initial != older then Failed("initial version mismatch")
        else Then(UpgradeCommand(update),
          match VersionOf(finalOutput)
          case Err(e) => Failed(e)
          case Ok(final) => TestRun(final == current, None)))))
  }

  /**
   * A binary that does not start at the older release is an error, before
   * any upgrade; otherwise the test passes exactly when the upgraded binary
   * announces the current release.
   */
  lemma UpgradeVerdict(older: string, current: string, tempDir: Outcome, download: Outcome, chmod: Outcome,
                       initialOutput: Result<string>, update: Outcome, finalOutput: Result<string>)
    ensures var r := UpgradeRun(older, current, tempDir, download, chmod, initialOutput, update, finalOutput);
      var before := tempDir.Pass? && download.Pass? && chmod.Pass? && VersionOf(initialOutput).Ok?;
      (before && VersionOf(initialOutput).value != older ==> r == Failed("initial version mismatch"))
      && (r.passed <==>
            before && VersionOf(initialOutput).value == older && update.Pass? && VersionOf(finalOutput) == Ok(current))
  {
  }

  /** `AmgctlSetupTest.RunTest`: `host clear --yes`, then `host setup`. */
  function SetupRun(tempDir: Outcome, binary: Outcome, clear: Outcome, setup: Outcome): TestRun {
    Then(tempDir, Then(binary,
      Then(RunCommand(["host", "clear", "--yes"], clear),
        Then(RunCommand(["host", "setup"], setup), TestRun(true, None)))))
  }

  /** The setup test passes exactly when every step succeeds, and a failure always carries an error. */
  lemma SetupVerdict(tempDir: Outcome, binary: Outcome, clear: Outcome, setup: Outcome)
    ensures var r := SetupRun(tempDir, binary, clear, setup);
      (r.passed <==> tempDir.Pass? && binary.Pass? && clear.Pass? && setup.Pass?)
      && (r.passed <==> r.error.None?)
  {
  }

  /** The commands the diagnostics test runs after `host setup`. */
  const DiagnosticCommands: seq<seq<string>> := [
    ["host", "status"], ["host", "status", "-v"], ["host", "pre-flight"], ["host", "pre-flight", "--full"],
    ["hw", "show"], ["hw", "net"]]

  /**
   * `AmgctlOnDiagnosticsTest.RunTest`; `diagnostics[i]` is how the i-th
   * diagnostic command ended. A failing diagnostic is only logged as a warning.
   */
  function DiagnosticsRun(tempDir: Outcome, binary: Outcome, setup: Outcome, diagnostics: seq<Outcome>): TestRun {
    Then(tempDir, Then(binary, Then(RunCommand(["host", "setup"], setup), TestRun(true, None))))
  }

  /** Once `host setup` succeeds the diagnostics test passes, however the diagnostic commands end. */
  lemma DiagnosticsVerdict(tempDir: Outcome, binary: Outcome, setup: Outcome, diagnostics: seq<Outcome>,
                           other: seq<Outcome>)
    ensures DiagnosticsRun(tempDir, binary, setup, diagnostics).passed <==> tempDir.Pass? && binary.Pass? && setup.Pass?
    ensures DiagnosticsRun(tempDir, binary, setup, diagnostics) == DiagnosticsRun(tempDir, binary, setup, other)
  {
  }

  // ---------------------------------------------------------------------
  // cufile.json
  // ---------------------------------------------------------------------

  /** A decoded JSON value, as `encoding/json` gives it to an `interface{}` (numbers as float64). */
  datatype Json =
    | JNull
    | JBool(b: bool)
    | JNumber(n: real)
    | JString(s: string)
    | JArray(items: seq<Json>)
    | JObject(fields: map<string, Json>)

  /** `key` holds the boolean `true`. */
  predicate IsTrue(m: map<string, Json>, key: string) {
    key in m && m[key] == JBool(true)
  }

  /** A string that `net.ParseIP` accepts; `isIp` is `net.ParseIP(s) != nil`. */
  predicate IsIpEntry(j: Json, isIp: string -> bool) {
    j.JString? && isIp(j.s)
  }

  /** `execution.max_io_threads` is the number 0 and `execution.parallel_io` is true. */
  predicate ExecutionValid(c: map<string, Json>) {
    "execution" in c && c["execution"].JObject?
    && "max_io_threads" in c["execution"].fields && c["execution"].fields["max_io_threads"] == JNumber(0.0)
    && IsTrue(c["execution"].fields, "parallel_io")
  }

  /** `rdma_dev_addr_list` is a non-empty list holding at least one IP address string. */
  predicate RdmaListValid(p: map<string, Json>, isIp: string -> bool) {
    "rdma_dev_addr_list" in p && p["rdma_dev_addr_list"].JArray?
    && |p["rdma_dev_addr_list"].items| > 0
    && exists k :: 0 <= k < |p["rdma_dev_addr_list"].items| && IsIpEntry(p["rdma_dev_addr_list"].items[k], isIp)
  }

  /** The `properties` section: the address list, compatibility mode and GDS RDMA writes. */
  predicate PropertiesValid(c: map<string, Json>, isIp: string -> bool) {
    "properties" in c && c["properties"].JObject?
    && RdmaListValid(c["properties"].fields, isIp)
    && IsTrue(c["properties"].fields, "allow_compat_mode")
    && IsTrue(c["properties"].fields, "gds_rdma_write_support")
  }

  /** `fs.weka.rdma_write_support` is true. */
  predicate FsValid(c: map<string, Json>) {
    "fs" in c && c["fs"].JObject?
    && "weka" in c["fs"].fields && c["fs"].fields["weka"].JObject?
    && IsTrue(c["fs"].fields["weka"].fields, "rdma_write_support")
  }

  /** What the cufile test requires of `cufile.json`; a missing key or a value of another type fails it. */
  predicate CufileValid(c: map<string, Json>, isIp: string -> bool) {
    ExecutionValid(c) && PropertiesValid(c, isIp) && FsValid(c)
  }

  /** `validateCufileConfig`: every check runs, and any failing one clears the flag. */
  method ValidateCufileConfig(cufile: map<string, Json>, isIp: string -> bool) returns (allPassed: bool)
    ensures allPassed == CufileValid(cufile, isIp)
  {
    allPassed := true;

    if "execution" in cufile && cufile["execution"].JObject? {
      var execution := cufile["execution"].fields;
      if "max_io_threads" in execution && execution["max_io_threads"].JNumber? {
        if execution["max_io_threads"].n != 0.0 {
          allPassed := false;
        }
      } else {
        allPassed := false;
      }
      if "parallel_io" in execution && execution["parallel_io"].JBool? {
        if !execution["parallel_io"].b {
          allPassed := false;
        }
      } else {
        allPassed := false;
      }
    } else {
      allPassed := false;
    }

    if "properties" in cufile && cufile["properties"].JObject? {
      var properties := cufile["properties"].fields;
      if "rdma_dev_addr_list" in properties && properties["rdma_dev_addr_list"].JArray? {
        var rdmaList := properties["rdma_dev_addr_list"].items;
        if |rdmaList| > 0 {
          var hasValidIp := false;
          var i := 0;
          while i < |rdmaList|
            invariant 0 <= i <= |rdmaList|
            invariant forall k :: 0 <= k < i ==> !IsIpEntry(rdmaList[k], isIp)
          {
            if rdmaList[i].JString? && isIp(rdmaList[i].s) {
              hasValidIp := true;
              break;
            }
            i := i + 1;
          }
          if !hasValidIp {
            allPassed := false;
          }
        } else {
          allPassed := false;
        }
      } else {
        allPassed := false;
      }
      if "allow_compat_mode" in properties && properties["allow_compat_mode"].JBool? {
        if !properties["allow_compat_mode"].b {
          allPassed := false;
        }
      } else {
        allPassed := false;
      }
      if "gds_rdma_write_support" in properties && properties["gds_rdma_write_support"].JBool? {
        if !properties["gds_rdma_write_support"].b {
          allPassed := false;
        }
      } else {
        allPassed := false;
      }
    } else {
      allPassed := false;
    }

    if "fs" in cufile && cufile["fs"].JObject? {
      var fs := cufile["fs"].fields;
      if "weka" in fs && fs["weka"].JObject? {
        var weka := fs["weka"].fields;
        if "rdma_write_support" in weka && weka["rdma_write_support"].JBool? {
          if !weka["rdma_write_support"].b {
            allPassed := false;
          }
        } else {
          allPassed := false;
        }
      } else {
        allPassed := false;
      }
    } else {
      allPassed := false;
    }
  }

  /** The configuration `amgctl host config cufile` is meant to write passes the validation. */
  lemma ExpectedCufilePasses(addr: string, isIp: string -> bool)
    requires isIp(addr)
    ensures CufileValid(map[
      "execution" := JObject(map["max_io_threads" := JNumber(0.0), "parallel_io" := JBool(true)]),
      "properties" := JObject(map[
        "rdma_dev_addr_list" := JArray([JString(addr)]),
        "allow_compat_mode" := JBool(true),
        "gds_rdma_write_support" := JBool(true)]),
      "fs" := JObject(map["weka" := JObject(map["rdma_write_support" := JBool(true)])])], isIp)
  {
    var list := [JString(addr)];
    assert IsIpEntry(list[0], isIp);
  }

  /** An address list without an IP address fails the validation, whatever else the file says. */
  lemma NoIpAddressFails(c: map<string, Json>, isIp: string -> bool)
    requires "properties" in c && c["properties"].JObject?
    requires "rdma_dev_addr_list" in c["properties"].fields && c["properties"].fields["rdma_dev_addr_list"].JArray?
    requires forall j :: j in c["properties"].fields["rdma_dev_addr_list"].items ==> !IsIpEntry(j, isIp)
    ensures !CufileValid(c, isIp)
  {
    var items := c["properties"].fields["rdma_dev_addr_list"].items;
    forall k | 0 <= k < |items|
      ensures !IsIpEntry(items[k], isIp)
    {
      assert items[k] in items;
    }
  }

  /**
   * `AmgctlConfigCufileTest.RunTest`: `host setup`, `host config cufile`,
   * then `~/amg_stable/cufile.json` must exist, read, decode to a JSON
   * object and pass the validation.
   */
  function CufileRun(tempDir: Outcome, binary: Outcome, setup: Outcome, configure: Outcome, home: Outcome,
                     found: bool, read: Outcome, decoded: Result<map<string, Json>>, isIp: string -> bool): TestRun
  {
    Then(tempDir, Then(binary,
      Then(RunCommand(["host", "setup"], setup),
        Then(RunCommand(["host", "config", "cufile"], configure),
          Then(home,
            if !found then Failed("cufile.json not created")
            else Then(read,
              match decoded
              case Err(e) => Failed(e)
              case Ok(cufile) => TestRun(CufileValid(cufile, isIp), None)))))))
  }

  /** The cufile test passes exactly when every step succeeds and the decoded file is valid. */
  lemma CufileVerdict(tempDir: Outcome, binary: Outcome, setup: Outcome, configure: Outcome, home: Outcome,
                      found: bool, read: Outcome, decoded: Result<map<string, Json>>, isIp: string -> bool)
    ensures var r := CufileRun(tempDir, binary, setup, configure, home, found, read, decoded, isIp);
      var ran := tempDir.Pass? && binary.Pass? && setup.Pass? && configure.Pass? && home.Pass?;
      (r.passed <==> ran && found && read.Pass? && decoded.Ok? && CufileValid(decoded.value, isIp))
      && (ran && !found ==> r == Failed("cufile.json not created"))
  {
  }

  // ---------------------------------------------------------------------
  // The LMCache microbenchmark
  // ---------------------------------------------------------------------

  /** The JSON results file after the benchmark: absent, unreadable, or read and decoded (or not). */
  datatype ResultsFile = Absent | Unreadable | Readable(validJson: bool)

  /**
   * `validateBenchmarkOutputs`: the profile text file must exist; the JSON
   * results file must exist and, when it can be read, decode. A JSON file
   * that cannot be read is only a warning.
   */
  predicate BenchmarkOutputsValid(profileExists: bool, results: ResultsFile) {
    profileExists && !results.Absent? && !(results.Readable? && !results.validJson)
  }

  /** `runBenchmarkInVenv`: the virtual environment must exist, then the benchmark must run. */
  function BenchmarkInVenv(venvExists: bool, venvPath: string, benchmark: Outcome): (r: Outcome)
    ensures r.Pass? <==> venvExists && benchmark.Pass?
  {
    if !venvExists then Fail("virtual environment not found at " + venvPath)
    else if benchmark.Fail? then Fail("benchmark execution failed: " + benchmark.error)
    else Pass
  }

  /** `LMCacheMicroBenchmarkTest.RunTest`. */
  function MicroBenchmarkRun(tempDir: Outcome, binary: Outcome, setup: Outcome, home: Outcome, download: Outcome,
                             venvExists: bool, venvPath: string, benchmark: Outcome, profileExists: bool,
                             results: ResultsFile): TestRun
  {
    Then(tempDir, Then(binary,
      Then(RunCommand(["host", "setup"], setup),
        Then(home, Then(download,
          Then(BenchmarkInVenv(venvExists, venvPath, benchmark),
            TestRun(BenchmarkOutputsValid(profileExists, results), None)))))))
  }

  /**
   * The benchmark test passes exactly when every step succeeds, the profile
   * exists and the JSON results exist and are not invalid; missing outputs
   * fail it without an error.
   */
  lemma MicroBenchmarkVerdict(tempDir: Outcome, binary: Outcome, setup: Outcome, home: Outcome, download: Outcome,
                              venvExists: bool, venvPath: string, benchmark: Outcome, profileExists: bool,
                              results: ResultsFile)
    ensures var r := MicroBenchmarkRun(tempDir, binary, setup, home, download, venvExists, venvPath, benchmark,
                                       profileExists, results);
      var ran := tempDir.Pass? && binary.Pass? && setup.Pass? && home.Pass? && download.Pass? && venvExists
                 && benchmark.Pass?;
      (r.passed <==> ran && profileExists && (results.Unreadable? || results == Readable(true)))
      && (r.error.None? <==> ran)
  {
  }
}
