/**
 * The scheduler of the QA daemon (tools/amg-qad/internal/scheduler/scheduler.go):
 * the running flag, the daily run time, and the folding of the dependency
 * engine's results into one stored test-suite record.
 *
 * Time is one line of integer nanoseconds. The dependency engine is not part
 * of this model: what it returns is an input of `ExecuteTest`.
 */
module QadScheduler {
  import opened Wrappers
  import opened Strings
  import opened QadConfig
  import opened QadStorage
  import opened QadTests

  // ---------------------------------------------------------------------
  // The next run
  // ---------------------------------------------------------------------

  const Second: int := 1_000_000_000
  const Minute: int := 60 * Second
  const Hour: int := 60 * Minute
  const Day: int := 24 * Hour

  /**
   * `getNextRunTime`: today at the configured hour and minute, or that
   * instant a day later when `now` is already past it. `dayStart` is the
   * midnight that starts `now`'s day; days are 24 hours long (no daylight
   * saving change). Go indexes the second piece of the split without a
   * check, so a time without a colon is not accepted here.
   */
  function NextRunTime(testTime: string, dayStart: int, now: int): int
    requires |Split(testTime, ':')| >= 2
  {
    var parts := Split(testTime, ':');
    var hour := AtoiIgnoringError(parts[0]);
    var minute := AtoiIgnoringError(parts[1]);
    var today := dayStart + hour * Hour + minute * Minute;
    if now > today then today + Day else today
  }

  /** A valid clock text splits into its hour and minute texts, which parse to their digit values. */
  lemma ClockTextParts(t: string)
    requires ClockText(t)
    ensures Split(t, ':') == [HourText(t), MinuteText(t)]
    ensures AtoiIgnoringError(HourText(t)) == DigitsValue(HourText(t)) <= 23
    ensures AtoiIgnoringError(MinuteText(t)) == DigitsValue(MinuteText(t)) <= 59
  {
    ClockTextMeans(t);
    var h := HourText(t);
    var m := MinuteText(t);
    assert t == h + [':'] + m;
    SplitConcat(h, m, ':');
    assert forall i :: 0 <= i < |h| ==> h[i] != ':';
    assert forall i :: 0 <= i < |m| ==> m[i] != ':';
    SplitNoSep(h, ':');
    SplitNoSep(m, ':');
    assert Atoi(h) == Ok(DigitsValue(h));
    assert Atoi(m) == Ok(DigitsValue(m));
  }

  /**
   * For a validated test time and a `now` within the day that starts at
   * `dayStart`, the next run is at the configured hour and minute, today or
   * tomorrow, and lies in [now, now + 24h): today's instant when `now` is
   * not past it, tomorrow's otherwise.
   */
  lemma NextRunWithinDay(testTime: string, dayStart: int, now: int)
    requires ClockText(testTime)
    requires dayStart <= now < dayStart + Day
    ensures |Split(testTime, ':')| >= 2
    ensures var next := NextRunTime(testTime, dayStart, now);
      var today := dayStart + DigitsValue(HourText(testTime)) * Hour + DigitsValue(MinuteText(testTime)) * Minute;
      now <= next < now + Day
      && (next == today <==> now <= today)
      && (next == today + Day <==> now > today)
  {
    ClockTextParts(testTime);
    ClockOffset(DigitsValue(HourText(testTime)), DigitsValue(MinuteText(testTime)));
  }

  /** An hour of the day and a minute of the hour lie within one day. */
  lemma ClockOffset(h: int, m: int)
    requires 0 <= h <= 23 && 0 <= m <= 59
    ensures 0 <= h * Hour + m * Minute < Day
  {
    MulAtMost(h, 23, Hour);
    MulAtMost(m, 59, Minute);
    MulAtMost(0, h, Hour);
    MulAtMost(0, m, Minute);
  }

  /** Multiplying by a non-negative factor keeps an upper bound. */
  lemma MulAtMost(a: int, b: int, c: int)
    requires a <= b && c >= 0
    ensures a * c <= b * c
  {
  }

  // ---------------------------------------------------------------------
  // Folding the engine's results
  // ---------------------------------------------------------------------

  /** One result of the dependency engine. */
  datatype EngineResult = EngineResult(name: string, passed: bool, skipped: bool, error: Option<string>,
                                       duration: string, logs: string, reason: string)

  /**
   * The stored record of one result: a skipped test does not pass, and a
   * test that was run and returned an error fails with the error before its logs.
   */
  function Individual(r: EngineResult): IndividualTest {
    if r.error.Some? && !r.skipped then
      IndividualTest(r.name, false, r.duration, "Test execution error: " + r.error.value + "\n" + r.logs)
    else IndividualTest(r.name, r.passed && !r.skipped, r.duration, r.logs)
  }

  /** An individual test passes exactly when it passed, was not skipped and returned no error. */
  lemma IndividualPasses(r: EngineResult)
    ensures Individual(r).passed <==> r.passed && !r.skipped && r.error.None?
    ensures Individual(r).name == r.name && Individual(r).duration == r.duration
    ensures r.error.Some? && !r.skipped ==>
      Individual(r).logs == "Test execution error: " + r.error.value + "\n" + r.logs
    ensures r.error.None? || r.skipped ==> Individual(r).logs == r.logs
  {
  }

  /** The status logged for a result. */
  function Status(r: EngineResult): string {
    if r.skipped then "SKIPPED" else if !Individual(r).passed then "FAILED" else "PASSED"
  }

  /** Skipped outranks failed, which outranks passed: the status is PASSED exactly when the test passes. */
  lemma StatusPriority(r: EngineResult)
    ensures Status(r) == "SKIPPED" <==> r.skipped
    ensures Status(r) == "FAILED" <==> !r.skipped && !Individual(r).passed
    ensures Status(r) == "PASSED" <==> Individual(r).passed
  {
    IndividualPasses(r);
  }

  /** The section a result adds to the suite's combined logs. */
  function Section(r: EngineResult): string {
    "=== " + r.name + " ===\n" + Individual(r).logs + "\n\n"
  }

  function CombinedLogs(results: seq<EngineResult>): string
    decreases |results|
  {
    if |results| == 0 then "" else CombinedLogs(results[..|results| - 1]) + Section(results[|results| - 1])
  }

  /** Every result's individual test passed. */
  predicate AllPassed(results: seq<EngineResult>) {
    forall i :: 0 <= i < |results| ==> Individual(results[i]).passed
  }

  function Individuals(results: seq<EngineResult>): (tests: seq<IndividualTest>)
    ensures |tests| == |results|
    ensures forall i :: 0 <= i < |results| ==> tests[i] == Individual(results[i])
  {
    seq(|results|, i requires 0 <= i < |results| => Individual(results[i]))
  }

  /** The suite record `executeTest` stores for `results`, made at `timestamp` after running for `duration`. */
  function Suite(results: seq<EngineResult>, timestamp: int, duration: string): TestResult {
    var allPassed := AllPassed(results);
    TestResult(timestamp, allPassed, duration, "test_suite_" + IntToString(|results|) + "_tests",
               "Test Suite Summary:\n" + IntToString(|results|) + " tests executed in " + duration
               + "\nOverall result: " + BoolToString(allPassed) + "\n\n" + CombinedLogs(results),
               Individuals(results))
  }

  /**
   * The suite holds one test per result, in order; it passes exactly when
   * every result ran without a skip or an error and passed, so a single
   * skipped test fails it; its parameters name the number of results.
   */
  lemma SuiteShape(results: seq<EngineResult>, timestamp: int, duration: string)
    ensures var suite := Suite(results, timestamp, duration);
      |suite.tests| == |results|
      && (forall i :: 0 <= i < |results| ==> suite.tests[i].name == results[i].name)
      && (suite.passed <==> forall i :: 0 <= i < |results| ==>
            results[i].passed && !results[i].skipped && results[i].error.None?)
      && ((exists i :: 0 <= i < |results| && results[i].skipped) ==> !suite.passed)
      && suite.parameters == SuitePrefix + IntToString(|results|) + "_tests"
  {
    forall i | 0 <= i < |results| {
      IndividualPasses(results[i]);
    }
  }

  /** A stored suite is read back by `GetLastResults`, since its parameters start with the suite prefix. */
  lemma SuiteReadBack(results: seq<EngineResult>, timestamp: int, duration: string)
    ensures HasPrefix(Suite(results, timestamp, duration).parameters, SuitePrefix)
    ensures ReadBack(Suite(results, timestamp, duration))
  {
    var rest := IntToString(|results|) + "_tests";
    assert SuitePrefix + IntToString(|results|) + "_tests" == SuitePrefix + rest;
    assert (SuitePrefix + rest)[..|SuitePrefix|] == SuitePrefix;
  }

  /**
   * A suite stored after every kept record and newer than all of them is the
   * first record `GetLastResults` answers with.
   */
  lemma StoredSuiteComesFirst(lines: seq<LogLine>, results: seq<EngineResult>, timestamp: int, duration: string,
                              limit: int)
    requires limit >= 1
    requires forall y :: y in Kept(lines) ==> y.timestamp < timestamp
    ensures var all := lines + [Record(Suite(results, timestamp, duration))];
      |LastResults(all, limit)| > 0 && LastResults(all, limit)[0] == Suite(results, timestamp, duration)
  {
    SuiteReadBack(results, timestamp, duration);
    SavedSuiteFirst(lines, Suite(results, timestamp, duration), limit);
  }

  // ---------------------------------------------------------------------
  // The scheduler
  // ---------------------------------------------------------------------

  /** The runners `New` installs: fetch, upgrade, setup, diagnostics, cufile. */
  function DefaultRunners(version: string): seq<TestRunner> {
    [NewFetchLatest(version), NewUpgradeToLatest(version), NewSetup(), NewOnDiagnostics(), NewConfigCufile()]
  }

  /** Every dependency a default runner declares names a runner installed before it. */
  lemma DefaultRunnersOrdered(version: string)
    ensures var rs := DefaultRunners(version);
      forall i :: 0 <= i < |rs| && Dependencies(rs[i]).Some? ==>
        forall d :: d in Dependencies(rs[i]).value ==> exists j :: 0 <= j < i && Name(rs[j]) == d
  {
    var rs := DefaultRunners(version);
    assert Name(rs[2]) == SetupName;
  }

  /** The loop of `executeTest` over the engine's results: the individual tests, the overall flag and the combined logs. */
  method FoldResults(results: seq<EngineResult>)
    returns (allPassed: bool, combinedLogs: string, individualTests: seq<IndividualTest>)
    ensures individualTests == Individuals(results)
    ensures allPassed == AllPassed(results)
    ensures combinedLogs == CombinedLogs(results)
  {
    allPassed := true;
    combinedLogs := "";
    individualTests := [];
    for i := 0 to |results|
      invariant |individualTests| == i
      invariant forall k :: 0 <= k < i ==> individualTests[k] == Individual(results[k])
      invariant allPassed <==> forall k :: 0 <= k < i ==> Individual(results[k]).passed
      invariant combinedLogs == CombinedLogs(results[..i])
    {
      var result := results[i];
      var passed := result.passed && !result.skipped;
      var logs := result.logs;
      if result.error.Some? && !result.skipped {
        passed := false;
        logs := "Test execution error: " + result.error.value + "\n" + logs;
      }
      individualTests := individualTests + [IndividualTest(result.name, passed, result.duration, logs)];
      if !passed {
        allPassed := false;
      }
      assert results[..i + 1][..i] == results[..i];
      combinedLogs := combinedLogs + ("=== " + result.name + " ===\n" + logs + "\n\n");
    }
    PrefixAll(results);
  }

  /** The error `SaveResult` reports for a fault. */
  function SaveFailure(fault: SaveFault): string {
    match fault
    case NoFault => ""
    case OpenFault(e) => "failed to open results file: " + e
    case WriteFault(e) => "failed to write result: " + e
  }

  class Scheduler {
    var testTime: string
    var storage: Storage
    var testRunners: seq<TestRunner>
    var isRunning: bool

    /** `New`. */
    constructor (testTime: string, store: Storage, version: string)
      ensures this.testTime == testTime && storage == store
      ensures testRunners == DefaultRunners(version) && !isRunning
    {
      this.testTime := testTime;
      storage := store;
      testRunners := DefaultRunners(version);
      isRunning := false;
    }

    /** `SetTestRunners`. */
    method SetTestRunners(runners: seq<TestRunner>)
      modifies this
      ensures testRunners == runners
      ensures testTime == old(testTime) && storage == old(storage) && isRunning == old(isRunning)
    {
      testRunners := runners;
    }

    /** `AddTestRunner`: one runner after the existing ones. */
    method AddTestRunner(runner: TestRunner)
      modifies this
      ensures testRunners == old(testRunners) + [runner]
      ensures testTime == old(testTime) && storage == old(storage) && isRunning == old(isRunning)
    {
      testRunners := testRunners + [runner];
    }

    /** `Start`: refused while running; otherwise the scheduler is running afterwards. */
    method Start() returns (r: Outcome)
      modifies this
      ensures old(isRunning) ==> r == Fail("scheduler is already running")
      ensures !old(isRunning) ==> r == Pass
      ensures isRunning
      ensures testTime == old(testTime) && storage == old(storage) && testRunners == old(testRunners)
    {
      if isRunning {
        return Fail("scheduler is already running");
      }
      isRunning := true;
      r := Pass;
    }

    /** `Stop`: nothing happens when not running; otherwise the flag is cleared. */
    method Stop()
      modifies this
      ensures !isRunning
      ensures testTime == old(testTime) && storage == old(storage) && testRunners == old(testRunners)
    {
      if !isRunning {
        return;
      }
      isRunning := false;
    }

    /**
     * `executeTest`: the engine's results (or its error) are the input
     * `engine`; the suite is stamped `timestamp` and took `duration`; `fault`
     * is what saving it runs into. An engine error returns before anything is
     * stored; a save error is passed on.
     */
    method ExecuteTest(engine: Result<seq<EngineResult>>, timestamp: int, duration: string, fault: SaveFault)
      returns (r: Outcome)
      modifies storage
      ensures engine.Err? ==>
        r == Fail("test execution failed: " + engine.error)
        && storage.lines == old(storage.lines) && storage.present == old(storage.present)
      ensures engine.Ok? && fault.NoFault? ==>
        r == Pass && storage.lines == old(storage.lines) + [Record(Suite(engine.value, timestamp, duration))]
      ensures engine.Ok? && !fault.NoFault? ==>
        r == Fail("failed to save test suite result: " + SaveFailure(fault)) && storage.lines == old(storage.lines)
    {
      if engine.Err? {
        return Fail("test execution failed: " + engine.error);
      }
      var results := engine.value;
      var allPassed, combinedLogs, individualTests := FoldResults(results);
      var suite := TestResult(timestamp, allPassed, duration, "test_suite_" + IntToString(|results|) + "_tests",
                              "Test Suite Summary:\n" + IntToString(|results|) + " tests executed in " + duration
                              + "\nOverall result: " + BoolToString(allPassed) + "\n\n" + combinedLogs,
                              individualTests);
      assert suite == Suite(results, timestamp, duration);
      var saved := storage.SaveResult(suite, fault);
      if saved.Fail? {
        return Fail("failed to save test suite result: " + saved.error);
      }
      r := Pass;
    }
  }
}
