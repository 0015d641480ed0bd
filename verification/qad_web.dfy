/**
 * The dashboard and JSON API of the QA daemon
 * (tools/amg-qad/internal/web/web.go): the figures the dashboard template
 * shows, the `limit` query parameter and the hand-written JSON array.
 * Timestamps are formatted by the functions passed in (`time.Format`).
 */
module QadWeb {
  import opened Wrappers
  import opened Strings
  import opened QadStorage

  // ---------------------------------------------------------------------
  // Dashboard figures
  // ---------------------------------------------------------------------

  /** One test row under an expanded suite. */
  datatype TestView = TestView(name: string, passed: bool, duration: string, logs: string)

  /** One suite row of the dashboard. */
  datatype SuiteView = SuiteView(formattedTime: string, passed: bool, duration: string, parameters: string,
                                 testCount: int, individualTests: seq<TestView>)

  /** What `prepareDashboardData` hands to the template (the wall-clock `LastUpdated` aside). */
  datatype Dashboard = Dashboard(results: seq<SuiteView>, totalTests: int, passedTests: int, failedTests: int,
                                 successRate: int)

  /** The suites among the results, in order. */
  function Suites(rs: seq<TestResult>): (r: seq<TestResult>)
    ensures |r| <= |rs|
    decreases |rs|
  {
    if |rs| == 0 then []
    else
      var last := rs[|rs| - 1];
      Suites(rs[..|rs| - 1]) + (if HasPrefix(last.parameters, SuitePrefix) then [last] else [])
  }

  /** A result is shown exactly when it is a suite. */
  lemma {:induction false} SuitesIff(rs: seq<TestResult>)
    ensures forall x :: x in Suites(rs) <==> x in rs && HasPrefix(x.parameters, SuitePrefix)
    decreases |rs|
  {
    if |rs| > 0 {
      SuitesIff(rs[..|rs| - 1]);
      assert rs == rs[..|rs| - 1] + [rs[|rs| - 1]];
    }
  }

  /** How many of the results passed. */
  function CountPassed(rs: seq<TestResult>): (n: nat)
    ensures n <= |rs|
    decreases |rs|
  {
    if |rs| == 0 then 0
    else CountPassed(rs[..|rs| - 1]) + (if rs[|rs| - 1].passed then 1 else 0)
  }

  /** The integer percentage of passed suites; 0 when there are none. */
  function SuccessRate(passed: int, total: int): int {
    if total > 0 then (passed * 100) / total else 0
  }

  /** The rate lies in 0..100 and is the percentage rounded down. */
  lemma SuccessRateBounds(passed: int, total: int)
    requires 0 <= passed <= total
    ensures 0 <= SuccessRate(passed, total) <= 100
    ensures total > 0 ==> SuccessRate(passed, total) * total <= passed * 100 < (SuccessRate(passed, total) + 1) * total
    ensures passed == total && total > 0 ==> SuccessRate(passed, total) == 100
  {
    if total > 0 {
      var q := (passed * 100) / total;
      var rem := (passed * 100) % total;
      assert passed * 100 == q * total + rem && 0 <= rem < total;
      if q > 100 {
        MulAtLeast(q, 101, total);
      }
      if q < 0 {
        MulAtLeast(0, q + 1, total);
      }
      if passed == total && q < 100 {
        MulAtLeast(100, q + 1, total);
      }
    }
  }

  lemma MulAtLeast(a: int, b: int, c: int)
    requires a >= b && c >= 0
    ensures a * c >= b * c
  {
  }

  function TestViews(tests: seq<IndividualTest>): (r: seq<TestView>)
    ensures |r| == |tests|
    ensures forall i :: 0 <= i < |r| ==>
      r[i] == TestView(tests[i].name, tests[i].passed, tests[i].duration, tests[i].logs)
  {
    seq(|tests|, i requires 0 <= i < |tests| => TestView(tests[i].name, tests[i].passed, tests[i].duration, tests[i].logs))
  }

  function View(r: TestResult, formatTime: int -> string): SuiteView {
    SuiteView(formatTime(r.timestamp), r.passed, r.duration, r.parameters, |r.tests|, TestViews(r.tests))
  }

  function Views(rs: seq<TestResult>, formatTime: int -> string): (r: seq<SuiteView>)
    ensures |r| == |rs|
    ensures forall i :: 0 <= i < |r| ==> r[i] == View(rs[i], formatTime)
  {
    seq(|rs|, i requires 0 <= i < |rs| => View(rs[i], formatTime))
  }

  /** The dashboard figures for a list of results. */
  function DashboardOf(results: seq<TestResult>, formatTime: int -> string): Dashboard {
    var suites := Suites(results);
    Dashboard(Views(suites, formatTime), |suites|, CountPassed(suites), |suites| - CountPassed(suites),
              SuccessRate(CountPassed(suites), |suites|))
  }

  /**
   * Every shown row is a suite, in input order, with its test count and
   * tests mirrored; passed and failed add up to the total; the rate is in
   * 0..100.
   */
  lemma DashboardConsistent(results: seq<TestResult>, formatTime: int -> string)
    ensures var d := DashboardOf(results, formatTime);
      |d.results| == d.totalTests == |Suites(results)|
      && d.passedTests + d.failedTests == d.totalTests
      && 0 <= d.failedTests
      && 0 <= d.successRate <= 100
      && forall i :: 0 <= i < |d.results| ==>
           d.results[i].testCount == |Suites(results)[i].tests|
           && d.results[i].passed == Suites(results)[i].passed
           && |d.results[i].individualTests| == d.results[i].testCount
  {
    var suites := Suites(results);
    SuccessRateBounds(CountPassed(suites), |suites|);
  }

  /** The loop copying one suite's tests. */
  method ViewTests(tests: seq<IndividualTest>) returns (views: seq<TestView>)
    ensures views == TestViews(tests)
  {
    views := [];
    var i := 0;
    while i < |tests|
      invariant 0 <= i <= |tests|
      invariant views == TestViews(tests[..i])
    {
      views := views + [TestView(tests[i].name, tests[i].passed, tests[i].duration, tests[i].logs)];
      i := i + 1;
    }
    assert tests[..i] == tests;
  }

  /** The loop picking out the suites. */
  method FilterSuites(results: seq<TestResult>) returns (suites: seq<TestResult>)
    ensures suites == Suites(results)
  {
    suites := [];
    var i := 0;
    while i < |results|
      invariant 0 <= i <= |results|
      invariant suites == Suites(results[..i])
    {
      assert results[..i + 1][..i] == results[..i];
      if HasPrefix(results[i].parameters, SuitePrefix) {
        suites := suites + [results[i]];
      }
      i := i + 1;
    }
    PrefixAll(results);
  }

  /** `prepareDashboardData`: filter, then one row per suite while counting the passed ones. */
  method PrepareDashboardData(results: seq<TestResult>, formatTime: int -> string) returns (data: Dashboard)
    ensures data == DashboardOf(results, formatTime)
  {
    var suiteResults := FilterSuites(results);
    var processed: seq<SuiteView> := [];
    var passed := 0;
    var total := |suiteResults|;
    var i := 0;
    while i < |suiteResults|
      invariant 0 <= i <= |suiteResults|
      invariant processed == Views(suiteResults[..i], formatTime)
      invariant passed == CountPassed(suiteResults[..i])
    {
      assert suiteResults[..i + 1][..i] == suiteResults[..i];
      var result := suiteResults[i];
      var individualTests := ViewTests(result.tests);
      processed := processed + [SuiteView(formatTime(result.timestamp), result.passed, result.duration,
                                          result.parameters, |result.tests|, individualTests)];
      if result.passed {
        passed := passed + 1;
      }
      i := i + 1;
    }
    PrefixAll(suiteResults);
    var successRate := 0;
    if total > 0 {
      successRate := (passed * 100) / total;
    }
    data := Dashboard(processed, total, passed, total - passed, successRate);
  }

  // ---------------------------------------------------------------------
  // The JSON API
  // ---------------------------------------------------------------------

  const DefaultLimit: int := 10
  const MaxLimit: int := 100

  /** The `limit` query parameter: a number in 1..100 replaces the default of 10. */
  function ParseLimit(param: string): (limit: int)
    ensures 1 <= limit <= MaxLimit
    ensures param != "" && Atoi(param).Ok? && 1 <= Atoi(param).value <= MaxLimit ==> limit == Atoi(param).value
    ensures !(param != "" && Atoi(param).Ok? && 1 <= Atoi(param).value <= MaxLimit) ==> limit == DefaultLimit
  {
    if param != "" && Atoi(param).Ok? && 1 <= Atoi(param).value <= MaxLimit then Atoi(param).value
    else DefaultLimit
  }

  function StatusText(r: TestResult): string {
    if r.passed then "passed" else "failed"
  }

  /** One result as the API writes it; the text fields go in unescaped. */
  function ApiObject(r: TestResult, formatRfc3339: int -> string): string {
    "{\"timestamp\":\"" + formatRfc3339(r.timestamp) + "\",\"status\":\"" + StatusText(r)
    + "\",\"duration\":\"" + r.duration + "\",\"parameters\":\"" + r.parameters + "\"}"
  }

  function ApiObjects(rs: seq<TestResult>, formatRfc3339: int -> string): (r: seq<string>)
    ensures |r| == |rs|
    ensures forall i :: 0 <= i < |r| ==> r[i] == ApiObject(rs[i], formatRfc3339)
  {
    seq(|rs|, i requires 0 <= i < |rs| => ApiObject(rs[i], formatRfc3339))
  }

  /** The response body: the objects, comma-separated, between brackets. */
  function ApiBody(rs: seq<TestResult>, formatRfc3339: int -> string): string {
    "[" + Join(ApiObjects(rs, formatRfc3339), ",") + "]"
  }

  /** One more result adds one more object at the end. */
  lemma ApiObjectsSnoc(rs: seq<TestResult>, i: nat, formatRfc3339: int -> string)
    requires i < |rs|
    ensures ApiObjects(rs[..i + 1], formatRfc3339) == ApiObjects(rs[..i], formatRfc3339) + [ApiObject(rs[i], formatRfc3339)]
  {
  }

  /** Writing a comma (after the first object) and one more object extends the open array by that object. */
  lemma BracketedStep(written: seq<string>, json: string)
    ensures "[" + Join(written, ",") + (if |written| > 0 then "," else "") + json == "[" + Join(written + [json], ",")
  {
    JoinStep(written, ",", json);
    if |written| > 0 {
      AppendAssoc("[" + Join(written, ","), ",", json);
      AppendAssoc("[", Join(written, ","), "," + json);
      AppendAssoc(Join(written, ","), ",", json);
    }
  }

  /** The loop of `handleAPIResults` writing the array piecewise. */
  method WriteApiBody(results: seq<TestResult>, formatRfc3339: int -> string) returns (body: string)
    ensures body == ApiBody(results, formatRfc3339)
  {
    body := "[";
    var i := 0;
    while i < |results|
      invariant 0 <= i <= |results|
      invariant body == "[" + Join(ApiObjects(results[..i], formatRfc3339), ",")
    {
      var json := ApiObject(results[i], formatRfc3339);
      ApiObjectsSnoc(results, i, formatRfc3339);
      BracketedStep(ApiObjects(results[..i], formatRfc3339), json);
      if i > 0 {
        body := body + ",";
      }
      body := body + json;
      i := i + 1;
    }
    PrefixAll(results);
    body := body + "]";
  }

  /** The API writes one object per result, in order, with the status taken from `passed`. */
  lemma ApiBodyObjects(rs: seq<TestResult>, formatRfc3339: int -> string)
    ensures ApiBody([], formatRfc3339) == "[]"
    ensures forall i :: 0 <= i < |rs| ==>
      (ApiObjects(rs, formatRfc3339)[i] == ApiObject(rs[i], formatRfc3339))
      && (StatusText(rs[i]) == "passed" <==> rs[i].passed)
  {
  }

  /** What a handler answers: an internal error, a JSON body, or the dashboard figures. */
  datatype Response = ServerError(message: string) | JsonBody(body: string) | DashboardPage(data: Dashboard)

  /** `handleAPIResults`: the limit, the stored results, then the body. */
  method HandleApiResults(store: Storage, limitParam: string, formatRfc3339: int -> string,
                          openError: Option<string>, scanError: Option<string>) returns (resp: Response)
    ensures var read := ReadLog(store.present, store.lines, ParseLimit(limitParam), openError, scanError);
      resp == if read.Err? then ServerError("Failed to get results: " + read.error)
              else JsonBody(ApiBody(read.value, formatRfc3339))
  {
    var limit := ParseLimit(limitParam);
    var results := store.GetLastResults(limit, openError, scanError);
    if results.Err? {
      return ServerError("Failed to get results: " + results.error);
    }
    var body := WriteApiBody(results.value, formatRfc3339);
    resp := JsonBody(body);
  }

  /** `handleDashboard`: the ten newest results, then the figures. */
  method HandleDashboard(store: Storage, formatTime: int -> string,
                         openError: Option<string>, scanError: Option<string>) returns (resp: Response)
    ensures var read := ReadLog(store.present, store.lines, DefaultLimit, openError, scanError);
      resp == if read.Err? then ServerError("Failed to get results: " + read.error)
              else DashboardPage(DashboardOf(read.value, formatTime))
  {
    var results := store.GetLastResults(DefaultLimit, openError, scanError);
    if results.Err? {
      return ServerError("Failed to get results: " + results.error);
    }
    var data := PrepareDashboardData(results.value, formatTime);
    resp := DashboardPage(data);
  }

  /** An API answer lists at most `limit` results, newest first, all of them read back from the log. */
  lemma ApiAnswerBounded(store: Storage, limitParam: string, openError: Option<string>, scanError: Option<string>)
    ensures var read := ReadLog(store.present, store.lines, ParseLimit(limitParam), openError, scanError);
      read.Ok? ==> |read.value| <= ParseLimit(limitParam) <= MaxLimit && NewestFirst(read.value)
                   && multiset(read.value) <= multiset(Kept(store.lines))
  {
    if store.present {
      LastResultsShape(store.lines, ParseLimit(limitParam));
    }
  }
}
