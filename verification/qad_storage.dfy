/**
 * The result log of the QA daemon (tools/amg-qad/internal/storage/storage.go):
 * one JSON record per line in `results.jsonl`, appended by `SaveResult` and
 * read back, filtered, sorted newest first and cut by `GetLastResults`.
 */
module QadStorage {
  import opened Wrappers
  import opened Strings

  /** One test of a suite. */
  datatype IndividualTest = IndividualTest(name: string, passed: bool, duration: string, logs: string)

  /** One stored run; `timestamp` is the instant of the run on a single time line. */
  datatype TestResult = TestResult(timestamp: int, passed: bool, duration: string, parameters: string,
                                   logs: string, tests: seq<IndividualTest>)

  /** One line of the log: a record `json.Unmarshal` accepts, or text it rejects. */
  datatype LogLine = Record(result: TestResult) | Unparsable(text: string)

  /** What a failing `SaveResult` tripped over. */
  datatype SaveFault = NoFault | OpenFault(openError: string) | WriteFault(writeError: string)

  const SuitePrefix: string := "test_suite_"

  /** Suites, and records that do not look like a single test, are read back. */
  predicate ReadBack(r: TestResult) {
    HasPrefix(r.parameters, SuitePrefix) || !Contains(r.parameters, "test")
  }

  /** The records the scanner loop keeps, in log order. */
  function Kept(lines: seq<LogLine>): (r: seq<TestResult>)
    ensures |r| <= |lines|
    decreases |lines|
  {
    if |lines| == 0 then []
    else
      var last := lines[|lines| - 1];
      Kept(lines[..|lines| - 1]) + (if last.Record? && ReadBack(last.result) then [last.result] else [])
  }

  /** A record is kept exactly when it parses and passes the filter. */
  lemma {:induction false} KeptIff(lines: seq<LogLine>)
    ensures forall r :: r in Kept(lines) <==> Record(r) in lines && ReadBack(r)
    decreases |lines|
  {
    if |lines| > 0 {
      KeptIff(lines[..|lines| - 1]);
      assert lines == lines[..|lines| - 1] + [lines[|lines| - 1]];
    }
  }

  /** Newest first: timestamps never increase along the list. */
  predicate NewestFirst(rs: seq<TestResult>) {
    forall i, j :: 0 <= i < j < |rs| ==> rs[i].timestamp >= rs[j].timestamp
  }

  /** Put `x` before the first record that is not newer than it. */
  function Insert(x: TestResult, rs: seq<TestResult>): (r: seq<TestResult>)
    ensures |r| == |rs| + 1
    ensures multiset(r) == multiset(rs) + multiset{x}
    decreases |rs|
  {
    if |rs| == 0 then [x]
    else if x.timestamp >= rs[0].timestamp then [x] + rs
    else
      assert rs == [rs[0]] + rs[1..];
      [rs[0]] + Insert(x, rs[1..])
  }

  lemma {:induction false} InsertNewestFirst(x: TestResult, rs: seq<TestResult>)
    requires NewestFirst(rs)
    ensures NewestFirst(Insert(x, rs))
    ensures |rs| > 0 ==> Insert(x, rs)[0].timestamp == if x.timestamp >= rs[0].timestamp then x.timestamp else rs[0].timestamp
    decreases |rs|
  {
    if |rs| > 0 && x.timestamp < rs[0].timestamp {
      InsertNewestFirst(x, rs[1..]);
      var t := Insert(x, rs[1..]);
      HeadAboveAll(rs[0], rs[1..], x, t);
      ConsNewestFirst(rs[0], t);
    }
  }

  /** A record no older than any of `rest` and than `x` is no older than any record of `t`, a permutation of `rest` plus `x`. */
  lemma HeadAboveAll(head: TestResult, rest: seq<TestResult>, x: TestResult, t: seq<TestResult>)
    requires multiset(t) == multiset(rest) + multiset{x}
    requires forall k :: 0 <= k < |rest| ==> rest[k].timestamp <= head.timestamp
    requires x.timestamp <= head.timestamp
    ensures forall j :: 0 <= j < |t| ==> t[j].timestamp <= head.timestamp
  {
    forall j | 0 <= j < |t|
      ensures t[j].timestamp <= head.timestamp
    {
      assert t[j] in multiset(t);
      if t[j] != x {
        assert t[j] in multiset(rest);
        var k :| 0 <= k < |rest| && rest[k] == t[j];
      }
    }
  }

  /** A newest-first list stays so behind a record no older than any of it. */
  lemma ConsNewestFirst(head: TestResult, t: seq<TestResult>)
    requires NewestFirst(t)
    requires forall j :: 0 <= j < |t| ==> t[j].timestamp <= head.timestamp
    ensures NewestFirst([head] + t)
  {
    var r := [head] + t;
    forall i, j | 0 <= i < j < |r|
      ensures r[i].timestamp >= r[j].timestamp
    {
      assert r[j] == t[j - 1];
      if i > 0 {
        assert r[i] == t[i - 1];
      }
    }
  }

  /**
   * The newest-first order `sort.Slice` produces. `sort.Slice` is not stable;
   * this insertion sort keeps records with equal timestamps in log order,
   * which is one of the orders it may produce.
   */
  function SortNewestFirst(rs: seq<TestResult>): (r: seq<TestResult>)
    ensures |r| == |rs|
    ensures multiset(r) == multiset(rs)
    decreases |rs|
  {
    if |rs| == 0 then []
    else
      assert rs == [rs[0]] + rs[1..];
      Insert(rs[0], SortNewestFirst(rs[1..]))
  }

  /** The sort orders newest first. */
  lemma {:induction false} SortNewestFirstOrders(rs: seq<TestResult>)
    ensures NewestFirst(SortNewestFirst(rs))
    decreases |rs|
  {
    if |rs| > 0 {
      SortNewestFirstOrders(rs[1..]);
      InsertNewestFirst(rs[0], SortNewestFirst(rs[1..]));
    }
  }

  /** `GetLastResults` on a log that can be read: the kept records, newest first, at most `limit` of them. */
  function LastResults(lines: seq<LogLine>, limit: int): (r: seq<TestResult>)
    requires limit >= 0
  {
    var sorted := SortNewestFirst(Kept(lines));
    if |sorted| > limit then sorted[..limit] else sorted
  }

  /**
   * The answer is a newest-first prefix of the kept records, as long as the
   * limit allows: its length is min(limit, kept), every element is a kept
   * record, and no kept record is counted twice.
   */
  lemma LastResultsShape(lines: seq<LogLine>, limit: int)
    requires limit >= 0
    ensures var r := LastResults(lines, limit);
      |r| == (if |Kept(lines)| < limit then |Kept(lines)| else limit)
      && NewestFirst(r)
      && multiset(r) <= multiset(Kept(lines))
      && r == SortNewestFirst(Kept(lines))[..|r|]
  {
    var sorted := SortNewestFirst(Kept(lines));
    SortNewestFirstOrders(Kept(lines));
    if |sorted| > limit {
      assert sorted == sorted[..limit] + sorted[limit..];
      assert multiset(sorted) == multiset(sorted[..limit]) + multiset(sorted[limit..]);
    } else {
      assert sorted[..|sorted|] == sorted;
    }
  }

  /** A kept record strictly newer than every other kept record comes first. */
  lemma NewestComesFirst(lines: seq<LogLine>, x: TestResult, limit: int)
    requires limit >= 1
    requires x in Kept(lines)
    requires forall y :: y in Kept(lines) && y != x ==> y.timestamp < x.timestamp
    ensures |LastResults(lines, limit)| > 0 && LastResults(lines, limit)[0] == x
  {
    var sorted := SortNewestFirst(Kept(lines));
    SortNewestFirstOrders(Kept(lines));
    SameMembers(sorted, Kept(lines));
    FirstIsNewest(sorted, x);
  }

  /** Lists with the same multiset have the same members. */
  lemma SameMembers<T>(a: seq<T>, b: seq<T>)
    requires multiset(a) == multiset(b)
    ensures forall y :: y in a <==> y in b
  {
    forall y
      ensures y in a <==> y in b
    {
      assert y in a <==> y in multiset(a);
      assert y in b <==> y in multiset(b);
    }
  }

  /** In a newest-first list, a record strictly newer than all others is at the head. */
  lemma FirstIsNewest(sorted: seq<TestResult>, x: TestResult)
    requires NewestFirst(sorted) && x in sorted
    requires forall y :: y in sorted && y != x ==> y.timestamp < x.timestamp
    ensures sorted[0] == x
  {
    var k :| 0 <= k < |sorted| && sorted[k] == x;
    assert sorted[0].timestamp >= x.timestamp;
  }

  /**
   * What `GetLastResults` answers: no log reads as no results; otherwise an
   * open or read failure is an error, and the answer is `LastResults`.
   */
  function ReadLog(present: bool, lines: seq<LogLine>, limit: int, openError: Option<string>,
                   scanError: Option<string>): Result<seq<TestResult>>
    requires limit >= 0
  {
    if !present then Ok([])
    else if openError.Some? then Err("failed to open results file: " + openError.value)
    else if scanError.Some? then Err("failed to read results file: " + scanError.value)
    else Ok(LastResults(lines, limit))
  }

  /**
   * `New`: the results directory is created first (`MkdirAll`, whose outcome
   * is `mkdir`); only then is there a store, over `existing` as its log.
   */
  method New(mkdir: Outcome, existing: Option<seq<LogLine>>) returns (r: Result<Storage>)
    ensures mkdir.Fail? ==> r == Err("failed to create results directory: " + mkdir.error)
    ensures mkdir.Pass? ==> r.Ok? && fresh(r.value) && r.value.present == existing.Some?
                            && r.value.lines == if existing.Some? then existing.value else []
  {
    if mkdir.Fail? {
      return Err("failed to create results directory: " + mkdir.error);
    }
    var store := new Storage(existing);
    return Ok(store);
  }

  /** The results log: the lines of `results.jsonl`, and whether the file exists. */
  class Storage {
    var lines: seq<LogLine>
    var present: bool

    /** The store `New` returns, over a results directory holding `existing` as its log (or no log yet). */
    constructor (existing: Option<seq<LogLine>>)
      ensures present == existing.Some?
      ensures lines == if existing.Some? then existing.value else []
    {
      present := existing.Some?;
      lines := if existing.Some? then existing.value else [];
    }

    /**
     * `SaveResult`: one record appended after every earlier line. The file is
     * created when missing; an open or write failure is reported and appends
     * nothing.
     */
    method SaveResult(result: TestResult, fault: SaveFault) returns (r: Outcome)
      modifies this
      ensures fault.NoFault? ==> r == Pass && lines == old(lines) + [Record(result)] && present
      ensures fault.OpenFault? ==>
        r == Fail("failed to open results file: " + fault.openError) && lines == old(lines) && present == old(present)
      ensures fault.WriteFault? ==>
        r == Fail("failed to write result: " + fault.writeError) && lines == old(lines) && present
    {
      if fault.OpenFault? {
        return Fail("failed to open results file: " + fault.openError);
      }
      present := true;
      if fault.WriteFault? {
        return Fail("failed to write result: " + fault.writeError);
      }
      lines := lines + [Record(result)];
      r := Pass;
    }

    /**
     * `GetLastResults`: the scanner loop, the sort and the cut. Go panics on
     * a negative limit, so callers pass none.
     */
    method GetLastResults(limit: int, openError: Option<string>, scanError: Option<string>)
      returns (r: Result<seq<TestResult>>)
      requires limit >= 0
      ensures r == ReadLog(present, lines, limit, openError, scanError)
    {
      if !present {
        return Ok([]);
      }
      if openError.Some? {
        return Err("failed to open results file: " + openError.value);
      }
      var results: seq<TestResult> := [];
      var i := 0;
      while i < |lines|
        invariant 0 <= i <= |lines|
        invariant results == Kept(lines[..i])
      {
        assert lines[..i + 1][..i] == lines[..i];
        var line := lines[i];
        if line.Record? && (HasPrefix(line.result.parameters, SuitePrefix) || !Contains(line.result.parameters, "test")) {
          results := results + [line.result];
        }
        i := i + 1;
      }
      PrefixAll(lines);
      if scanError.Some? {
        return Err("failed to read results file: " + scanError.value);
      }
      results := SortNewestFirst(results);
      if |results| > limit {
        results := results[..limit];
      }
      r := Ok(results);
    }
  }

  /** A suite saved after every other kept record, and newer than all of them, is the first result read back. */
  lemma SavedSuiteFirst(lines: seq<LogLine>, x: TestResult, limit: int)
    requires limit >= 1
    requires HasPrefix(x.parameters, SuitePrefix)
    requires forall y :: y in Kept(lines) ==> y.timestamp < x.timestamp
    ensures |LastResults(lines + [Record(x)], limit)| > 0 && LastResults(lines + [Record(x)], limit)[0] == x
  {
    var all := lines + [Record(x)];
    assert all[..|all| - 1] == lines;
    assert Kept(all) == Kept(lines) + [x];
    forall y | y in Kept(all) && y != x
      ensures y.timestamp < x.timestamp
    {
      assert y in Kept(lines);
    }
    NewestComesFirst(all, x, limit);
  }
}
