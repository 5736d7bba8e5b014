/**
 * The testing tools: running a test command, filing and verifying bug
 * reports, and listing saved test runs. The shell, the file system, JSON
 * decoding and the clock are parameters.
 */
module Testing {
  import opened Wrappers
  import opened GoStrings
  import opened FilePath
  import opened ProviderTypes
  import Tools

  // ---------------------------------------------------------------------
  // run_tests

  const DefaultTestCommand := "go test ./..."
  const DefaultTestTimeout := 300

  /** Whether `args[key]` is the boolean true. */
  predicate Flag(args: map<string, Json>, key: string) {
    key in args && args[key] == JBool(true)
  }

  /** The command before the verbose rewrite: the command argument (or the default) and a `-run` filter. */
  function BaseTestCommand(args: map<string, Json>): (c: string)
    ensures Tools.ArgRequired(args, "pattern").None? ==> c == Tools.ArgStringOr(args, "command", DefaultTestCommand)
    ensures Tools.ArgRequired(args, "pattern").Some? ==>
      c == Tools.ArgStringOr(args, "command", DefaultTestCommand) + " -run '" + args["pattern"].s + "'"
  {
    var command := Tools.ArgStringOr(args, "command", DefaultTestCommand);
    match Tools.ArgRequired(args, "pattern")
    case Some(p) => command + " -run '" + p + "'"
    case None => command
  }

  /** The command `run_tests` hands to `sh -c`. */
  function TestCommandOf(args: map<string, Json>): string {
    var base := BaseTestCommand(args);
    if Flag(args, "verbose") && Contains(base, "go test") then ReplaceFirst(base, "go test", "go test -v") else base
  }

  /** `run_tests` builds its command step by step. */
  method TestCommand(args: map<string, Json>) returns (command: string)
    ensures command == TestCommandOf(args)
  {
    command := DefaultTestCommand;
    if Tools.ArgString(args, "command").Some? {
      command := args["command"].s;
    }
    if Tools.ArgString(args, "pattern").Some? && args["pattern"].s != "" {
      command := command + " -run '" + args["pattern"].s + "'";
    }
    if Flag(args, "verbose") {
      if Contains(command, "go test") {
        command := ReplaceFirst(command, "go test", "go test -v");
      }
    }
  }

  /**
   * Verbose mode rewrites only the first "go test", into "go test -v", and
   * leaves a command without "go test" as it is.
   */
  lemma VerboseRewritesFirstGoTest(args: map<string, Json>)
    ensures var base := BaseTestCommand(args);
      !Flag(args, "verbose") || !Contains(base, "go test") ==> TestCommandOf(args) == base
    ensures var base := BaseTestCommand(args);
      var i := Index(base, "go test");
      Flag(args, "verbose") && Contains(base, "go test") ==>
        && 0 <= i && i + 7 <= |base|
        && TestCommandOf(args) == base[..i] + "go test -v" + base[i + 7..]
        && !Contains(base[..i], "go test")
  {
    var base := BaseTestCommand(args);
    if Contains(base, "go test") {
      ReplaceFirstOccurrence(base, "go test", "go test -v");
    }
  }

  /** The whole test suite runs by default. */
  lemma DefaultRunsEverything()
    ensures TestCommandOf(map[]) == DefaultTestCommand
  {
  }

  /** The timeout in seconds: 300 unless given. */
  function TestTimeout(args: map<string, Json>): (secs: int)
    ensures Tools.ArgNumber(args, "timeout").None? ==> secs == DefaultTestTimeout
    ensures Tools.ArgNumber(args, "timeout").Some? ==> secs == Tools.ArgNumber(args, "timeout").value
  {
    Tools.ArgNumber(args, "timeout").GetOr(DefaultTestTimeout)
  }

  /** How the shell run ended: an exit status, or an error that is not one (a timeout, no shell). */
  datatype RunError = ExitError(code: int) | OtherError

  /** What running `sh -c command` with a timeout gives. */
  datatype ShellRun = ShellRun(err: Option<RunError>, stdout: string, stderr: string)

  type Shell = (string, int) -> ShellRun

  /** One decoded line of `go test -json` output. */
  datatype TestResult = TestResult(id: string, suite: string, name: string, status: string,
                                   durationMs: real, error: string, output: string, timestamp: int)

  /** The lines of the output that start with "{" and decode. */
  function TestResultsOf(lines: seq<string>, decode: string -> Option<TestResult>): (r: seq<TestResult>)
    ensures |r| <= |lines|
  {
    if lines == [] then []
    else
      var init := TestResultsOf(lines[..|lines| - 1], decode);
      var line := lines[|lines| - 1];
      if HasPrefix(line, "{") && decode(line).Some? then init + [decode(line).value] else init
  }

  /** Every result is the decoding of one line that starts with "{". */
  lemma {:induction false} TestResultsFromLines(lines: seq<string>, decode: string -> Option<TestResult>)
    ensures forall t :: t in TestResultsOf(lines, decode) ==>
      exists i :: 0 <= i < |lines| && HasPrefix(lines[i], "{") && decode(lines[i]) == Some(t)
  {
    if lines != [] {
      var init := lines[..|lines| - 1];
      TestResultsFromLines(init, decode);
      forall t | t in TestResultsOf(lines, decode)
        ensures exists i :: 0 <= i < |lines| && HasPrefix(lines[i], "{") && decode(lines[i]) == Some(t)
      {
        if t in TestResultsOf(init, decode) {
          var i :| 0 <= i < |init| && HasPrefix(init[i], "{") && decode(init[i]) == Some(t);
          assert lines[i] == init[i];
        } else {
          assert decode(lines[|lines| - 1]) == Some(t);
        }
      }
    }
  }

  /** The JSON-parsing loop of `run_tests`. */
  method ParseTestResults(output: string, decode: string -> Option<TestResult>) returns (results: seq<TestResult>)
    ensures results == TestResultsOf(Split(output, '\n'), decode)
  {
    var lines := Split(output, '\n');
    results := [];
    for i := 0 to |lines|
      invariant results == TestResultsOf(lines[..i], decode)
    {
      assert lines[..i + 1][..i] == lines[..i];
      if HasPrefix(lines[i], "{") {
        var tr := decode(lines[i]);
        if tr.Some? {
          results := results + [tr.value];
        }
      }
    }
    assert lines[..|lines|] == lines;
  }

  /** The map `run_tests` returns, field by field; absent fields are `None`. */
  datatype TestRun = TestRun(
    command: string,
    durationMs: int,
    output: string,
    passed: bool,
    exitCode: Option<int>,
    error: Option<string>,
    results: Option<seq<TestResult>>,
    artifactPath: Option<string>)

  /** Where a run is saved: `tests/test-run-<stamp>.json` under the artifact directory. */
  function TestRunPath(artifactPath: string, stamp: string): string {
    JoinAll([artifactPath, "tests", "test-run-" + stamp + ".json"])
  }

  /**
   * `RunTestsTool.Execute`. `durationMs` is the measured run time and `stamp`
   * the time as "2006-01-02-150405"; saving the run is best effort.
   */
  method RunTests(args: map<string, Json>, sh: Shell, decode: string -> Option<TestResult>, artifactPath: string,
                  durationMs: int, stamp: string)
    returns (r: TestRun)
    ensures r.command == TestCommandOf(args)
    ensures var run := sh(TestCommandOf(args), TestTimeout(args));
      && r.passed == run.err.None?
      && r.output == (if run.stdout == "" then run.stderr else run.stdout)
      && (r.error.Some? <==> run.err.Some?)
      && (r.error.Some? ==> r.error.value == run.stderr)
      && (r.exitCode.Some? <==> run.err.Some? && run.err.value.ExitError?)
      && (r.exitCode.Some? ==> r.exitCode.value == run.err.value.code)
    ensures !Contains(r.command, "-json") ==> r.results.None?
    ensures r.results.Some? ==> r.results.value == TestResultsOf(Split(r.output, '\n'), decode) && r.results.value != []
    ensures Contains(r.command, "-json") && TestResultsOf(Split(r.output, '\n'), decode) != [] ==> r.results.Some?
    ensures r.artifactPath.Some? <==> artifactPath != ""
    ensures r.artifactPath.Some? ==> r.artifactPath.value == TestRunPath(artifactPath, stamp)
    ensures r.durationMs == durationMs
  {
    var command := TestCommand(args);
    var timeout := TestTimeout(args);
    var run := sh(command, timeout);
    var output := run.stdout;
    if output == "" {
      output := run.stderr;
    }
    r := TestRun(command, durationMs, output, run.err.None?, None, None, None, None);
    if run.err.Some? {
      if run.err.value.ExitError? {
        r := r.(exitCode := Some(run.err.value.code));
      }
      r := r.(error := Some(run.stderr));
    }
    if Contains(command, "-json") {
      var testResults := ParseTestResults(output, decode);
      if |testResults| > 0 {
        r := r.(results := Some(testResults));
      }
    }
    if artifactPath != "" {
      r := r.(artifactPath := Some(TestRunPath(artifactPath, stamp)));
    }
  }

  // ---------------------------------------------------------------------
  // create_bug_report and verify_fix

  datatype BugReport = BugReport(
    id: string,
    title: string,
    description: string,
    severity: string,
    status: string,
    reportedBy: string,
    steps: seq<string>,
    expected: string,
    actual: string,
    environment: map<string, Json>,
    createdAt: int,
    updatedAt: int,
    relatedTask: string)

  /** The file of a bug report: `bugs/<id>.json` under the artifact directory. */
  function BugPath(artifactPath: string, id: string): string {
    JoinAll([artifactPath, "bugs", id + ".json"])
  }

  /** The report `create_bug_report` files; `unix` is the time in seconds, `now` the instant. */
  function BugDraft(args: map<string, Json>, reportedBy: string, unix: int, now: int): (r: Result<BugReport, string>)
    ensures Tools.ArgRequired(args, "title").None? ==> r == Err("title is required")
    ensures Tools.ArgRequired(args, "title").Some? && Tools.ArgRequired(args, "description").None? ==>
      r == Err("description is required")
    ensures r.Ok? ==> && r.value.status == "open" && r.value.id == "BUG-" + FormatInt(unix)
                      && r.value.severity == Tools.ArgStringOr(args, "severity", "medium")
                      && r.value.reportedBy == reportedBy && r.value.createdAt == now && r.value.updatedAt == now
  {
    match Tools.ArgRequired(args, "title")
    case None => Err("title is required")
    case Some(title) =>
      match Tools.ArgRequired(args, "description")
      case None => Err("description is required")
      case Some(description) =>
        Ok(BugReport("BUG-" + FormatInt(unix), title, description, Tools.ArgStringOr(args, "severity", "medium"), "open",
                     reportedBy, Tools.StringsArg(args, "steps"), Tools.ArgStringOr(args, "expected", ""), Tools.ArgStringOr(args, "actual", ""),
                     if "environment" in args && args["environment"].JObj? then args["environment"].fields else map[],
                     now, now, Tools.ArgStringOr(args, "related_task", "")))
  }

  /** The map `create_bug_report` returns. */
  function BugJson(bug: BugReport, path: string): Json {
    JObj(map["id" := JStr(bug.id), "title" := JStr(bug.title), "severity" := JStr(bug.severity),
             "status" := JStr(bug.status), "path" := JStr(path), "reported_by" := JStr(bug.reportedBy)])
  }

  /** `create_bug_report`: `write` gives the error of saving the report as JSON at the path. */
  function BugReportOutcome(args: map<string, Json>, reportedBy: string, artifactPath: string, unix: int, now: int,
                            write: (string, BugReport) -> Option<string>): Result<Json, string>
  {
    match BugDraft(args, reportedBy, unix, now)
    case Err(e) => Err(e)
    case Ok(bug) =>
      var path := BugPath(artifactPath, bug.id);
      match write(path, bug)
      case Some(e) => Err("save bug report: " + e)
      case None => Ok(BugJson(bug, path))
  }

  /** `CreateBugReportTool.Execute`, collecting the steps in a loop. */
  method CreateBugReport(args: map<string, Json>, reportedBy: string, artifactPath: string, unix: int, now: int,
                         write: (string, BugReport) -> Option<string>) returns (r: Result<Json, string>)
    ensures r == BugReportOutcome(args, reportedBy, artifactPath, unix, now, write)
  {
    var title := Tools.ArgRequired(args, "title");
    if title.None? {
      return Err("title is required");
    }
    var description := Tools.ArgRequired(args, "description");
    if description.None? {
      return Err("description is required");
    }
    var bug := BugReport("BUG-" + FormatInt(unix), title.value, description.value, "medium", "open", reportedBy,
                         [], "", "", map[], now, now, "");
    bug := bug.(severity := Tools.ArgStringOr(args, "severity", bug.severity));
    bug := bug.(expected := Tools.ArgStringOr(args, "expected", bug.expected));
    bug := bug.(actual := Tools.ArgStringOr(args, "actual", bug.actual));
    if "steps" in args && args["steps"].JArr? {
      var steps := Tools.CollectStrings(args["steps"].items);
      bug := bug.(steps := steps);
    }
    if "environment" in args && args["environment"].JObj? {
      bug := bug.(environment := args["environment"].fields);
    }
    bug := bug.(relatedTask := Tools.ArgStringOr(args, "related_task", bug.relatedTask));
    var path := BugPath(artifactPath, bug.id);
    var err := write(path, bug);
    if err.Some? {
      return Err("save bug report: " + err.value);
    }
    return Ok(BugJson(bug, path));
  }

  /** A filed report is open, medium unless a severity is given, lists only string steps, and is saved under its ID. */
  lemma BugReportDefaults(args: map<string, Json>, reportedBy: string, artifactPath: string, unix: int, now: int,
                          write: (string, BugReport) -> Option<string>)
    requires BugReportOutcome(args, reportedBy, artifactPath, unix, now, write).Ok?
    ensures var bug := BugDraft(args, reportedBy, unix, now).value;
      && bug.status == "open"
      && (Tools.ArgString(args, "severity").None? ==> bug.severity == "medium")
      && (forall s :: s in bug.steps ==> "steps" in args && args["steps"].JArr? && JStr(s) in args["steps"].items)
      && write(BugPath(artifactPath, "BUG-" + FormatInt(unix)), bug).None?
      && BugReportOutcome(args, reportedBy, artifactPath, unix, now, write) == Ok(BugJson(bug, BugPath(artifactPath, bug.id)))
  {
    if "steps" in args && args["steps"].JArr? {
      Tools.StringItemsMembership(args["steps"].items);
    }
  }

  /** The status `verify_fix` gives a bug. */
  function VerifiedStatus(verified: bool): (s: string)
    ensures s == "verified" <==> verified
    ensures s == "open" <==> !verified
  {
    if verified then "verified" else "open"
  }

  /** What `verify_fix` writes back, and where, before it writes. */
  datatype BugWrite = BugWrite(path: string, bug: BugReport)

  /**
   * `verify_fix` up to the write: the bug is read, its status set and its stamp
   * refreshed. `read` gives the file's bytes, `decode` the report in them.
   */
  function VerifyFixPlan(args: map<string, Json>, artifactPath: string, now: int,
                         read: string -> Option<string>, decode: string -> Result<BugReport, string>): (r: Result<BugWrite, string>)
    ensures Tools.ArgRequired(args, "bug_id").None? ==> r == Err("bug_id is required")
    ensures Tools.ArgRequired(args, "bug_id").Some? && !("verified" in args && args["verified"].JBool?) ==>
      r == Err("verified is required (true/false)")
    ensures (Tools.ArgRequired(args, "bug_id").Some? && "verified" in args && args["verified"].JBool? &&
             read(BugPath(artifactPath, args["bug_id"].s)).None?) ==> r == Err("bug not found: " + args["bug_id"].s)
  {
    match Tools.ArgRequired(args, "bug_id")
    case None => Err("bug_id is required")
    case Some(bugId) =>
      if !("verified" in args && args["verified"].JBool?) then Err("verified is required (true/false)")
      else
        var path := BugPath(artifactPath, bugId);
        match read(path)
        case None => Err("bug not found: " + bugId)
        case Some(data) =>
          match decode(data)
          case Err(e) => Err("parse bug report: " + e)
          case Ok(bug) => Ok(BugWrite(path, bug.(status := VerifiedStatus(args["verified"].b), updatedAt := now)))
  }

  /**
   * The read-modify-write of `verify_fix` changes only the status, to "verified"
   * exactly when the fix is confirmed and to "open" otherwise, and the stamp.
   */
  lemma VerifyFixChangesOnlyStatus(args: map<string, Json>, artifactPath: string, now: int,
                                   read: string -> Option<string>, decode: string -> Result<BugReport, string>)
    requires VerifyFixPlan(args, artifactPath, now, read, decode).Ok?
    ensures var w := VerifyFixPlan(args, artifactPath, now, read, decode).value;
      var old_ := decode(read(w.path).value);
      && w.path == BugPath(artifactPath, args["bug_id"].s)
      && old_.Ok?
      && w.bug == old_.value.(status := w.bug.status, updatedAt := now)
      && (w.bug.status == "verified" <==> args["verified"].b)
      && (w.bug.status == "open" <==> !args["verified"].b)
  {
  }

  /** `VerifyFixTool.Execute`: `write` gives the error of saving the report back. */
  function VerifyFix(args: map<string, Json>, artifactPath: string, verifiedBy: string, now: int,
                     read: string -> Option<string>, decode: string -> Result<BugReport, string>,
                     write: BugWrite -> Option<string>): (r: Result<Json, string>)
    ensures VerifyFixPlan(args, artifactPath, now, read, decode).Err? ==>
      r == Err(VerifyFixPlan(args, artifactPath, now, read, decode).error)
    ensures r.Ok? ==> write(VerifyFixPlan(args, artifactPath, now, read, decode).value).None?
  {
    match VerifyFixPlan(args, artifactPath, now, read, decode)
    case Err(e) => Err(e)
    case Ok(w) =>
      match write(w)
      case Some(e) => Err("save bug report: " + e)
      case None =>
        Ok(JObj(map["bug_id" := JStr(w.bug.id), "status" := JStr(w.bug.status), "verified" := args["verified"],
                    "verified_by" := JStr(verifiedBy), "notes" := JStr(Tools.ArgStringOr(args, "notes", ""))]))
  }

  // ---------------------------------------------------------------------
  // list_test_results

  datatype DirEntry = DirEntry(name: string, isDir: bool)

  /** Why `os.ReadDir` failed. */
  datatype ReadDirError = NotExist | Failed(msg: string)

  /** A file that reads and decodes to a JSON object gives that object. */
  type LoadJson = string -> Option<map<string, Json>>

  /** The object a usable entry contributes: its decoded contents with its file name added. */
  function Loaded(testsDir: string, e: DirEntry, load: LoadJson): Option<map<string, Json>> {
    if e.isDir then None
    else match load(JoinAll([testsDir, e.name]))
      case None => None
      case Some(m) => Some(m["filename" := JStr(e.name)])
  }

  /** The newest `limit` usable entries, newest first: entries are walked from the last. */
  function Picked(testsDir: string, es: seq<DirEntry>, limit: int, load: LoadJson): (r: seq<map<string, Json>>)
    decreases |es|
  {
    if es == [] || limit <= 0 then []
    else
      var last := es[|es| - 1];
      match Loaded(testsDir, last, load)
      case Some(m) => [m] + Picked(testsDir, es[..|es| - 1], limit - 1, load)
      case None => Picked(testsDir, es[..|es| - 1], limit, load)
  }

  /** The number of entries that would be picked with no limit. */
  function UsableCount(testsDir: string, es: seq<DirEntry>, load: LoadJson): nat {
    if es == [] then 0
    else UsableCount(testsDir, es[..|es| - 1], load) + (if Loaded(testsDir, es[|es| - 1], load).Some? then 1 else 0)
  }

  function Min(a: int, b: int): int {
    if a < b then a else b
  }

  /** The listing stops at the limit: it holds the limit's number of results, or every usable one if there are fewer. */
  lemma {:induction false} PickedCount(testsDir: string, es: seq<DirEntry>, limit: int, load: LoadJson)
    ensures |Picked(testsDir, es, limit, load)| == Min(if limit < 0 then 0 else limit, UsableCount(testsDir, es, load))
    decreases |es|
  {
    if es != [] && limit > 0 {
      var last := es[|es| - 1];
      match Loaded(testsDir, last, load)
      case Some(m) => PickedCount(testsDir, es[..|es| - 1], limit - 1, load);
      case None => PickedCount(testsDir, es[..|es| - 1], limit, load);
    }
  }

  /** Every result comes from a file entry that loaded, named in its "filename" field. */
  lemma {:induction false} PickedFromFiles(testsDir: string, es: seq<DirEntry>, limit: int, load: LoadJson)
    ensures forall m :: m in Picked(testsDir, es, limit, load) ==>
      exists i :: 0 <= i < |es| && !es[i].isDir && Loaded(testsDir, es[i], load) == Some(m)
        && "filename" in m && m["filename"] == JStr(es[i].name)
    decreases |es|
  {
    if es != [] && limit > 0 {
      var init := es[..|es| - 1];
      var last := es[|es| - 1];
      var lim := if Loaded(testsDir, last, load).Some? then limit - 1 else limit;
      PickedFromFiles(testsDir, init, lim, load);
      forall m | m in Picked(testsDir, es, limit, load)
        ensures exists i :: (0 <= i < |es| && !es[i].isDir && Loaded(testsDir, es[i], load) == Some(m)
          && "filename" in m && m["filename"] == JStr(es[i].name))
      {
        if m in Picked(testsDir, init, lim, load) {
          var i :| 0 <= i < |init| && !init[i].isDir && Loaded(testsDir, init[i], load) == Some(m)
            && "filename" in m && m["filename"] == JStr(init[i].name);
          assert es[i] == init[i];
        } else {
          assert Loaded(testsDir, last, load) == Some(m);
        }
      }
    }
  }

  /** The walk over the first `n` entries, by position. */
  function PickedTo(testsDir: string, es: seq<DirEntry>, n: nat, k: int, load: LoadJson): seq<map<string, Json>>
    requires n <= |es|
    decreases n
  {
    if n == 0 || k <= 0 then []
    else match Loaded(testsDir, es[n - 1], load)
      case Some(m) => [m] + PickedTo(testsDir, es, n - 1, k - 1, load)
      case None => PickedTo(testsDir, es, n - 1, k, load)
  }

  lemma {:induction false} PickedToPrefix(testsDir: string, es: seq<DirEntry>, n: nat, k: int, load: LoadJson)
    requires n <= |es|
    ensures PickedTo(testsDir, es, n, k, load) == Picked(testsDir, es[..n], k, load)
    decreases n
  {
    if n > 0 && k > 0 {
      assert es[..n][..n - 1] == es[..n - 1];
      assert es[..n][n - 1] == es[n - 1];
      PickedToPrefix(testsDir, es, n - 1, k - 1, load);
      PickedToPrefix(testsDir, es, n - 1, k, load);
    }
  }

  /** The reverse walk of `list_test_results`, newest entry first, until the limit is reached. */
  method PickResults(testsDir: string, es: seq<DirEntry>, limit: int, load: LoadJson) returns (results: seq<map<string, Json>>)
    ensures results == Picked(testsDir, es, limit, load)
  {
    results := [];
    var i := |es| - 1;
    while i >= 0 && |results| < limit
      invariant -1 <= i < |es|
      invariant results + PickedTo(testsDir, es, i + 1, limit - |results|, load) == PickedTo(testsDir, es, |es|, limit, load)
      decreases i
    {
      var entry := es[i];
      ghost var k := limit - |results|;
      if entry.isDir {
        assert PickedTo(testsDir, es, i + 1, k, load) == PickedTo(testsDir, es, i, k, load);
        i := i - 1;
        continue;
      }
      var data := load(JoinAll([testsDir, entry.name]));
      if data.None? {
        assert PickedTo(testsDir, es, i + 1, k, load) == PickedTo(testsDir, es, i, k, load);
        i := i - 1;
        continue;
      }
      var m := data.value["filename" := JStr(entry.name)];
      assert PickedTo(testsDir, es, i + 1, k, load) == [m] + PickedTo(testsDir, es, i, k - 1, load);
      assert (results + [m]) + PickedTo(testsDir, es, i, k - 1, load) == results + ([m] + PickedTo(testsDir, es, i, k - 1, load));
      results := results + [m];
      i := i - 1;
    }
    assert PickedTo(testsDir, es, i + 1, limit - |results|, load) == [];
    PickedToPrefix(testsDir, es, |es|, limit, load);
    assert es[..|es|] == es;
  }

  datatype ResultList = ResultList(results: seq<map<string, Json>>, count: int)

  /** `ListTestResultsTool.Execute`: `readDir` lists the tests directory. */
  method ListTestResults(args: map<string, Json>, artifactPath: string,
                         readDir: string -> Result<seq<DirEntry>, ReadDirError>, load: LoadJson)
    returns (r: Result<ResultList, string>)
    ensures var testsDir := JoinAll([artifactPath, "tests"]);
      match readDir(testsDir)
      case Err(NotExist) => r == Ok(ResultList([], 0))
      case Err(Failed(msg)) => r == Err("read tests directory: " + msg)
      case Ok(es) => r == Ok(ResultList(Picked(testsDir, es, Tools.ArgNumber(args, "limit").GetOr(10), load),
                                        |Picked(testsDir, es, Tools.ArgNumber(args, "limit").GetOr(10), load)|))
  {
    var testsDir := JoinAll([artifactPath, "tests"]);
    var entries := readDir(testsDir);
    if entries.Err? {
      if entries.error.NotExist? {
        return Ok(ResultList([], 0));
      }
      return Err("read tests directory: " + entries.error.msg);
    }
    var es := entries.value;
    var limit := 10;
    if Tools.ArgNumber(args, "limit").Some? {
      limit := Tools.ArgNumber(args, "limit").value;
    }
    var results := PickResults(testsDir, es, limit, load);
    assert limit == Tools.ArgNumber(args, "limit").GetOr(10);
    r := Ok(ResultList(results, |results|));
  }
}
