/**
 * The git tools: which git commands they run and what they make of the
 * output. Running git is a parameter (`GitRunner`, from the argument list
 * to the process's error, stdout and stderr), always in the tool's working
 * directory.
 */
module Git {
  import opened Wrappers
  import opened GoStrings
  import opened ProviderTypes
  import Tools

  /** What one run of git gives: the error of `cmd.Run`, stdout and stderr. */
  datatype Run = Run(err: Option<string>, stdout: string, stderr: string)

  type GitRunner = seq<string> -> Run

  /** The lines of the trimmed output. */
  function OutputLines(out: string): seq<string> {
    Split(TrimSpace(out), '\n')
  }

  // ---------------------------------------------------------------------
  // git_status

  datatype Bucket = Modified | Added | Deleted | Untracked

  /** The first rule that matches the two status columns. */
  function BucketOf(x: char, y: char): (b: Option<Bucket>)
    ensures b == Some(Modified) <==> x == 'M' || y == 'M'
    ensures b == Some(Added) <==> x == 'A' && y != 'M'
    ensures b == Some(Deleted) <==> x != 'M' && y != 'M' && x != 'A' && (x == 'D' || y == 'D')
    ensures b == Some(Untracked) <==> x == '?' && y == '?'
  {
    if x == 'M' || y == 'M' then Some(Modified)
    else if x == 'A' then Some(Added)
    else if x == 'D' || y == 'D' then Some(Deleted)
    else if [x, y] == "??" then Some(Untracked)
    else None
  }

  /** The branch a "## " line names: the text before the first "...". */
  function BeforeDots(s: string): (r: string)
    ensures Index(s, "...") < 0 ==> r == s
    ensures Index(s, "...") >= 0 ==> |r| <= |s| && s == r + s[|r|..] && HasPrefix(s[|r|..], "...") && !Contains(r, "...")
  {
    var i := Index(s, "...");
    if i < 0 then s
    else
      assert At(s, "...", i);
      NoEarlierOccurrence(s, "...", i);
      s[..i]
  }

  predicate IsBranchLine(line: string) {
    |line| >= 3 && HasPrefix(line, "##")
  }

  /** The bucket and file of a status line, if it has one. */
  function Entry(line: string): Option<(Bucket, string)> {
    if |line| < 3 || HasPrefix(line, "##") then None
    else match BucketOf(line[0], line[1])
      case None => None
      case Some(b) => Some((b, TrimSpace(line[3..])))
  }

  /** The files of the lines that land in bucket `b`, in order. */
  function FilesIn(lines: seq<string>, b: Bucket): (r: seq<string>)
    ensures |r| <= |lines|
  {
    if lines == [] then []
    else
      var init := FilesIn(lines[..|lines| - 1], b);
      match Entry(lines[|lines| - 1])
      case Some((b', f)) => if b' == b then init + [f] else init
      case None => init
  }

  /** The branch of the last "##" line, "" when there is none. */
  function BranchOf(lines: seq<string>): string {
    if lines == [] then ""
    else if IsBranchLine(lines[|lines| - 1]) then BeforeDots(lines[|lines| - 1][3..])
    else BranchOf(lines[..|lines| - 1])
  }

  datatype Status = Status(branch: string, modified: seq<string>, added: seq<string>, deleted: seq<string>,
                           untracked: seq<string>, clean: bool)

  /** The report `git status --porcelain -b` output makes. */
  function StatusOf(out: string): Status {
    var lines := OutputLines(out);
    var m, a, d, u := FilesIn(lines, Modified), FilesIn(lines, Added), FilesIn(lines, Deleted), FilesIn(lines, Untracked);
    Status(BranchOf(lines), m, a, d, u, m == [] && a == [] && d == [] && u == [])
  }

  /** The `switch` on the two status columns. */
  method Classify(x: char, y: char) returns (b: Option<Bucket>)
    ensures b == BucketOf(x, y)
  {
    if x == 'M' || y == 'M' {
      b := Some(Modified);
    } else if x == 'A' {
      b := Some(Added);
    } else if x == 'D' || y == 'D' {
      b := Some(Deleted);
    } else if [x, y] == "??" {
      b := Some(Untracked);
    } else {
      b := None;
    }
  }

  /** The parsing loop of `GitStatusTool`. */
  method ParseStatus(out: string) returns (st: Status)
    ensures st == StatusOf(out)
  {
    var lines := OutputLines(out);
    var branch := "";
    var modified, added, deleted, untracked := [], [], [], [];
    for i := 0 to |lines|
      invariant branch == BranchOf(lines[..i])
      invariant modified == FilesIn(lines[..i], Modified) && added == FilesIn(lines[..i], Added)
      invariant deleted == FilesIn(lines[..i], Deleted) && untracked == FilesIn(lines[..i], Untracked)
    {
      var line := lines[i];
      BranchStep(lines, i);
      BucketStep(lines, i, Modified);
      BucketStep(lines, i, Added);
      BucketStep(lines, i, Deleted);
      BucketStep(lines, i, Untracked);
      if |line| < 3 {
        continue;
      }
      if HasPrefix(line, "##") {
        branch := BeforeDots(line[3..]);
        continue;
      }
      var file := TrimSpace(line[3..]);
      var bucket := Classify(line[0], line[1]);
      match bucket
      case Some(Modified) => modified := modified + [file];
      case Some(Added) => added := added + [file];
      case Some(Deleted) => deleted := deleted + [file];
      case Some(Untracked) => untracked := untracked + [file];
      case None =>
    }
    assert lines[..|lines|] == lines;
    st := Status(branch, modified, added, deleted, untracked,
                 |modified| == 0 && |added| == 0 && |deleted| == 0 && |untracked| == 0);
  }

  /** What one more line adds to the branch. */
  lemma BranchStep(lines: seq<string>, i: int)
    requires 0 <= i < |lines|
    ensures BranchOf(lines[..i + 1]) == if IsBranchLine(lines[i]) then BeforeDots(lines[i][3..]) else BranchOf(lines[..i])
  {
    assert lines[..i + 1][..i] == lines[..i];
    assert lines[..i + 1][i] == lines[i];
  }

  /** What one more line adds to bucket `b`. */
  lemma BucketStep(lines: seq<string>, i: int, b: Bucket)
    requires 0 <= i < |lines|
    ensures Entry(lines[i]).Some? && Entry(lines[i]).value.0 == b ==>
      FilesIn(lines[..i + 1], b) == FilesIn(lines[..i], b) + [Entry(lines[i]).value.1]
    ensures Entry(lines[i]).None? || Entry(lines[i]).value.0 != b ==>
      FilesIn(lines[..i + 1], b) == FilesIn(lines[..i], b)
  {
    assert lines[..i + 1][..i] == lines[..i];
    assert lines[..i + 1][i] == lines[i];
  }

  /** The number of lines that land in some bucket. */
  function EntryCount(lines: seq<string>): (n: nat)
    ensures n <= |lines|
  {
    if lines == [] then 0
    else EntryCount(lines[..|lines| - 1]) + (if Entry(lines[|lines| - 1]).Some? then 1 else 0)
  }

  /** Every line lands in at most one bucket: the four lists together hold one file per entry line. */
  lemma {:induction false} BucketsPartition(lines: seq<string>)
    ensures |FilesIn(lines, Modified)| + |FilesIn(lines, Added)| + |FilesIn(lines, Deleted)| + |FilesIn(lines, Untracked)|
      == EntryCount(lines)
  {
    if lines != [] {
      BucketsPartition(lines[..|lines| - 1]);
    }
  }

  /** No bucket holds anything exactly when no line is an entry line. */
  lemma {:induction false} EmptyBucketsNoEntries(lines: seq<string>)
    ensures EntryCount(lines) == 0 <==> forall i :: 0 <= i < |lines| ==> Entry(lines[i]).None?
  {
    if lines != [] {
      var init := lines[..|lines| - 1];
      EmptyBucketsNoEntries(init);
      assert forall i :: 0 <= i < |init| ==> init[i] == lines[i];
    }
  }

  /** The status is clean exactly when no line of the output is a change of one of the four kinds. */
  lemma CleanIffNoChanges(out: string)
    ensures StatusOf(out).clean <==> forall i :: 0 <= i < |OutputLines(out)| ==> Entry(OutputLines(out)[i]).None?
  {
    BucketsPartition(OutputLines(out));
    EmptyBucketsNoEntries(OutputLines(out));
  }

  /** First match wins: "MM" and "AM" are modified, "AD" is added, "?? " untracked, "R " nothing. */
  lemma BucketExamples()
    ensures BucketOf('A', 'M') == Some(Modified) && BucketOf('A', 'D') == Some(Added)
    ensures BucketOf(' ', 'D') == Some(Deleted) && BucketOf('?', '?') == Some(Untracked)
    ensures BucketOf('R', ' ') == None
  {
  }

  /** `GitStatusTool.Execute`. */
  method GitStatus(git: GitRunner) returns (r: Result<Status, string>)
    ensures var run := git(["status", "--porcelain", "-b"]);
      && (run.err.Some? ==> r == Err("git status: " + run.stderr))
      && (run.err.None? ==> r == Ok(StatusOf(run.stdout)))
  {
    var run := git(["status", "--porcelain", "-b"]);
    if run.err.Some? {
      return Err("git status: " + run.stderr);
    }
    var st := ParseStatus(run.stdout);
    return Ok(st);
  }

  // ---------------------------------------------------------------------
  // git_diff

  /** `args[key].(bool)` that is present and true. */
  predicate Flag(args: map<string, Json>, key: string) {
    key in args && args[key] == JBool(true)
  }

  /** The arguments of `git diff`: --staged, then "-- file", then the commit. */
  function DiffArgs(args: map<string, Json>): (r: seq<string>)
    ensures |r| >= 1 && r[0] == "diff"
    ensures |r| == 1 + (if Flag(args, "staged") then 1 else 0) + (if Tools.ArgRequired(args, "file").Some? then 2 else 0)
      + (if Tools.ArgRequired(args, "commit").Some? then 1 else 0)
    ensures Tools.ArgRequired(args, "commit").Some? ==> r[|r| - 1] == args["commit"].s
    ensures Flag(args, "staged") ==> r[1] == "--staged"
  {
    ["diff"]
      + (if Flag(args, "staged") then ["--staged"] else [])
      + (match Tools.ArgRequired(args, "file") case Some(f) => ["--", f] case None => [])
      + (match Tools.ArgRequired(args, "commit") case Some(c) => [c] case None => [])
  }

  /** `GitDiffTool.Execute`: the diff, and the same command with --stat, whose failure is ignored. */
  function GitDiff(args: map<string, Json>, git: GitRunner): (r: Result<Json, string>)
    ensures git(DiffArgs(args)).err.Some? ==> r == Err("git diff: " + git(DiffArgs(args)).stderr)
    ensures r.Ok? ==> r.value.JObj? && "empty" in r.value.fields && "stats" in r.value.fields && r.value.fields["empty"] == JBool(git(DiffArgs(args)).stdout == "")
    ensures r.Ok? ==> r.value.JObj? && "stats" in r.value.fields && r.value.fields["stats"] == JStr(git(DiffArgs(args) + ["--stat"]).stdout)
  {
    var cmdArgs := DiffArgs(args);
    var run := git(cmdArgs);
    if run.err.Some? then Err("git diff: " + run.stderr)
    else
      var stats := git(cmdArgs + ["--stat"]);
      Ok(JObj(map["diff" := JStr(run.stdout), "stats" := JStr(stats.stdout), "empty" := JBool(|run.stdout| == 0)]))
  }

  // ---------------------------------------------------------------------
  // git_commit

  /** `git add` with the string entries of `files`. */
  function AddArgs(files: seq<Json>): (r: seq<string>)
    ensures |r| >= 1 && r[0] == "add"
  {
    ["add"] + Tools.StringItems(files)
  }

  /** Only the string entries of `files` are staged, each of them. */
  lemma AddArgsStrings(files: seq<Json>)
    ensures forall s :: s in AddArgs(files)[1..] <==> JStr(s) in files
  {
    Tools.StringItemsMembership(files);
    assert AddArgs(files)[1..] == Tools.StringItems(files);
  }

  /** Whether `files` is a non-empty array, which `git_commit` stages first. */
  predicate StagesFiles(args: map<string, Json>) {
    "files" in args && args["files"].JArr? && |args["files"].items| > 0
  }

  /** `GitCommitTool.Execute`. */
  function CommitOutcome(args: map<string, Json>, git: GitRunner, now: int): (r: Result<Json, string>)
    ensures Tools.ArgRequired(args, "message").None? ==> r == Err("message is required")
    ensures r.Ok? ==> && Tools.ArgRequired(args, "message").Some?
                      && git(["commit", "-m", args["message"].s]).err.None?
                      && (StagesFiles(args) ==> git(AddArgs(args["files"].items)).err.None?)
                      && (Flag(args, "all") ==> git(["add", "-A"]).err.None?)
  {
    match Tools.ArgRequired(args, "message")
    case None => Err("message is required")
    case Some(message) =>
      if StagesFiles(args) && git(AddArgs(args["files"].items)).err.Some? then
        Err("git add: " + git(AddArgs(args["files"].items)).err.value)
      else if Flag(args, "all") && git(["add", "-A"]).err.Some? then
        Err("git add: " + git(["add", "-A"]).err.value)
      else
        var run := git(["commit", "-m", message]);
        if run.err.Some? then Err("git commit: " + run.stderr)
        else
          var hash := git(["rev-parse", "HEAD"]);
          Ok(JObj(map["message" := JStr(message), "commit" := JStr(TrimSpace(hash.stdout)),
                      "output" := JStr(run.stdout), "created_at" := JInt(now)]))
  }

  /** `GitCommitTool.Execute`, building the `git add` arguments in a loop. */
  method GitCommit(args: map<string, Json>, git: GitRunner, now: int) returns (r: Result<Json, string>)
    ensures r == CommitOutcome(args, git, now)
  {
    var message := Tools.ArgRequired(args, "message");
    if message.None? {
      return Err("message is required");
    }
    if StagesFiles(args) {
      var paths := Tools.CollectStrings(args["files"].items);
      var add := git(["add"] + paths);
      if add.err.Some? {
        return Err("git add: " + add.err.value);
      }
    }
    if Flag(args, "all") {
      var add := git(["add", "-A"]);
      if add.err.Some? {
        return Err("git add: " + add.err.value);
      }
    }
    var run := git(["commit", "-m", message.value]);
    if run.err.Some? {
      return Err("git commit: " + run.stderr);
    }
    var hash := git(["rev-parse", "HEAD"]);
    return Ok(JObj(map["message" := JStr(message.value), "commit" := JStr(TrimSpace(hash.stdout)),
                       "output" := JStr(run.stdout), "created_at" := JInt(now)]));
  }

  // ---------------------------------------------------------------------
  // git_log

  datatype Commit = Commit(hash: string, author: string, email: string, message: string, date: string)

  /** `strings.SplitN(line, "|", 5)` when it gives five fields: the fifth keeps any further '|'. */
  function CommitOf(line: string): Option<Commit> {
    var p := Split(line, '|');
    if |p| >= 5 then Some(Commit(p[0], p[1], p[2], p[3], Join(p[4..], "|"))) else None
  }

  /** The five fields, joined back with '|', are the line; the first four hold no '|'. */
  lemma CommitRejoins(line: string)
    requires CommitOf(line).Some?
    ensures var c := CommitOf(line).value;
      && c.hash + "|" + c.author + "|" + c.email + "|" + c.message + "|" + c.date == line
      && '|' !in c.hash && '|' !in c.author && '|' !in c.email && '|' !in c.message
  {
    var p := Split(line, '|');
    SplitJoin(line, '|');
    JoinFive(p, "|");
    assert p[0] in p && p[1] in p && p[2] in p && p[3] in p;
  }

  /** Joining five or more parts: the first four, then the rest joined. */
  lemma JoinFive(p: seq<string>, sep: string)
    requires |p| >= 5
    ensures Join(p, sep) == p[0] + sep + p[1] + sep + p[2] + sep + p[3] + sep + Join(p[4..], sep)
  {
    var j4 := Join(p[4..], sep);
    JoinNested(p, sep);
    Regroup(p[0], p[1], p[2], p[3], sep, j4);
  }

  lemma JoinNested(p: seq<string>, sep: string)
    requires |p| >= 5
    ensures Join(p, sep) == p[0] + sep + (p[1] + sep + (p[2] + sep + (p[3] + sep + Join(p[4..], sep))))
  {
    JoinCons(p, sep);
    JoinCons(p[1..], sep);
    assert p[1..][1..] == p[2..];
    JoinCons(p[2..], sep);
    assert p[2..][1..] == p[3..];
    JoinCons(p[3..], sep);
    assert p[3..][1..] == p[4..];
  }

  lemma Regroup(a: string, b: string, c: string, d: string, sep: string, rest: string)
    ensures a + sep + (b + sep + (c + sep + (d + sep + rest))) == a + sep + b + sep + c + sep + d + sep + rest
  {
  }

  lemma JoinCons(p: seq<string>, sep: string)
    requires |p| >= 2
    ensures Join(p, sep) == p[0] + sep + Join(p[1..], sep)
  {
  }

  /** The commits of the non-empty lines that have five fields, in order. */
  function CommitsOf(lines: seq<string>): (r: seq<Commit>)
    ensures |r| <= |lines|
  {
    if lines == [] then []
    else
      var init := CommitsOf(lines[..|lines| - 1]);
      var line := lines[|lines| - 1];
      if line != "" && CommitOf(line).Some? then init + [CommitOf(line).value] else init
  }

  /** Every commit reported is the parse of one line of the output. */
  lemma {:induction false} CommitsFromLines(lines: seq<string>)
    ensures forall c :: c in CommitsOf(lines) ==> exists i :: 0 <= i < |lines| && CommitOf(lines[i]) == Some(c)
  {
    if lines != [] {
      var init := lines[..|lines| - 1];
      CommitsFromLines(init);
      forall c | c in CommitsOf(lines)
        ensures exists i :: 0 <= i < |lines| && CommitOf(lines[i]) == Some(c)
      {
        if c in CommitsOf(init) {
          var i :| 0 <= i < |init| && CommitOf(init[i]) == Some(c);
          assert lines[i] == init[i];
        } else {
          assert CommitOf(lines[|lines| - 1]) == Some(c);
        }
      }
    }
  }

  /** The parsing loop of `GitLogTool`. */
  method ParseLog(out: string) returns (commits: seq<Commit>)
    ensures commits == CommitsOf(OutputLines(out))
  {
    var lines := OutputLines(out);
    commits := [];
    for i := 0 to |lines|
      invariant commits == CommitsOf(lines[..i])
    {
      assert lines[..i + 1][..i] == lines[..i];
      var line := lines[i];
      if line == "" {
        continue;
      }
      var parsed := CommitOf(line);
      if parsed.Some? {
        commits := commits + [parsed.value];
      }
    }
    assert lines[..|lines|] == lines;
  }

  /** The `git log` arguments: ten entries unless a limit is given, then "-- file" when given. */
  function LogArgs(args: map<string, Json>): (r: seq<string>)
    ensures |r| >= 3 && r[..2] == ["log", "--format=%H|%an|%ae|%s|%ci"]
    ensures Tools.ArgNumber(args, "limit").None? ==> r[2] == "-n10"
    ensures Tools.ArgRequired(args, "file").Some? <==> |r| == 5
    ensures Tools.ArgRequired(args, "file").Some? ==> r[3..] == ["--", args["file"].s]
  {
    var limit := Tools.ArgNumber(args, "limit").GetOr(10);
    ["log", "--format=%H|%an|%ae|%s|%ci", "-n" + FormatInt(limit)]
      + (match Tools.ArgRequired(args, "file") case Some(f) => ["--", f] case None => [])
  }

  datatype LogReport = LogReport(commits: seq<Commit>, count: int)

  /** `GitLogTool.Execute`. */
  method GitLog(args: map<string, Json>, git: GitRunner) returns (r: Result<LogReport, string>)
    ensures var run := git(LogArgs(args));
      && (run.err.Some? ==> r == Err("git log: " + run.stderr))
      && (run.err.None? ==> r.Ok? && r.value.commits == CommitsOf(OutputLines(run.stdout)))
    ensures r.Ok? ==> r.value.count == |r.value.commits|
  {
    var run := git(LogArgs(args));
    if run.err.Some? {
      return Err("git log: " + run.stderr);
    }
    var commits := ParseLog(run.stdout);
    return Ok(LogReport(commits, |commits|));
  }

  // ---------------------------------------------------------------------
  // git_branch

  /** A listed line, trimmed, without the "* " that marks the current branch. */
  function BranchName(line: string): string {
    var t := TrimSpace(line);
    if HasPrefix(t, "* ") then t[2..] else t
  }

  predicate IsCurrent(line: string) {
    HasPrefix(TrimSpace(line), "* ")
  }

  /** The branches of the non-blank lines, in order. */
  function BranchesOf(lines: seq<string>): (r: seq<string>)
    ensures |r| <= |lines|
  {
    if lines == [] then []
    else
      var init := BranchesOf(lines[..|lines| - 1]);
      if TrimSpace(lines[|lines| - 1]) == "" then init else init + [BranchName(lines[|lines| - 1])]
  }

  /** The branch of the last line marked current, "" when none is. */
  function CurrentOf(lines: seq<string>): string {
    if lines == [] then ""
    else if IsCurrent(lines[|lines| - 1]) then BranchName(lines[|lines| - 1])
    else CurrentOf(lines[..|lines| - 1])
  }

  /** Every branch listed has a name. */
  lemma BranchNameNotEmpty(line: string)
    requires TrimSpace(line) != ""
    ensures BranchName(line) != ""
  {
    var t := TrimSpace(line);
    if HasPrefix(t, "* ") {
      assert t[1] == ' ';
      assert |t| > 2;
    }
  }

  /** The current branch is one of the branches listed, and no listed branch is blank. */
  lemma {:induction false} CurrentIsListed(lines: seq<string>)
    ensures CurrentOf(lines) == "" || CurrentOf(lines) in BranchesOf(lines)
    ensures forall b :: b in BranchesOf(lines) ==> b != ""
    ensures (exists i :: 0 <= i < |lines| && IsCurrent(lines[i])) ==> CurrentOf(lines) != ""
  {
    if lines != [] {
      var init := lines[..|lines| - 1];
      var last := lines[|lines| - 1];
      CurrentIsListed(init);
      if TrimSpace(last) != "" {
        BranchNameNotEmpty(last);
      }
      if exists i :: 0 <= i < |lines| && IsCurrent(lines[i]) {
        var i :| 0 <= i < |lines| && IsCurrent(lines[i]);
        if i < |init| {
          assert init[i] == lines[i];
        } else {
          assert TrimSpace(last) != "";
        }
      }
    }
  }

  datatype BranchResult = Listed(branches: seq<string>, current: string, count: int) | Created(created: string) | CheckedOut(name: string)

  /** The listing loop of `GitBranchTool`. */
  method ParseBranches(out: string) returns (branches: seq<string>, current: string)
    ensures branches == BranchesOf(Split(out, '\n')) && current == CurrentOf(Split(out, '\n'))
  {
    var lines := Split(out, '\n');
    branches, current := [], "";
    for i := 0 to |lines|
      invariant branches == BranchesOf(lines[..i]) && current == CurrentOf(lines[..i])
    {
      assert lines[..i + 1][..i] == lines[..i];
      var line := TrimSpace(lines[i]);
      if line == "" {
        continue;
      }
      if HasPrefix(line, "* ") {
        current := line[2..];
        branches := branches + [current];
      } else {
        branches := branches + [line];
      }
    }
    assert lines[..|lines|] == lines;
  }

  /** `GitBranchTool.Execute`: list (the default), create or checkout. */
  method GitBranch(args: map<string, Json>, git: GitRunner) returns (r: Result<BranchResult, string>)
    ensures var action := Tools.ArgString(args, "action").GetOr("list");
      && (action == "list" ==>
            var run := git(["branch", "-a"]);
            && (run.err.Some? ==> r == Err("git branch: " + run.err.value))
            && (run.err.None? ==> var lines := Split(run.stdout, '\n');
                  r == Ok(Listed(BranchesOf(lines), CurrentOf(lines), |BranchesOf(lines)|))))
      && (action == "create" ==>
            && (Tools.ArgRequired(args, "name").None? ==> r == Err("name is required for create action"))
            && (Tools.ArgRequired(args, "name").Some? ==>
                  var run := git(["branch", args["name"].s]);
                  r == if run.err.Some? then Err("git branch create: " + run.err.value) else Ok(Created(args["name"].s))))
      && (action == "checkout" ==>
            && (Tools.ArgRequired(args, "name").None? ==> r == Err("name is required for checkout action"))
            && (Tools.ArgRequired(args, "name").Some? ==>
                  var run := git(["checkout", args["name"].s]);
                  r == if run.err.Some? then Err("git checkout: " + run.stderr) else Ok(CheckedOut(args["name"].s))))
      && (action != "list" && action != "create" && action != "checkout" ==> r == Err("unknown action: " + action))
  {
    var action := "list";
    if Tools.ArgString(args, "action").Some? {
      action := args["action"].s;
    }
    if action == "list" {
      var run := git(["branch", "-a"]);
      if run.err.Some? {
        return Err("git branch: " + run.err.value);
      }
      var branches, current := ParseBranches(run.stdout);
      return Ok(Listed(branches, current, |branches|));
    } else if action == "create" {
      var name := Tools.ArgRequired(args, "name");
      if name.None? {
        return Err("name is required for create action");
      }
      var run := git(["branch", name.value]);
      if run.err.Some? {
        return Err("git branch create: " + run.err.value);
      }
      return Ok(Created(name.value));
    } else if action == "checkout" {
      var name := Tools.ArgRequired(args, "name");
      if name.None? {
        return Err("name is required for checkout action");
      }
      var run := git(["checkout", name.value]);
      if run.err.Some? {
        return Err("git checkout: " + run.stderr);
      }
      return Ok(CheckedOut(name.value));
    } else {
      return Err("unknown action: " + action);
    }
  }
}
