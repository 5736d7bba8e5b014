/**
 * The tool handlers of the MCP server (`internal/mcp/handlers.go`): the
 * argument checks every handler makes before it calls the daemon, the
 * rewriting of a spec's team name, the `limit` default of
 * project_communications, the specialist descriptions and the member
 * lines of the team status. What the daemon answers is an oracle.
 */
module McpHandlers {
  import opened Wrappers
  import opened GoStrings
  import PT = ProviderTypes
  import TeamMember
  import FilePath

  /** The decoded `arguments` object of a tools/call request. */
  type Args = map<string, PT.Json>

  /** What a handler returns: a string, or any other value, which the server writes as JSON. */
  datatype Outcome = Text(text: string) | Value(value: PT.Json)

  type Handler = Args -> Result<Outcome, string>

  /** `args[key].(string)`: the string, or "" when the key is missing or holds another type. */
  function StringArg(args: Args, key: string): (s: string)
    ensures key in args && args[key].JStr? ==> s == args[key].s
    ensures key !in args || !args[key].JStr? ==> s == ""
  {
    if key in args && args[key].JStr? then args[key].s else ""
  }

  /** The tools whose handlers start with `ensureClient`. */
  predicate NeedsDaemon(name: string) {
    name !in {"ugudu_list_specs", "ugudu_daemon_status", "ugudu_list_specialists"}
  }

  const DaemonDown := "daemon not running. Start it with: ugudu daemon"

  function Missing(args: Args, keys: seq<string>): bool {
    exists k :: k in keys && StringArg(args, k) == ""
  }

  /** The check each handler makes on its string arguments, with its own message. */
  function ArgCheck(name: string, args: Args): (r: Option<string>)
  {
    if name == "ugudu_create_team" then
      if StringArg(args, "name") == "" || StringArg(args, "spec") == "" then Some("both 'name' and 'spec' are required") else None
    else if name == "ugudu_ask" then
      if StringArg(args, "team") == "" || StringArg(args, "message") == "" then Some("both 'team' and 'message' are required") else None
    else if name == "ugudu_start_project" then
      if StringArg(args, "team") == "" || StringArg(args, "request") == "" then Some("both 'team' and 'request' are required") else None
    else if name == "ugudu_answer_question" then
      if StringArg(args, "team") == "" || StringArg(args, "question_id") == "" || StringArg(args, "answer") == "" then
        Some("'team', 'question_id', and 'answer' are required")
      else None
    else if name == "ugudu_set_token_mode" then
      if StringArg(args, "team") == "" || StringArg(args, "mode") == "" then Some("team and mode are required") else None
    else if name == "ugudu_clear_conversation" then
      if StringArg(args, "team") == "" then Some("team name is required") else None
    else if name in {"ugudu_team_status", "ugudu_start_team", "ugudu_stop_team", "ugudu_delete_team",
                     "ugudu_project_status", "ugudu_pending_questions", "ugudu_project_communications"} then
      if StringArg(args, "team") == "" then Some("'team' is required") else None
    else None
  }

  /** The `required` list each tool's input schema declares (`registerTools`). */
  function SchemaRequired(name: string): seq<string> {
    if name == "ugudu_create_team" then ["name", "spec"]
    else if name == "ugudu_ask" then ["team", "message"]
    else if name == "ugudu_start_project" then ["team", "request"]
    else if name == "ugudu_answer_question" then ["team", "question_id", "answer"]
    else if name == "ugudu_set_token_mode" then ["team", "mode"]
    else if name in {"ugudu_team_status", "ugudu_start_team", "ugudu_stop_team", "ugudu_delete_team",
                     "ugudu_project_status", "ugudu_pending_questions", "ugudu_project_communications",
                     "ugudu_clear_conversation"} then ["team"]
    else []
  }

  /** A handler refuses its arguments exactly when one its schema requires is missing or empty. */
  lemma ArgCheckMatchesSchema(name: string, args: Args)
    ensures ArgCheck(name, args).Some? <==> Missing(args, SchemaRequired(name))
  {
    var req := SchemaRequired(name);
    if ArgCheck(name, args).Some? {
      if |req| == 3 {
        assert req[0] in req && req[1] in req && req[2] in req;
      } else if |req| == 2 {
        assert req[0] in req && req[1] in req;
      } else {
        assert req[0] in req;
      }
    }
  }

  /**
   * The common front of the handlers: `ensureClient` when the tool needs
   * the daemon (`connected` says whether a connection exists or could be
   * made), then the argument check, then the daemon call.
   */
  function HandleTool(name: string, args: Args, connected: bool, daemon: (string, Args) -> Result<Outcome, string>): (r: Result<Outcome, string>)
    ensures NeedsDaemon(name) && !connected ==> r == Err(DaemonDown)
    ensures (!NeedsDaemon(name) || connected) && Missing(args, SchemaRequired(name)) ==> r.Err?
    ensures (!NeedsDaemon(name) || connected) && !Missing(args, SchemaRequired(name)) ==> r == daemon(name, args)
  {
    ArgCheckMatchesSchema(name, args);
    if NeedsDaemon(name) && !connected then Err(DaemonDown)
    else match ArgCheck(name, args)
      case Some(m) => Err(m)
      case None => daemon(name, args)
  }

  /** Go's `int(f)`: truncation toward zero. */
  function TruncateReal(x: real): (n: int)
    ensures x >= 0.0 ==> n as real <= x < n as real + 1.0
    ensures x < 0.0 ==> n as real - 1.0 < x <= n as real
  {
    if x >= 0.0 then x.Floor else -((-x).Floor)
  }

  /**
   * project_communications' `limit`: 20 unless the argument is a JSON
   * number, which is truncated toward zero.
   */
  function CommunicationsLimit(args: Args): (limit: int)
    ensures "limit" !in args ==> limit == 20
    ensures "limit" in args && !args["limit"].JReal? && !args["limit"].JInt? ==> limit == 20
    ensures "limit" in args && args["limit"].JInt? ==> limit == args["limit"].i
    ensures "limit" in args && args["limit"].JReal? && args["limit"].r >= 0.0 ==>
      limit as real <= args["limit"].r < limit as real + 1.0
  {
    if "limit" !in args then 20
    else match args["limit"]
      case JReal(x) => TruncateReal(x)
      case JInt(i) => i
      case _ => 20
  }

  /** `getSpecialistDescription`. */
  const Specialists: map<string, string> := map[
    "healthcare-sme" := "FHIR, HIPAA, clinical workflows expert",
    "devops" := "CI/CD, Kubernetes, Terraform specialist",
    "security-engineer" := "Security architecture, threat modeling",
    "data-engineer" := "ETL, data pipelines, analytics",
    "ux-designer" := "UX/UI design, accessibility",
    "fintech-sme" := "Banking, payments, PCI-DSS compliance"]

  function SpecialistDescription(name: string): (d: string)
    ensures name in Specialists ==> d == Specialists[name]
    ensures d == "Domain specialist" <==> name !in Specialists
  {
    if name in Specialists then Specialists[name] else "Domain specialist"
  }

  // The team-name rewrite of `replaceTeamNameInSpec`

  /** The number of leading spaces and tabs: what `strings.TrimLeft(line, " \t")` removes. */
  function IndentWidth(s: string): (n: nat)
    ensures n <= |s|
    ensures forall k :: 0 <= k < n ==> s[k] == ' ' || s[k] == '\t'
    ensures n < |s| ==> s[n] != ' ' && s[n] != '\t'
  {
    if s != [] && (s[0] == ' ' || s[0] == '\t') then 1 + IndentWidth(s[1..]) else 0
  }

  predicate IsNameLine(line: string) {
    HasPrefix(TrimSpace(line), "name:")
  }

  function NameLine(line: string, teamName: string): string {
    line[..IndentWidth(line)] + "name: " + teamName
  }

  /** The first line whose trimmed text starts with "name:", or -1. */
  function FirstNameLine(lines: seq<string>): (k: int)
    ensures -1 <= k < |lines|
    ensures k >= 0 ==> IsNameLine(lines[k])
    ensures forall j :: 0 <= j < |lines| && (k < 0 || j < k) ==> !IsNameLine(lines[j])
  {
    if lines == [] then -1
    else if IsNameLine(lines[0]) then 0
    else
      var k := FirstNameLine(lines[1..]);
      if k < 0 then -1 else k + 1
  }

  /** The lines with the first name line rewritten. */
  function RenamedLines(lines: seq<string>, teamName: string): (r: seq<string>)
    ensures |r| == |lines|
  {
    var k := FirstNameLine(lines);
    if k < 0 then lines else lines[k := NameLine(lines[k], teamName)]
  }

  function RenamedSpec(content: string, teamName: string): string {
    Join(RenamedLines(Split(content, '\n'), teamName), "\n")
  }

  /** `replaceTeamNameInSpec`: the loop stops at the first name line. */
  method ReplaceTeamNameInSpec(specContent: string, teamName: string) returns (r: string)
    ensures r == RenamedSpec(specContent, teamName)
  {
    var lines := Split(specContent, '\n');
    var i := 0;
    while i < |lines|
      invariant 0 <= i <= |lines|
      invariant forall j :: 0 <= j < i ==> !IsNameLine(lines[j])
    {
      var line := lines[i];
      var trimmed := TrimSpace(line);
      if HasPrefix(trimmed, "name:") {
        var indent := line[..|line| - |line[IndentWidth(line)..]|];
        assert indent == line[..IndentWidth(line)];
        assert FirstNameLine(lines) == i;
        r := Join(lines[i := indent + "name: " + teamName], "\n");
        return;
      }
      i := i + 1;
    }
    assert FirstNameLine(lines) < 0;
    r := Join(lines, "\n");
  }

  /**
   * Only the first name line changes: it keeps its indentation and names
   * the team; every other line is as it was, and text without a name
   * line comes back unchanged.
   */
  lemma RenameChangesOneLine(content: string, teamName: string)
    ensures var lines := Split(content, '\n');
      var k := FirstNameLine(lines);
      var r := RenamedLines(lines, teamName);
      && |r| == |lines|
      && (k >= 0 ==> r[k] == lines[k][..IndentWidth(lines[k])] + "name: " + teamName)
      && (forall j :: 0 <= j < |lines| && j != k ==> r[j] == lines[j])
      && (k < 0 ==> RenamedSpec(content, teamName) == content)
  {
    if FirstNameLine(Split(content, '\n')) < 0 {
      SplitJoin(content, '\n');
    }
  }

  lemma NoSeparator(s: string)
    requires '\n' !in s
    ensures NextIndex(s, '\n') == |s|
  {
    forall k | 0 <= k < |s|
      ensures s[k] != '\n'
    {
      assert s[k] in s;
    }
  }

  /** A rewritten name line of a line and a team name without newlines has no newline. */
  lemma NameLineOneLine(line: string, teamName: string)
    requires '\n' !in line && '\n' !in teamName
    ensures '\n' !in NameLine(line, teamName)
  {
    var ind := line[..IndentWidth(line)];
    forall c | 0 <= c < |ind|
      ensures ind[c] != '\n'
    {
      assert ind[c] == line[c] && line[c] in line;
    }
    assert '\n' !in ind;
  }

  /** For a team name without a newline, the rewritten spec has exactly as many lines as the original. */
  lemma RenameKeepsLineCount(content: string, teamName: string)
    requires '\n' !in teamName
    ensures |Split(RenamedSpec(content, teamName), '\n')| == |Split(content, '\n')|
    ensures Split(RenamedSpec(content, teamName), '\n') == RenamedLines(Split(content, '\n'), teamName)
  {
    var lines := Split(content, '\n');
    var r := RenamedLines(lines, teamName);
    var k := FirstNameLine(lines);
    forall j | 0 <= j < |r|
      ensures '\n' !in r[j]
    {
      assert lines[j] in lines;
      if j == k {
        NameLineOneLine(lines[k], teamName);
      }
    }
    FilePath.JoinSplit(r, '\n');
  }

  // The member lines of `handleTeamStatus`

  datatype MemberInfo = MemberInfo(name: string, title: string, status: string, visibility: string)

  /** The UTF-8 bytes of the bust and padlock emoji. */
  const ClientIcon := "\U{F0}\U{9F}\U{91}\U{A4}"
  const InternalIcon := "\U{F0}\U{9F}\U{94}\U{92}"

  function MemberLine(m: MemberInfo): string {
    "  " + (if m.visibility == "client" then ClientIcon else InternalIcon) + " "
    + TeamMember.DisplayName(m.name, m.title) + " - " + m.status + "\n"
  }

  function MemberLines(ms: seq<MemberInfo>): string {
    Concat(ms, MemberLine)
  }

  function StatusHead(team: string): string {
    "Team: " + team + "\n\nMembers:\n"
  }

  const StatusLegend := "\n" + ClientIcon + " = client-facing, " + InternalIcon + " = internal"

  function StatusText(team: string, ms: seq<MemberInfo>): string {
    StatusHead(team) + MemberLines(ms) + StatusLegend
  }

  /** The text `handleTeamStatus` builds from the daemon's member list. */
  method FormatTeamStatus(team: string, members: seq<MemberInfo>) returns (text: string)
    ensures text == StatusText(team, members)
  {
    var sb := StatusHead(team);
    ghost var head := sb;
    var i := 0;
    while i < |members|
      invariant 0 <= i <= |members|
      invariant sb == head + MemberLines(members[..i])
    {
      var line := FormatMemberLine(members[i]);
      assert members[..i + 1][..i] == members[..i];
      assert MemberLines(members[..i + 1]) == MemberLines(members[..i]) + line;
      AppendAssoc(head, MemberLines(members[..i]), line);
      sb := sb + line;
      i := i + 1;
    }
    assert members[..|members|] == members;
    text := sb + StatusLegend;
  }

  method FormatMemberLine(m: MemberInfo) returns (line: string)
    ensures line == MemberLine(m)
  {
    var displayName := m.name;
    if displayName == "" || displayName == m.title {
      displayName := m.title;
    } else {
      displayName := m.name + " (" + m.title + ")";
    }
    var icon := InternalIcon;
    if m.visibility == "client" {
      icon := ClientIcon;
    }
    line := "  " + icon + " " + displayName + " - " + m.status + "\n";
  }

  /** Every member the daemon lists gets its line in the status text. */
  lemma StatusShowsEveryMember(team: string, ms: seq<MemberInfo>)
    ensures forall m :: m in ms ==> Contains(StatusText(team, ms), MemberLine(m))
  {
    forall m | m in ms
      ensures Contains(StatusText(team, ms), MemberLine(m))
    {
      var i :| 0 <= i < |ms| && ms[i] == m;
      ConcatShows(ms, MemberLine, i);
      ContainsExtend(MemberLines(ms), StatusHead(team), MemberLine(m));
      ContainsExtend(StatusHead(team) + MemberLines(ms), StatusLegend, MemberLine(m));
    }
  }
}
