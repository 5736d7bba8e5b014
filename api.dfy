/**
 * The decisions the HTTP API server (`internal/api/server.go`) makes before
 * handing a request to the manager: the CORS preflight short-circuit, chat
 * request validation and its default target, task filtering, the
 * conversation list limit, token-mode validation, and the settings
 * handler's key masking and field-by-field merge. Decoding request bodies
 * and reading the config file are given as their outcomes.
 */
module Api {
  import opened Wrappers
  import opened GoStrings
  import TaskStore
  import ActivityLog
  import Team

  datatype Body = Empty | ErrorMessage(message: string) | Payload(fields: map<string, string>)

  datatype Response = Response(status: int, headers: map<string, string>, body: Body)

  const StatusOK := 200
  const StatusBadRequest := 400
  const StatusNotFound := 404
  const StatusMethodNotAllowed := 405

  /** The response of `s.error`. */
  function ErrorResponse(status: int, message: string): Response {
    Response(status, map["Content-Type" := "application/json"], ErrorMessage(message))
  }

  /** The headers the CORS wrapper sets on every response. */
  const CorsHeaders: map<string, string> := map[
    "Access-Control-Allow-Origin" := "*",
    "Access-Control-Allow-Methods" := "GET, POST, PUT, DELETE, OPTIONS",
    "Access-Control-Allow-Headers" := "Content-Type, Authorization"]

  /**
   * The CORS wrapper: an OPTIONS request is answered 200 with no body and
   * the handler never runs; any other request is the handler's answer with
   * the CORS headers added.
   */
  function Cors(httpMethod: string, handler: () -> Response): (r: Response)
    ensures forall h :: h in CorsHeaders ==> h in r.headers && r.headers[h] == CorsHeaders[h]
    ensures httpMethod == "OPTIONS" ==> r == Response(StatusOK, CorsHeaders, Empty)
    ensures httpMethod != "OPTIONS" ==> (r.status == handler().status && r.body == handler().body
      && forall h :: h in handler().headers && h !in CorsHeaders ==> h in r.headers && r.headers[h] == handler().headers[h])
  {
    if httpMethod == "OPTIONS" then Response(StatusOK, CorsHeaders, Empty)
    else var inner := handler(); Response(inner.status, inner.headers + CorsHeaders, inner.body)
  }

  /** A preflight answer does not depend on the handler behind it. */
  lemma PreflightIgnoresHandler(h1: () -> Response, h2: () -> Response)
    ensures Cors("OPTIONS", h1) == Cors("OPTIONS", h2)
  {
  }

  // ---------------------------------------------------------------- chat

  datatype ChatRequest = ChatRequest(team: string, message: string, to: string)

  /** What `handleChat` goes on to do: ask `target` directly, or the team through its entry point. */
  datatype ChatPlan = ChatPlan(team: string, message: string, target: string, direct: bool)

  /** The member chat reports as busy: the requested one, else the team's first client-facing role. */
  function ChatTarget(to: string, clientFacing: Option<seq<string>>): (target: string)
    ensures to != "" ==> target == to
    ensures to == "" && clientFacing.Some? && |clientFacing.value| > 0 ==> target == clientFacing.value[0]
    ensures to == "" && (clientFacing.None? || clientFacing.value == []) ==> target == ""
  {
    if to != "" then to
    else if clientFacing.Some? && |clientFacing.value| > 0 then clientFacing.value[0]
    else ""
  }

  /**
   * `handleChat` up to the call into the manager. `clientFacing` is the
   * team's client-facing roles after the start attempt, `None` when the
   * team is not found.
   */
  function PlanChat(httpMethod: string, req: Result<ChatRequest, string>, clientFacing: Option<seq<string>>): (r: Result<ChatPlan, Response>)
    ensures httpMethod != "POST" ==> r == Err(ErrorResponse(StatusMethodNotAllowed, "POST required"))
    ensures httpMethod == "POST" && req.Err? ==> r == Err(ErrorResponse(StatusBadRequest, "invalid request body"))
    ensures httpMethod == "POST" && req.Ok? && (req.value.team == "" || req.value.message == "") ==>
      r == Err(ErrorResponse(StatusBadRequest, "team and message required"))
    ensures r.Ok? <==> (httpMethod == "POST" && req.Ok? && req.value.team != "" && req.value.message != "")
    ensures r.Ok? ==> (r.value.team == req.value.team && r.value.message == req.value.message
      && r.value.target == ChatTarget(req.value.to, clientFacing) && (r.value.direct <==> req.value.to != ""))
  {
    if httpMethod != "POST" then Err(ErrorResponse(StatusMethodNotAllowed, "POST required"))
    else if req.Err? then Err(ErrorResponse(StatusBadRequest, "invalid request body"))
    else if req.value.team == "" || req.value.message == "" then Err(ErrorResponse(StatusBadRequest, "team and message required"))
    else Ok(ChatPlan(req.value.team, req.value.message, ChatTarget(req.value.to, clientFacing), req.value.to != ""))
  }

  // ---------------------------------------------------------------- tasks

  /** Whether a task passes the optional status and assignee filters of the task listing. */
  predicate Keeps(t: TaskStore.Task, status: string, assignee: string) {
    (status == "" || t.status == status) && (assignee == "" || t.assignedTo == assignee)
  }

  /** The tasks kept, in their stored order. */
  function Filtered(tasks: seq<TaskStore.Task>, status: string, assignee: string): seq<TaskStore.Task> {
    if tasks == [] then []
    else
      var last := tasks[|tasks| - 1];
      Filtered(tasks[..|tasks| - 1], status, assignee) + (if Keeps(last, status, assignee) then [last] else [])
  }

  /** A task is listed exactly when it is stored and passes both filters. */
  lemma {:induction false} FilteredMembers(tasks: seq<TaskStore.Task>, status: string, assignee: string)
    ensures forall t :: t in Filtered(tasks, status, assignee) <==> t in tasks && Keeps(t, status, assignee)
    ensures |Filtered(tasks, status, assignee)| <= |tasks|
  {
    if tasks != [] {
      var init := tasks[..|tasks| - 1];
      FilteredMembers(init, status, assignee);
      assert tasks == init + [tasks[|tasks| - 1]];
    }
  }

  /** With neither filter set, every task is listed in order. */
  lemma {:induction false} NoFilterListsAll(tasks: seq<TaskStore.Task>)
    ensures Filtered(tasks, "", "") == tasks
  {
    if tasks != [] {
      NoFilterListsAll(tasks[..|tasks| - 1]);
      assert tasks == tasks[..|tasks| - 1] + [tasks[|tasks| - 1]];
    }
  }

  /** The GET branch of `handleProjectTasks`: the tasks and their count. */
  method FilterTasks(tasks: seq<TaskStore.Task>, status: string, assignee: string) returns (filtered: seq<TaskStore.Task>, count: int)
    ensures filtered == Filtered(tasks, status, assignee)
    ensures count == |filtered|
  {
    filtered := [];
    for i := 0 to |tasks|
      invariant filtered == Filtered(tasks[..i], status, assignee)
    {
      assert tasks[..i + 1][..i] == tasks[..i];
      var t := tasks[i];
      if status != "" && t.status != status {
        continue;
      }
      if assignee != "" && t.assignedTo != assignee {
        continue;
      }
      filtered := filtered + [t];
    }
    assert tasks[..|tasks|] == tasks;
    count := |filtered|;
  }

  // ---------------------------------------------------------------- conversations

  /** The conversation list limit: 10 unless the query gives a positive integer. */
  function ListLimit(l: string): (n: int)
    ensures n >= 1
    ensures ParseInt64(l).Some? && ParseInt64(l).value > 0 ==> n == ParseInt64(l).value
    ensures !(ParseInt64(l).Some? && ParseInt64(l).value > 0) ==> n == 10
  {
    if l != "" then
      var parsed := ParseInt64(l);
      if parsed.Some? && parsed.value > 0 then parsed.value else 10
    else 10
  }

  lemma ListLimitExamples()
    ensures ListLimit("") == 10 && ListLimit("0") == 10 && ListLimit("-3") == 10 && ListLimit("x") == 10
    ensures ListLimit("25") == 25
  {
    assert Atoi("0") == Some(0) by { assert AllDigits("0"); }
    assert Atoi("-3") == Some(-3) by { assert AllDigits("3"); assert DigitsValue("3") == 3; }
    assert Atoi("x") == None by { assert !('0' <= "x"[0] <= '9'); }
    assert Atoi("25") == Some(25) by {
      assert AllDigits("25");
      assert "25"[..1] == "2";
      assert DigitsValue("2") == 2;
    }
  }

  // ---------------------------------------------------------------- project activity

  /**
   * The activity query limit as `handleProjectActivity` computes it: 50
   * without a `limit` parameter; with one that parses, the value of a
   * variable the parsed number is never stored in, so 0.
   */
  function ActivityLimitAsWritten(l: string): (n: int)
    ensures n == 0 || n == 50
    ensures n == 0 <==> l != "" && ParseInt64(l).Some?
  {
    if l != "" then
      var parsed := ParseInt64(l);
      if parsed.Some? then 0 else 50
    else 50
  }

  /** Under `ActivityLimitAsWritten` every positive limit a client asks for becomes 0. */
  lemma ActivityLimitAsWrittenDropsRequest(n: nat)
    requires 0 < n <= MaxInt64
    ensures ActivityLimitAsWritten(Itoa(n)) == 0 != n
  {
    AtoiItoa(n);
  }

  /**
   * Since a limit of 0 cuts nothing, the as-written handler returns every
   * matching entry past the offset, however few the client asked for.
   */
  lemma ActivityLimitAsWrittenReturnsAll(n: nat, lines: seq<ActivityLog.LogLine>, opts: ActivityLog.QueryOptions)
    requires 0 < n <= MaxInt64 && ActivityLog.Readable(lines)
    requires opts.limit == ActivityLimitAsWritten(Itoa(n))
    ensures var r := ActivityLog.QueryLog(ActivityLog.Lines(lines), opts);
      var matching := ActivityLog.Matching(lines, opts);
      && r == Ok(ActivityLog.Drop(matching, ActivityLog.Skip(opts)))
      && (|matching| > n + ActivityLog.Skip(opts) ==> |r.value| > n)
  {
    ActivityLimitAsWrittenDropsRequest(n);
    ActivityLog.NoLimitKeepsEveryMatch(lines, opts);
  }

  /** The activity query limit as evidently intended: the parsed number when the parameter parses, else 50. */
  function ActivityLimit(l: string): (n: int)
    ensures l == "" ==> n == 50
    ensures l != "" && ParseInt64(l).Some? ==> n == ParseInt64(l).value
    ensures l != "" && ParseInt64(l).None? ==> n == 50
  {
    if l != "" then
      var parsed := ParseInt64(l);
      if parsed.Some? then parsed.value else 50
    else 50
  }

  /** Under `ActivityLimit` a client asking for `n` entries gets a limit of `n`. */
  lemma ActivityLimitHonoursRequest(n: nat)
    requires n <= MaxInt64
    ensures ActivityLimit(Itoa(n)) == n
  {
    AtoiItoa(n);
  }

  // ---------------------------------------------------------------- token mode

  /** The token mode a request selects; `None` for a mode the handler rejects. */
  function TokenModeFor(mode: string): (r: Option<string>)
    ensures r.Some? <==> mode in {"normal", "", "low", "minimal"}
    ensures r.Some? ==> r.value in {"normal", "low", "minimal"}
    ensures r.Some? && mode != "" ==> r.value == mode
    ensures mode == "" ==> r == Some("normal")
  {
    if mode == "normal" || mode == "" then Some("normal")
    else if mode == "low" || mode == "minimal" then Some(mode)
    else None
  }

  /**
   * `handleTeamTokenMode`. `req` is the decoded mode; `t` is the team, or
   * `null` when the manager does not know it. Only a 200 answer changes
   * the team, and only its token mode.
   */
  method HandleTokenMode(httpMethod: string, req: Result<string, string>, t: Team.Team?) returns (r: Response)
    modifies t
    ensures r.status != StatusOK ==> t == null || unchanged(t)
    ensures httpMethod != "POST" ==> r == ErrorResponse(StatusMethodNotAllowed, "POST required")
    ensures httpMethod == "POST" && req.Err? ==> r == ErrorResponse(StatusBadRequest, "invalid request body")
    ensures httpMethod == "POST" && req.Ok? && t == null ==> r == ErrorResponse(StatusNotFound, "team not found")
    ensures httpMethod == "POST" && req.Ok? && t != null && TokenModeFor(req.value).None? ==>
      r == ErrorResponse(StatusBadRequest, "invalid token mode (use: normal, low, minimal)")
    ensures r.status == StatusOK <==> httpMethod == "POST" && req.Ok? && t != null && TokenModeFor(req.value).Some?
    ensures r.status == StatusOK ==> (t.tokenMode == TokenModeFor(req.value).value
      && r.body == Payload(map["status" := "ok", "mode" := req.value])
      && t.spec == old(t.spec) && t.members == old(t.members) && t.tasks == old(t.tasks)
      && t.membersByRole == old(t.membersByRole) && t.clientQueue == old(t.clientQueue) && t.internalQueue == old(t.internalQueue))
  {
    if httpMethod != "POST" {
      return ErrorResponse(StatusMethodNotAllowed, "POST required");
    }
    if req.Err? {
      return ErrorResponse(StatusBadRequest, "invalid request body");
    }
    if t == null {
      return ErrorResponse(StatusNotFound, "team not found");
    }
    var mode := TokenModeFor(req.value);
    if mode.None? {
      return ErrorResponse(StatusBadRequest, "invalid token mode (use: normal, low, minimal)");
    }
    t.SetTokenMode(mode.value);
    r := Response(StatusOK, map["Content-Type" := "application/json"], Payload(map["status" := "ok", "mode" := req.value]));
  }

  // ---------------------------------------------------------------- settings

  /** The masker of the settings view: stars for all but the last four characters. */
  function MaskKey(key: string): (r: string)
    ensures |r| == |key|
    ensures |key| <= 4 ==> forall k :: 0 <= k < |r| ==> r[k] == '*'
    ensures |key| > 4 ==> (forall k :: 0 <= k < |key| - 4 ==> r[k] == '*') && r[|key| - 4..] == key[|key| - 4..]
  {
    if |key| <= 4 then Repeat("*", |key|) else Repeat("*", |key| - 4) + key[|key| - 4..]
  }

  /** The fields the settings handler reads and writes. */
  datatype Settings = Settings(
    anthropicKey: string, openaiKey: string, openaiBaseURL: string, openrouterKey: string,
    groqKey: string, ollamaURL: string, provider: string, model: string)

  const NoSettings := Settings("", "", "", "", "", "", "", "")

  /** A settings update: each section is absent or present, as the request body gives it. */
  datatype SettingsUpdate = SettingsUpdate(
    anthropic: Option<string>, openai: Option<(string, string)>, openrouter: Option<string>,
    groq: Option<string>, ollama: Option<string>, defaults: Option<(string, string)>)

  /** One field: replaced only by a non-empty supplied value. */
  function Take(current: string, offered: Option<string>): (r: string)
    ensures offered.Some? && offered.value != "" ==> r == offered.value
    ensures !(offered.Some? && offered.value != "") ==> r == current
  {
    if offered.Some? && offered.value != "" then offered.value else current
  }

  function First(p: Option<(string, string)>): Option<string> {
    if p.Some? then Some(p.value.0) else None
  }

  function Second(p: Option<(string, string)>): Option<string> {
    if p.Some? then Some(p.value.1) else None
  }

  /** The POST/PUT branch of `handleSettings`: the config it saves, from the loaded one or, when loading fails, an empty one. */
  function MergeSettings(loaded: Result<Settings, string>, u: SettingsUpdate): (c: Settings) {
    var base := if loaded.Ok? then loaded.value else NoSettings;
    Settings(
      Take(base.anthropicKey, u.anthropic),
      Take(base.openaiKey, First(u.openai)),
      Take(base.openaiBaseURL, Second(u.openai)),
      Take(base.openrouterKey, u.openrouter),
      Take(base.groqKey, u.groq),
      Take(base.ollamaURL, u.ollama),
      Take(base.provider, First(u.defaults)),
      Take(base.model, Second(u.defaults)))
  }

  /** An update that supplies nothing non-empty saves the loaded config as it was. */
  lemma NothingSuppliedKeepsSettings(c: Settings, u: SettingsUpdate)
    requires u.anthropic in {None, Some("")} && u.openrouter in {None, Some("")} && u.groq in {None, Some("")} && u.ollama in {None, Some("")}
    requires u.openai.None? || u.openai.value == ("", "")
    requires u.defaults.None? || u.defaults.value == ("", "")
    ensures MergeSettings(Ok(c), u) == c
  {
  }

  /** Sending the same update twice saves what sending it once does. */
  lemma MergeIdempotent(c: Settings, u: SettingsUpdate)
    ensures MergeSettings(Ok(MergeSettings(Ok(c), u)), u) == MergeSettings(Ok(c), u)
  {
  }

  /** An update of one section changes only that section's fields. */
  lemma AnthropicOnly(c: Settings, key: string)
    requires key != ""
    ensures MergeSettings(Ok(c), SettingsUpdate(Some(key), None, None, None, None, None)) == c.(anthropicKey := key)
  {
  }

  /** What the GET branch shows for one provider. */
  datatype ProviderView = ProviderView(configured: bool, shown: string)

  /** The GET branch of `handleSettings`: configured flags, masked keys, visible URLs. */
  function SettingsView(c: Settings): (v: map<string, ProviderView>)
    ensures v.Keys == {"anthropic", "openai", "openrouter", "groq", "ollama"}
    ensures v["anthropic"].configured <==> c.anthropicKey != ""
    ensures v["openai"].configured <==> c.openaiKey != ""
    ensures v["ollama"] == ProviderView(c.ollamaURL != "", c.ollamaURL)
    ensures forall p :: p in v && p != "ollama" ==> |v[p].shown| == |KeyOf(c, p)| && v[p].configured == (KeyOf(c, p) != "")
  {
    map[
      "anthropic" := ProviderView(c.anthropicKey != "", MaskKey(c.anthropicKey)),
      "openai" := ProviderView(c.openaiKey != "", MaskKey(c.openaiKey)),
      "openrouter" := ProviderView(c.openrouterKey != "", MaskKey(c.openrouterKey)),
      "groq" := ProviderView(c.groqKey != "", MaskKey(c.groqKey)),
      "ollama" := ProviderView(c.ollamaURL != "", c.ollamaURL)]
  }

  function KeyOf(c: Settings, p: string): string {
    if p == "anthropic" then c.anthropicKey
    else if p == "openai" then c.openaiKey
    else if p == "openrouter" then c.openrouterKey
    else if p == "groq" then c.groqKey
    else ""
  }
}
