/**
 * The Model Context Protocol server (`internal/mcp/server.go`): JSON-RPC
 * 2.0 messages read one per line, dispatched on their method, and
 * answered with a reply carrying the request's ID. JSON decoding and
 * the indented JSON encoding are oracles; what each tool does is its
 * handler, a parameter of the server.
 */
module McpServer {
  import opened Wrappers
  import opened GoStrings
  import PT = ProviderTypes
  import opened McpHandlers

  /** A registered tool. Its description and input schema are given with it. */
  datatype Tool = Tool(name: string, description: string, inputSchema: PT.Json, handler: Handler)

  /** The catalogue entry of a tool: its description and input schema. */
  datatype Entry = Entry(description: string, inputSchema: PT.Json)

  /** A decoded request: an absent or null ID is `JNull`. */
  datatype Message = Message(id: PT.Json, methodName: string, params: string)

  datatype RpcError = RpcError(code: int, message: string)

  /** A reply: a result or an error, as the `omitempty` fields write it. */
  datatype Reply = Reply(jsonrpc: string, id: PT.Json, result: Option<PT.Json>, error: Option<RpcError>)

  /** The `params` of tools/call. */
  datatype CallParams = CallParams(name: string, arguments: Args)

  /** `json.Unmarshal` into a message and into call params, and `json.MarshalIndent(v, "", "  ")`. */
  datatype Codec = Codec(message: string -> Option<Message>, params: string -> Option<CallParams>, indent: PT.Json -> string)

  /** The codes of section 5.1 of the JSON-RPC 2.0 specification. */
  const MethodNotFound := -32601
  const InvalidParams := -32602

  const ProtocolVersion := "2024-11-05"

  /** The tools `registerTools` registers, in the order it registers them. */
  const ToolNames := [
    "ugudu_list_teams", "ugudu_create_team", "ugudu_ask", "ugudu_team_status", "ugudu_list_specs",
    "ugudu_daemon_status", "ugudu_start_team", "ugudu_stop_team", "ugudu_delete_team",
    "ugudu_start_project", "ugudu_project_status", "ugudu_pending_questions", "ugudu_answer_question",
    "ugudu_project_communications", "ugudu_set_token_mode", "ugudu_clear_conversation",
    "ugudu_list_specialists"]

  function MakeTool(name: string, handlers: string -> Handler, catalogue: string -> Entry): Tool {
    Tool(name, catalogue(name).description, catalogue(name).inputSchema, handlers(name))
  }

  /** The tool map `registerTools` fills: every tool under its own name. */
  function Registered(handlers: string -> Handler, catalogue: string -> Entry): map<string, Tool> {
    map n | n in ToolNames :: MakeTool(n, handlers, catalogue)
  }

  /** The tools registered once the first `i` names are done. */
  function RegisteredFirst(handlers: string -> Handler, catalogue: string -> Entry, i: nat): map<string, Tool>
    requires i <= |ToolNames|
  {
    map n | n in ToolNames[..i] :: MakeTool(n, handlers, catalogue)
  }

  lemma RegisteredNext(handlers: string -> Handler, catalogue: string -> Entry, i: nat)
    requires i < |ToolNames|
    ensures RegisteredFirst(handlers, catalogue, i + 1)
      == RegisteredFirst(handlers, catalogue, i)[ToolNames[i] := MakeTool(ToolNames[i], handlers, catalogue)]
  {
    assert ToolNames[..i + 1] == ToolNames[..i] + [ToolNames[i]];
  }

  lemma RegisteredAll(handlers: string -> Handler, catalogue: string -> Entry)
    ensures RegisteredFirst(handlers, catalogue, |ToolNames|) == Registered(handlers, catalogue)
  {
    assert ToolNames[..|ToolNames|] == ToolNames;
  }

  /** Every registered tool is filed under its own name, and exactly the listed tools are registered. */
  lemma RegisteredKeyedByName(handlers: string -> Handler, catalogue: string -> Entry)
    ensures var tools := Registered(handlers, catalogue);
      && (forall n :: n in tools <==> n in ToolNames)
      && (forall n :: n in tools ==> tools[n].name == n && tools[n].handler == handlers(n))
      && |tools| == |ToolNames|
  {
    var tools := Registered(handlers, catalogue);
    DistinctSetSize(ToolNames);
    assert tools.Keys == set n | n in ToolNames;
  }

  /** A sequence without repeats has as many members as elements. */
  lemma {:induction false} DistinctSetSize(s: seq<string>)
    requires forall i, j :: 0 <= i < j < |s| ==> s[i] != s[j]
    ensures |set x | x in s| == |s|
    decreases |s|
  {
    if s != [] {
      var init := s[..|s| - 1];
      DistinctSetSize(init);
      var last := s[|s| - 1];
      assert (set x | x in s) == (set x | x in init) + {last};
      assert last !in init by {
        forall i | 0 <= i < |init|
          ensures init[i] != last
        {
          assert init[i] == s[i];
        }
      }
    }
  }

  function ErrorReply(id: PT.Json, code: int, message: string): Reply {
    Reply("2.0", id, None, Some(RpcError(code, message)))
  }

  function ResultReply(id: PT.Json, result: PT.Json): Reply {
    Reply("2.0", id, Some(result), None)
  }

  /** JSON-RPC 2.0: a reply names the protocol version and carries exactly one of result and error. */
  predicate WellFormed(r: Reply) {
    r.jsonrpc == "2.0" && (r.result.Some? != r.error.Some?)
  }

  /** `handleInitialize`'s result. */
  function InitializeResult(): PT.Json {
    PT.JObj(map[
      "protocolVersion" := PT.JStr(ProtocolVersion),
      "capabilities" := PT.JObj(map["tools" := PT.JObj(map[])]),
      "serverInfo" := PT.JObj(map["name" := PT.JStr("ugudu"), "version" := PT.JStr("0.1.0")])])
  }

  /** A tools/call result: one text item, flagged when the handler failed. */
  function TextContent(text: string, isError: bool): PT.Json {
    var content := PT.JArr([PT.JObj(map["type" := PT.JStr("text"), "text" := PT.JStr(text)])]);
    if isError then PT.JObj(map["content" := content, "isError" := PT.JBool(true)])
    else PT.JObj(map["content" := content])
  }

  /** The text a client reads from a tools/call result. */
  function ContentText(result: PT.Json): Option<string> {
    if result.JObj? && "content" in result.fields && result.fields["content"].JArr?
      && |result.fields["content"].items| == 1 && result.fields["content"].items[0].JObj?
      && "text" in result.fields["content"].items[0].fields
      && result.fields["content"].items[0].fields["text"].JStr?
    then Some(result.fields["content"].items[0].fields["text"].s)
    else None
  }

  predicate IsErrorResult(result: PT.Json) {
    result.JObj? && "isError" in result.fields && result.fields["isError"] == PT.JBool(true)
  }

  /** A client reads back the text and the error flag a result was built with. */
  lemma TextContentReadBack(text: string, isError: bool)
    ensures ContentText(TextContent(text, isError)) == Some(text)
    ensures IsErrorResult(TextContent(text, isError)) <==> isError
  {
  }

  /** `handleToolsCall`. */
  function CallReply(tools: map<string, Tool>, msg: Message, codec: Codec): Reply {
    match codec.params(msg.params)
    case None => ErrorReply(msg.id, InvalidParams, "Invalid params")
    case Some(p) =>
      if p.name !in tools then ErrorReply(msg.id, InvalidParams, "Unknown tool: " + p.name)
      else match tools[p.name].handler(p.arguments)
        case Err(e) => ResultReply(msg.id, TextContent("Error: " + e, true))
        case Ok(Text(t)) => ResultReply(msg.id, TextContent(t, false))
        case Ok(Value(v)) => ResultReply(msg.id, TextContent(codec.indent(v), false))
  }

  /**
   * What a tools/call answers: -32602 for undecodable params or an unknown
   * tool; otherwise a result whose error flag is set exactly when the
   * handler failed, whose text is "Error: " and the failure, the string
   * the handler returned, or the indented JSON of its value.
   */
  lemma CallReplyCases(tools: map<string, Tool>, msg: Message, codec: Codec)
    ensures var r := CallReply(tools, msg, codec);
      && WellFormed(r) && r.id == msg.id
      && (codec.params(msg.params).None? ==> r.error == Some(RpcError(InvalidParams, "Invalid params")))
      && (codec.params(msg.params).Some? && codec.params(msg.params).value.name !in tools ==>
            r.error == Some(RpcError(InvalidParams, "Unknown tool: " + codec.params(msg.params).value.name)))
      && (r.error.Some? <==> codec.params(msg.params).None? || codec.params(msg.params).value.name !in tools)
      && (r.result.Some? ==>
            var p := codec.params(msg.params).value;
            var out := tools[p.name].handler(p.arguments);
            && (IsErrorResult(r.result.value) <==> out.Err?)
            && (out.Err? ==> ContentText(r.result.value) == Some("Error: " + out.error))
            && (out.Ok? && out.value.Text? ==> ContentText(r.result.value) == Some(out.value.text))
            && (out.Ok? && out.value.Value? ==> ContentText(r.result.value) == Some(codec.indent(out.value.value))))
  {
    match codec.params(msg.params)
    case None =>
    case Some(p) =>
      if p.name in tools {
        match tools[p.name].handler(p.arguments)
        case Err(e) => TextContentReadBack("Error: " + e, true);
        case Ok(Text(t)) => TextContentReadBack(t, false);
        case Ok(Value(v)) => TextContentReadBack(codec.indent(v), false);
      }
  }

  /** A tools/list entry. */
  function ToolEntry(t: Tool): PT.Json {
    PT.JObj(map["name" := PT.JStr(t.name), "description" := PT.JStr(t.description), "inputSchema" := t.inputSchema])
  }

  function ListReply(id: PT.Json, entries: seq<PT.Json>): Reply {
    ResultReply(id, PT.JObj(map["tools" := PT.JArr(entries)]))
  }

  /** The entries of a tools/list reply: every registered tool once, in some order. */
  ghost predicate ListsEvery(entries: seq<PT.Json>, tools: map<string, Tool>) {
    && |entries| == |tools|
    && (forall n :: n in tools ==> ToolEntry(tools[n]) in entries)
    && (forall e :: e in entries ==> exists n :: n in tools && e == ToolEntry(tools[n]))
  }

  /** The reply the server owes a message. */
  ghost predicate Answers(tools: map<string, Tool>, msg: Message, codec: Codec, r: Option<Reply>) {
    if msg.methodName == "initialize" then r == Some(ResultReply(msg.id, InitializeResult()))
    else if msg.methodName == "tools/list" then exists entries :: ListsEvery(entries, tools) && r == Some(ListReply(msg.id, entries))
    else if msg.methodName == "tools/call" then r == Some(CallReply(tools, msg, codec))
    else if msg.methodName == "notifications/initialized" then r == None
    else r == Some(ErrorReply(msg.id, MethodNotFound, "Method not found"))
  }

  /** Only the initialized notification goes unanswered; every reply is well formed and carries the request's ID. */
  lemma AnswerShape(tools: map<string, Tool>, msg: Message, codec: Codec, r: Option<Reply>)
    requires Answers(tools, msg, codec, r)
    ensures r.None? <==> msg.methodName == "notifications/initialized"
    ensures r.Some? ==> WellFormed(r.value) && r.value.id == msg.id
    ensures msg.methodName !in {"initialize", "tools/list", "tools/call", "notifications/initialized"} ==>
      r.Some? && r.value.error == Some(RpcError(MethodNotFound, "Method not found"))
  {
    if msg.methodName == "tools/call" {
      CallReplyCases(tools, msg, codec);
    }
  }

  class Server {
    var tools: map<string, Tool>
    var running: bool

    /** `NewServer` without the daemon connection: an empty tool map, then `registerTools`. */
    constructor (handlers: string -> Handler, catalogue: string -> Entry)
      ensures tools == Registered(handlers, catalogue) && !running
    {
      tools := map[];
      running := false;
      new;
      RegisterTools(handlers, catalogue);
    }

    method Register(name: string, handlers: string -> Handler, catalogue: string -> Entry)
      modifies this
      ensures tools == old(tools)[name := MakeTool(name, handlers, catalogue)]
      ensures running == old(running)
    {
      tools := tools[name := MakeTool(name, handlers, catalogue)];
    }

    /** `registerTools`: each tool filed under its own name. */
    method RegisterTools(handlers: string -> Handler, catalogue: string -> Entry)
      requires tools == map[]
      modifies this
      ensures tools == Registered(handlers, catalogue)
      ensures running == old(running)
    {
      var i := 0;
      while i < |ToolNames|
        invariant 0 <= i <= |ToolNames|
        invariant running == old(running)
        invariant tools == RegisteredFirst(handlers, catalogue, i)
      {
        Register(ToolNames[i], handlers, catalogue);
        RegisteredNext(handlers, catalogue, i);
        i := i + 1;
      }
      RegisteredAll(handlers, catalogue);
    }

    /** `handleToolsList`: one entry per registered tool, in the map's iteration order. */
    method HandleToolsList(msg: Message) returns (r: Reply, entries: seq<PT.Json>)
      ensures ListsEvery(entries, tools)
      ensures r == ListReply(msg.id, entries)
    {
      entries := [];
      var remaining := tools.Keys;
      while remaining != {}
        invariant remaining <= tools.Keys
        invariant |entries| + |remaining| == |tools|
        invariant forall n :: n in tools && n !in remaining ==> ToolEntry(tools[n]) in entries
        invariant forall e :: e in entries ==> exists n :: n in tools && n !in remaining && e == ToolEntry(tools[n])
        decreases |remaining|
      {
        var n :| n in remaining;
        entries := entries + [ToolEntry(tools[n])];
        remaining := remaining - {n};
      }
      r := ListReply(msg.id, entries);
    }

    /** `handleMessage`. */
    method HandleMessage(msg: Message, codec: Codec) returns (r: Option<Reply>)
      ensures Answers(tools, msg, codec, r)
    {
      if msg.methodName == "initialize" {
        r := Some(ResultReply(msg.id, InitializeResult()));
      } else if msg.methodName == "tools/list" {
        var reply, entries := HandleToolsList(msg);
        r := Some(reply);
      } else if msg.methodName == "tools/call" {
        r := Some(CallReply(tools, msg, codec));
      } else if msg.methodName == "notifications/initialized" {
        r := None;
      } else {
        r := Some(ErrorReply(msg.id, MethodNotFound, "Method not found"));
      }
    }

    /**
     * `Run` over what stdin delivers: `input`, then EOF, or the read
     * error `readError`. A final piece without a newline is not a line
     * and is never handled.
     */
    method Run(input: string, readError: Option<string>, codec: Codec) returns (sent: seq<Reply>, err: Option<string>)
      modifies this
      ensures running && tools == old(tools)
      ensures err == (if readError.Some? then Some("read error: " + readError.value) else None)
      ensures var msgs := Answered(CompleteLines(input), codec);
        |sent| == |msgs| && forall k :: 0 <= k < |sent| ==> Answers(tools, msgs[k], codec, Some(sent[k]))
    {
      running := true;
      var lines := CompleteLines(input);
      sent := [];
      var i := 0;
      while i < |lines|
        invariant 0 <= i <= |lines|
        invariant running && tools == old(tools)
        invariant var msgs := Answered(lines[..i], codec);
          |sent| == |msgs| && forall k :: 0 <= k < |sent| ==> Answers(tools, msgs[k], codec, Some(sent[k]))
      {
        assert lines[..i + 1][..i] == lines[..i];
        match codec.message(lines[i] + "\n") {
          case None =>
          case Some(msg) =>
            var response := HandleMessage(msg, codec);
            AnswerShape(tools, msg, codec, response);
            if response.Some? {
              sent := sent + [response.value];
            }
        }
        i := i + 1;
      }
      assert lines[..|lines|] == lines;
      if readError.Some? {
        err := Some("read error: " + readError.value);
      } else {
        err := None;
      }
    }
  }

  /** The newline-terminated lines of the input, without their newlines. */
  function CompleteLines(input: string): seq<string> {
    var parts := Split(input, '\n');
    parts[..|parts| - 1]
  }

  /** The messages that get a reply: lines that decode, other than the initialized notification. */
  function Answered(lines: seq<string>, codec: Codec): seq<Message> {
    if lines == [] then []
    else
      var rest := Answered(lines[..|lines| - 1], codec);
      match codec.message(lines[|lines| - 1] + "\n")
      case None => rest
      case Some(msg) => if msg.methodName == "notifications/initialized" then rest else rest + [msg]
  }

  /** Lines that fail to decode and notifications add nothing: at most one reply per line. */
  lemma {:induction false} AnsweredBound(lines: seq<string>, codec: Codec)
    ensures |Answered(lines, codec)| <= |lines|
    decreases |lines|
  {
    if lines != [] {
      AnsweredBound(lines[..|lines| - 1], codec);
    }
  }

  /** Input with no newline at all gets no reply. */
  lemma UnterminatedIgnored(input: string, codec: Codec)
    requires '\n' !in input
    ensures Answered(CompleteLines(input), codec) == []
  {
    NoSeparator(input);
  }
}
