/**
 * The provider-independent chat types of the provider package, and a JSON
 * value type for the request bodies the provider converters build.
 */
module ProviderTypes {
  import opened Wrappers

  /** A decoded JSON value. `interface{}` maps of Go become `JObj`. */
  datatype Json =
    | JNull
    | JBool(b: bool)
    | JInt(i: int)
    | JReal(r: real)
    | JStr(s: string)
    | JArr(items: seq<Json>)
    | JObj(fields: map<string, Json>)

  datatype ToolCall = ToolCall(id: string, name: string, arguments: string)

  datatype Message = Message(role: string, content: string, toolCalls: seq<ToolCall>, toolCallId: string)

  /** `Parameters` is `None` for a nil map, which is not the same as an empty one. */
  datatype Tool = Tool(name: string, description: string, parameters: Option<map<string, Json>>)

  datatype ChatRequest = ChatRequest(
    model: string,
    messages: seq<Message>,
    tools: seq<Tool>,
    temperature: Option<real>,
    maxTokens: Option<int>,
    stop: seq<string>)

  datatype Usage = Usage(promptTokens: int, completionTokens: int, totalTokens: int)

  datatype ChatResponse = ChatResponse(
    content: string,
    toolCalls: seq<ToolCall>,
    model: string,
    provider: string,
    usage: Usage,
    finishReason: string)

  datatype ModelInfo = ModelInfo(id: string, name: string, provider: string, maxTokens: int, description: string)

  /** A plain message with only a role and content. */
  function TextMessage(role: string, content: string): Message {
    Message(role, content, [], "")
  }

  /** A response that carries only provider and model, as every converter returns for an empty choice list. */
  function EmptyResponse(provider: string, model: string): ChatResponse {
    ChatResponse("", [], model, provider, Usage(0, 0, 0), "")
  }

  /** A message as `{role, content}`: what the OpenAI-compatible converters send. */
  function PlainMessage(m: Message): Json {
    JObj(map["role" := JStr(m.role), "content" := JStr(m.content)])
  }

  /** Fills a list the length of `msgs` by index, one `{role, content}` per message. */
  method PlainMessages(msgs: seq<Message>) returns (r: seq<Json>)
    ensures |r| == |msgs|
    ensures forall i :: 0 <= i < |msgs| ==> r[i] == PlainMessage(msgs[i])
  {
    var a := new Json[|msgs|];
    for i := 0 to |msgs|
      invariant forall k :: 0 <= k < i ==> a[k] == PlainMessage(msgs[k])
    {
      a[i] := PlainMessage(msgs[i]);
    }
    r := a[..];
  }

  /** The `parameters` of a function tool: an object schema whose properties are the tool's (null when nil). */
  function FunctionTool(t: Tool): Json {
    var properties := match t.parameters case Some(p) => JObj(p) case None => JNull;
    JObj(map[
      "type" := JStr("function"),
      "function" := JObj(map[
        "name" := JStr(t.name),
        "description" := JStr(t.description),
        "parameters" := JObj(map["type" := JStr("object"), "properties" := properties])])])
  }

  /** Fills a list the length of `tools` by index, one function entry per tool. */
  method FunctionTools(tools: seq<Tool>) returns (r: seq<Json>)
    ensures |r| == |tools|
    ensures forall i :: 0 <= i < |tools| ==> r[i] == FunctionTool(tools[i])
  {
    var a := new Json[|tools|];
    for i := 0 to |tools|
      invariant forall k :: 0 <= k < i ==> a[k] == FunctionTool(tools[k])
    {
      a[i] := FunctionTool(tools[i]);
    }
    r := a[..];
  }

  function StopJson(stop: seq<string>): Json {
    JArr(seq(|stop|, i requires 0 <= i < |stop| => JStr(stop[i])))
  }

  /** max_tokens and temperature are present exactly when set, stop exactly when non-empty. */
  predicate SamplingKeys(body: map<string, Json>, req: ChatRequest) {
    && ("max_tokens" in body <==> req.maxTokens.Some?)
    && (req.maxTokens.Some? ==> body["max_tokens"] == JInt(req.maxTokens.value))
    && ("temperature" in body <==> req.temperature.Some?)
    && (req.temperature.Some? ==> body["temperature"] == JReal(req.temperature.value))
    && ("stop" in body <==> |req.stop| > 0)
    && (|req.stop| > 0 ==> body["stop"] == StopJson(req.stop))
  }

  /** Adds the optional sampling keys of an OpenAI-compatible body, one `if` each. */
  method AddSampling(body: map<string, Json>, req: ChatRequest) returns (r: map<string, Json>)
    requires "max_tokens" !in body && "temperature" !in body && "stop" !in body
    ensures SamplingKeys(r, req)
    ensures forall k :: k in body ==> k in r && r[k] == body[k]
    ensures r.Keys <= body.Keys + {"max_tokens", "temperature", "stop"}
  {
    r := body;
    if req.maxTokens.Some? {
      r := r["max_tokens" := JInt(req.maxTokens.value)];
    }
    if req.temperature.Some? {
      r := r["temperature" := JReal(req.temperature.value)];
    }
    if |req.stop| > 0 {
      r := r["stop" := StopJson(req.stop)];
    }
  }
}
