/**
 * The OpenRouter provider's conversion between the provider-independent chat
 * types and its OpenAI-compatible bodies, which also carry tool results and
 * assistant tool calls.
 */
module OpenRouter {
  import opened ProviderTypes
  import OpenAI

  const OpenRouterAPIURL: string := "https://openrouter.ai/api/v1"

  class OpenRouterProvider {
    const apiKey: string
    const baseURL: string
    const siteName: string
    const siteURL: string

    /** `NewOpenRouter`: the attribution name defaults to "Ugudu"; the base URL is fixed. */
    constructor(apiKey: string, siteName: string, siteURL: string)
      ensures this.apiKey == apiKey && this.baseURL == OpenRouterAPIURL && this.siteURL == siteURL
      ensures this.siteName == (if siteName == "" then "Ugudu" else siteName)
    {
      this.apiKey := apiKey;
      this.baseURL := OpenRouterAPIURL;
      this.siteName := if siteName == "" then "Ugudu" else siteName;
      this.siteURL := siteURL;
    }
  }

  /** One assistant tool call as a "function" entry. */
  function ToolCallEntry(tc: ToolCall): Json {
    JObj(map["id" := JStr(tc.id), "type" := JStr("function"),
             "function" := JObj(map["name" := JStr(tc.name), "arguments" := JStr(tc.arguments)])])
  }

  /** The fields of one converted message. */
  function MessageFields(msg: Message, calls: seq<Json>): map<string, Json> {
    var m := map["role" := JStr(msg.role), "content" := JStr(msg.content)];
    var m := if msg.role == "tool" && msg.toolCallId != "" then m["role" := JStr("tool")]["tool_call_id" := JStr(msg.toolCallId)] else m;
    if msg.role == "assistant" && |msg.toolCalls| > 0 then m["tool_calls" := JArr(calls)] else m
  }

  /** One message: role and content, plus `tool_call_id` for a tool result and `tool_calls` for an assistant's calls. */
  function RouterMessage(msg: Message): Json {
    JObj(MessageFields(msg, seq(|msg.toolCalls|, j requires 0 <= j < |msg.toolCalls| => ToolCallEntry(msg.toolCalls[j]))))
  }

  /** Which keys a converted message carries. */
  lemma RouterMessageKeys(msg: Message)
    ensures var f := RouterMessage(msg).fields;
      && f["role"] == JStr(msg.role) && f["content"] == JStr(msg.content)
      && ("tool_call_id" in f <==> msg.role == "tool" && msg.toolCallId != "")
      && ("tool_call_id" in f ==> f["tool_call_id"] == JStr(msg.toolCallId))
      && ("tool_calls" in f <==> msg.role == "assistant" && |msg.toolCalls| > 0)
      && ("tool_calls" in f ==>
            && f["tool_calls"].JArr? && |f["tool_calls"].items| == |msg.toolCalls|
            && forall j :: 0 <= j < |msg.toolCalls| ==> f["tool_calls"].items[j] == ToolCallEntry(msg.toolCalls[j]))
      && f.Keys <= {"role", "content", "tool_call_id", "tool_calls"}
  {
  }

  /** The inner loop: the calls of one message, filled by index. */
  method ToolCallEntries(calls: seq<ToolCall>) returns (r: seq<Json>)
    ensures |r| == |calls|
    ensures forall j :: 0 <= j < |calls| ==> r[j] == ToolCallEntry(calls[j])
  {
    var a := new Json[|calls|];
    for j := 0 to |calls|
      invariant forall k :: 0 <= k < j ==> a[k] == ToolCallEntry(calls[k])
    {
      a[j] := ToolCallEntry(calls[j]);
    }
    r := a[..];
  }

  /** One pass of `convertRequest`'s message loop: the entry of one message. */
  method RouterEntry(msg: Message) returns (e: Json)
    ensures e == RouterMessage(msg)
  {
    var calls: seq<Json> := [];
    if msg.role == "assistant" && |msg.toolCalls| > 0 {
      calls := ToolCallEntries(msg.toolCalls);
      assert calls == seq(|msg.toolCalls|, j requires 0 <= j < |msg.toolCalls| => ToolCallEntry(msg.toolCalls[j]));
    }
    assert MessageFields(msg, calls) == RouterMessage(msg).fields;
    e := JObj(MessageFields(msg, calls));
  }

  /** `convertRequest`'s message loop, filling one slot per message. */
  method RouterMessages(msgs: seq<Message>) returns (items: seq<Json>)
    ensures |items| == |msgs|
    ensures forall i :: 0 <= i < |msgs| ==> items[i] == RouterMessage(msgs[i])
  {
    var messages := new Json[|msgs|];
    for i := 0 to |msgs|
      invariant forall k :: 0 <= k < i ==> messages[k] == RouterMessage(msgs[k])
    {
      messages[i] := RouterEntry(msgs[i]);
    }
    items := messages[..];
  }

  /** `convertRequest`: one entry per input message, in order; optional keys only when set. */
  method ConvertRequest(req: ChatRequest) returns (body: map<string, Json>)
    ensures "model" in body && body["model"] == JStr(req.model)
    ensures "messages" in body && body["messages"].JArr? && |body["messages"].items| == |req.messages|
    ensures forall i :: 0 <= i < |req.messages| ==> body["messages"].items[i] == RouterMessage(req.messages[i])
    ensures SamplingKeys(body, req)
    ensures "tools" in body <==> |req.tools| > 0
    ensures |req.tools| > 0 ==> body["tools"].JArr? && |body["tools"].items| == |req.tools|
    ensures |req.tools| > 0 ==> forall i :: 0 <= i < |req.tools| ==> body["tools"].items[i] == FunctionTool(req.tools[i])
    ensures body.Keys <= {"model", "messages", "max_tokens", "temperature", "stop", "tools"}
  {
    var messages := RouterMessages(req.messages);
    body := map["model" := JStr(req.model), "messages" := JArr(messages)];
    body := AddSampling(body, req);
    if |req.tools| > 0 {
      var tools := FunctionTools(req.tools);
      body := body["tools" := JArr(tools)];
    }
  }

  /** `convertResponse`: the OpenAI response shape read for "openrouter". */
  method ConvertResponse(resp: OpenAI.OpenAIResponse) returns (r: ChatResponse)
    ensures OpenAI.FromFirstChoice(r, resp, "openrouter")
  {
    r := OpenAI.ConvertChoices(resp, "openrouter");
  }
}
