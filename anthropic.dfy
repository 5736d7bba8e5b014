/**
 * The Anthropic provider: conversion between the provider-independent chat
 * types and the Messages API bodies, and the rate-limit gate in front of
 * each chat call. The HTTP exchange is an input: `CallResult` is what one
 * request came back with.
 */
module Anthropic {
  import opened Wrappers
  import opened ProviderTypes
  import opened RateLimit

  const AnthropicAPIURL: string := "https://api.anthropic.com/v1"
  const DefaultMaxTokens: int := 4096

  /** The `{"type": "text", ...}` content block. */
  function TextBlock(text: string): Json {
    JObj(map["type" := JStr("text"), "text" := JStr(text)])
  }

  /** A tool call as a `tool_use` block; `decode` stands for unmarshalling its argument text. */
  function ToolUseBlock(tc: ToolCall, decode: string -> Json): Json {
    JObj(map["type" := JStr("tool_use"), "id" := JStr(tc.id), "name" := JStr(tc.name), "input" := decode(tc.arguments)])
  }

  function ToolResultBlock(msg: Message): Json {
    JObj(map["type" := JStr("tool_result"), "tool_use_id" := JStr(msg.toolCallId), "content" := JStr(msg.content)])
  }

  /** The content blocks of an assistant message with tool calls: its text if any, then one block per call. */
  function AssistantBlocks(msg: Message, decode: string -> Json): (b: seq<Json>)
    ensures var t := if msg.content != "" then 1 else 0;
      && |b| == t + |msg.toolCalls|
      && (t == 1 ==> b[0] == TextBlock(msg.content))
      && forall k :: 0 <= k < |msg.toolCalls| ==> b[t + k] == ToolUseBlock(msg.toolCalls[k], decode)
  {
    var text := if msg.content != "" then [TextBlock(msg.content)] else [];
    text + seq(|msg.toolCalls|, k requires 0 <= k < |msg.toolCalls| => ToolUseBlock(msg.toolCalls[k], decode))
  }

  /** One non-system message in Messages API form. */
  function ConvertMessage(msg: Message, decode: string -> Json): Json {
    if msg.role == "tool" then
      JObj(map["role" := JStr("user"), "content" := JArr([ToolResultBlock(msg)])])
    else if msg.role == "assistant" && |msg.toolCalls| > 0 then
      JObj(map["role" := JStr("assistant"), "content" := JArr(AssistantBlocks(msg, decode))])
    else
      JObj(map["role" := JStr(msg.role), "content" := JStr(msg.content)])
  }

  /** The message loop of `convertRequest`: system messages are taken out, the rest converted in order. */
  function ConvertMessages(msgs: seq<Message>, decode: string -> Json): seq<Json> {
    if msgs == [] then []
    else
      var init := ConvertMessages(msgs[..|msgs| - 1], decode);
      var m := msgs[|msgs| - 1];
      if m.role == "system" then init else init + [ConvertMessage(m, decode)]
  }

  /** The `system` prompt: the content of the last system message, or "" when there is none. */
  function SystemPrompt(msgs: seq<Message>): string {
    if msgs == [] then ""
    else if msgs[|msgs| - 1].role == "system" then msgs[|msgs| - 1].content
    else SystemPrompt(msgs[..|msgs| - 1])
  }

  /** The messages that are not system messages, in order. */
  function NonSystem(msgs: seq<Message>): (r: seq<Message>)
    ensures forall m :: m in r ==> m in msgs && m.role != "system"
  {
    if msgs == [] then []
    else if msgs[0].role == "system" then NonSystem(msgs[1..])
    else [msgs[0]] + NonSystem(msgs[1..])
  }

  lemma {:induction false} NonSystemSnoc(msgs: seq<Message>, m: Message)
    ensures NonSystem(msgs + [m]) == NonSystem(msgs) + (if m.role == "system" then [] else [m])
    decreases |msgs|
  {
    if msgs != [] {
      assert (msgs + [m])[1..] == msgs[1..] + [m];
      NonSystemSnoc(msgs[1..], m);
    } else {
      assert NonSystem([m][1..]) == [];
    }
  }

  /** Exactly the non-system messages are sent, each converted, in their original order. */
  lemma {:induction false} ConvertMessagesInOrder(msgs: seq<Message>, decode: string -> Json)
    ensures |ConvertMessages(msgs, decode)| == |NonSystem(msgs)|
    ensures forall i :: 0 <= i < |NonSystem(msgs)| ==>
      ConvertMessages(msgs, decode)[i] == ConvertMessage(NonSystem(msgs)[i], decode)
    decreases |msgs|
  {
    if msgs != [] {
      var init := msgs[..|msgs| - 1];
      var m := msgs[|msgs| - 1];
      assert msgs == init + [m];
      ConvertMessagesInOrder(init, decode);
      NonSystemSnoc(init, m);
    }
  }

  /** Message `i` is the last system message. */
  predicate IsLastSystem(msgs: seq<Message>, i: int) {
    0 <= i < |msgs| && msgs[i].role == "system" && forall j :: i < j < |msgs| ==> msgs[j].role != "system"
  }

  /** Without a system message the system prompt is "". */
  lemma {:induction false} NoSystemPrompt(msgs: seq<Message>)
    requires forall i :: 0 <= i < |msgs| ==> msgs[i].role != "system"
    ensures SystemPrompt(msgs) == ""
    decreases |msgs|
  {
    if msgs != [] {
      var init := msgs[..|msgs| - 1];
      assert forall i :: 0 <= i < |init| ==> init[i] == msgs[i];
      NoSystemPrompt(init);
    }
  }

  /** The system prompt is the content of the last system message. */
  lemma {:induction false} SystemPromptIsLast(msgs: seq<Message>, i: int)
    requires IsLastSystem(msgs, i)
    ensures SystemPrompt(msgs) == msgs[i].content
    decreases |msgs|
  {
    if i < |msgs| - 1 {
      var init := msgs[..|msgs| - 1];
      assert IsLastSystem(init, i);
      SystemPromptIsLast(init, i);
    }
  }

  /** The schema of a tool without parameters: an object with no properties. */
  const EmptySchema: map<string, Json> := map["type" := JStr("object"), "properties" := JObj(map[])]

  function InputSchema(t: Tool): (s: map<string, Json>)
    ensures t.parameters.Some? ==> s == t.parameters.value
    ensures t.parameters.None? ==> s == EmptySchema
  {
    match t.parameters
    case Some(p) => p
    case None => EmptySchema
  }

  function ToolJson(t: Tool): Json {
    JObj(map["name" := JStr(t.name), "description" := JStr(t.description), "input_schema" := JObj(InputSchema(t))])
  }

  /** `convertRequest`: the JSON body of a Messages API request. */
  function ConvertRequest(req: ChatRequest, decode: string -> Json): map<string, Json> {
    var system := SystemPrompt(req.messages);
    var body := map["model" := JStr(req.model), "messages" := JArr(ConvertMessages(req.messages, decode)),
                    "max_tokens" := JInt(DefaultMaxTokens)];
    var body := if system != "" then body["system" := JStr(system)] else body;
    var body := if req.maxTokens.Some? then body["max_tokens" := JInt(req.maxTokens.value)] else body;
    var body := if req.temperature.Some? then body["temperature" := JReal(req.temperature.value)] else body;
    if |req.tools| > 0 then
      body["tools" := JArr(seq(|req.tools|, i requires 0 <= i < |req.tools| => ToolJson(req.tools[i])))]
    else body
  }

  /** Which keys the request body carries, and the value of each optional one. */
  lemma ConvertRequestKeys(req: ChatRequest, decode: string -> Json)
    ensures var r := ConvertRequest(req, decode);
      && r["model"] == JStr(req.model)
      && r["messages"] == JArr(ConvertMessages(req.messages, decode))
      && r["max_tokens"] == JInt(req.maxTokens.GetOr(DefaultMaxTokens))
      && ("system" in r <==> SystemPrompt(req.messages) != "")
      && ("system" in r ==> r["system"] == JStr(SystemPrompt(req.messages)))
      && ("temperature" in r <==> req.temperature.Some?)
      && ("temperature" in r ==> r["temperature"] == JReal(req.temperature.value))
      && ("tools" in r <==> |req.tools| > 0)
      && r.Keys <= {"model", "messages", "max_tokens", "system", "temperature", "tools"}
  {
  }

  /** Each tool is sent with its name, description and schema, in order. */
  lemma ConvertRequestTools(req: ChatRequest, decode: string -> Json)
    requires |req.tools| > 0
    ensures var r := ConvertRequest(req, decode);
      && r["tools"].JArr? && |r["tools"].items| == |req.tools|
      && forall i :: 0 <= i < |req.tools| ==>
           r["tools"].items[i] == JObj(map["name" := JStr(req.tools[i].name),
                                         "description" := JStr(req.tools[i].description),
                                         "input_schema" := JObj(InputSchema(req.tools[i]))])
  {
  }

  /** A content block of a Messages API response. */
  datatype ContentBlock = ContentBlock(kind: string, text: string, id: string, name: string, input: Json)

  datatype AnthropicResponse = AnthropicResponse(content: seq<ContentBlock>, stopReason: string,
                                                 inputTokens: int, outputTokens: int)

  /** The block loop of `convertResponse`: text blocks are concatenated, tool-use blocks become calls. */
  function Accumulate(blocks: seq<ContentBlock>, encode: Json -> string): (string, seq<ToolCall>) {
    if blocks == [] then ("", [])
    else
      var acc := Accumulate(blocks[..|blocks| - 1], encode);
      var b := blocks[|blocks| - 1];
      if b.kind == "text" then (acc.0 + b.text, acc.1)
      else if b.kind == "tool_use" then (acc.0, acc.1 + [ToolCall(b.id, b.name, encode(b.input))])
      else acc
  }

  /** The blocks of one kind, in order. */
  function OfKind(blocks: seq<ContentBlock>, kind: string): (r: seq<ContentBlock>)
    ensures forall b :: b in r ==> b.kind == kind
  {
    if blocks == [] then []
    else (if blocks[0].kind == kind then [blocks[0]] else []) + OfKind(blocks[1..], kind)
  }

  /** The texts of some blocks, joined without separator. */
  function Texts(blocks: seq<ContentBlock>): string {
    if blocks == [] then "" else blocks[0].text + Texts(blocks[1..])
  }

  lemma {:induction false} OfKindSnoc(blocks: seq<ContentBlock>, b: ContentBlock, kind: string)
    ensures OfKind(blocks + [b], kind) == OfKind(blocks, kind) + (if b.kind == kind then [b] else [])
    decreases |blocks|
  {
    if blocks != [] {
      assert (blocks + [b])[1..] == blocks[1..] + [b];
      OfKindSnoc(blocks[1..], b, kind);
    } else {
      assert OfKind([b][1..], kind) == [];
    }
  }

  lemma {:induction false} TextsSnoc(blocks: seq<ContentBlock>, b: ContentBlock)
    ensures Texts(blocks + [b]) == Texts(blocks) + b.text
    decreases |blocks|
  {
    if blocks != [] {
      assert (blocks + [b])[1..] == blocks[1..] + [b];
      TextsSnoc(blocks[1..], b);
    } else {
      assert Texts([b][1..]) == "";
    }
  }

  /** The content is the text blocks' texts in order; the calls are the tool-use blocks, in order. */
  lemma {:induction false} AccumulateInOrder(blocks: seq<ContentBlock>, encode: Json -> string)
    ensures Accumulate(blocks, encode).0 == Texts(OfKind(blocks, "text"))
    ensures |Accumulate(blocks, encode).1| == |OfKind(blocks, "tool_use")|
    ensures forall k :: 0 <= k < |OfKind(blocks, "tool_use")| ==>
      var b := OfKind(blocks, "tool_use")[k];
      Accumulate(blocks, encode).1[k] == ToolCall(b.id, b.name, encode(b.input))
    decreases |blocks|
  {
    if blocks != [] {
      var init := blocks[..|blocks| - 1];
      var b := blocks[|blocks| - 1];
      assert blocks == init + [b];
      AccumulateInOrder(init, encode);
      OfKindSnoc(init, b, "text");
      OfKindSnoc(init, b, "tool_use");
      if b.kind == "text" {
        TextsSnoc(OfKind(init, "text"), b);
        assert Texts(OfKind(blocks, "text")) == Texts(OfKind(init, "text")) + b.text;
      } else {
        assert OfKind(blocks, "text") == OfKind(init, "text");
      }
    }
  }

  /** `convertResponse`; `encode` stands for marshalling a tool input back to text. */
  function ConvertResponse(resp: AnthropicResponse, model: string, encode: Json -> string): (r: ChatResponse)
    ensures r.provider == "anthropic" && r.model == model && r.finishReason == resp.stopReason
    ensures r.usage == Usage(resp.inputTokens, resp.outputTokens, resp.inputTokens + resp.outputTokens)
    ensures (r.content, r.toolCalls) == Accumulate(resp.content, encode)
  {
    var acc := Accumulate(resp.content, encode);
    ChatResponse(acc.0, acc.1, model, "anthropic",
                 Usage(resp.inputTokens, resp.outputTokens, resp.inputTokens + resp.outputTokens), resp.stopReason)
  }

  /** What one HTTP request came back with: an answer, a 429 with its parsed limit and body, or another failure. */
  datatype CallResult = Answer(resp: ChatResponse) | Limited(info: RateLimitInfo, body: string) | CallFailed(text: string)

  /** What `Chat` gives its caller. `Waiting` is a request parked in the queue for the resume worker. */
  datatype ChatOutcome = Reply(resp: ChatResponse) | Error(err: ProviderError) | Waiting(pending: PendingRequest)

  /** The recorded limit with the latest reset time, if any. */
  predicate IsLatest(limits: map<LimitType, RateLimitInfo>, r: Option<RateLimitInfo>) {
    && (r.None? <==> limits == map[])
    && (r.Some? ==> r.value in limits.Values && forall t :: t in limits ==> limits[t].resetAt <= r.value.resetAt)
  }

  class AnthropicProvider {
    const apiKey: string
    const baseURL: string
    const state: RateLimitState
    const queue: RequestQueue
    const autoResume: bool
    var resumeWorker: bool

    /**
     * `NewAnthropic`: the two callback options register on the rate-limit
     * state; the queue holds at most 100 requests.
     */
    constructor(apiKey: string, baseURL: string, autoResume: bool, onRateLimited: bool, onResume: bool)
      ensures this.apiKey == apiKey
      ensures this.baseURL == (if baseURL == "" then AnthropicAPIURL else baseURL)
      ensures this.autoResume == autoResume && !resumeWorker
      ensures fresh(state) && fresh(queue)
      ensures state.limits == map[] && !state.isRateLimited && state.resumeAt == 0
      ensures state.callbacks == (if onRateLimited then 1 else 0) && state.hasResumeCallback == onResume
      ensures queue.requests == [] && queue.maxSize == DefaultQueueSize && queue.Valid()
    {
      this.apiKey := apiKey;
      this.baseURL := if baseURL == "" then AnthropicAPIURL else baseURL;
      this.autoResume := autoResume;
      resumeWorker := false;
      var s := new RateLimitState();
      if onRateLimited {
        s.OnRateLimited();
      }
      if onResume {
        s.OnResume();
      }
      state := s;
      queue := new RequestQueue(100);
    }

    /** `getActiveRateLimit`: the recorded limit with the latest reset time. */
    method GetActiveRateLimit() returns (latest: Option<RateLimitInfo>)
      ensures IsLatest(state.limits, latest)
    {
      var limits := state.GetLimits();
      var left := limits.Keys;
      latest := None;
      while left != {}
        invariant left <= limits.Keys
        invariant latest.None? <==> left == limits.Keys
        invariant latest.Some? ==> latest.value in limits.Values
        invariant forall t :: t in limits && t !in left ==> limits[t].resetAt <= latest.value.resetAt
        decreases left
      {
        var t :| t in left;
        if latest.None? || limits[t].resetAt > latest.value.resetAt {
          latest := Some(limits[t]);
        }
        left := left - {t};
      }
    }

    /** `queueAndWait` up to the wait: park the request, or fail when the queue is full. */
    method QueueAndWait(req: ChatRequest, pendingId: string, at: int) returns (out: ChatOutcome)
      requires queue.Valid()
      modifies this, queue
      ensures queue.Valid() && queue.maxSize == old(queue.maxSize)
      ensures old(|queue.requests|) >= queue.maxSize ==>
        && out == Error(Failed("queue full: request queue full"))
        && queue.requests == old(queue.requests) && resumeWorker == old(resumeWorker)
      ensures old(|queue.requests|) < queue.maxSize ==>
        && out == Waiting(PendingRequest(pendingId, req, at))
        && queue.requests == old(queue.requests) + [PendingRequest(pendingId, req, at)]
        && resumeWorker
    {
      var pending := PendingRequest(pendingId, req, at);
      var err := queue.Add(pending);
      if err.Some? {
        assert "queue full: " + err.value == "queue full: request queue full";
        return Error(Failed("queue full: " + err.value));
      }
      resumeWorker := true;
      out := Waiting(pending);
    }

    /**
     * `Chat`. `now` is the clock at the gate and `later` after the request
     * returned; `rfc3339` formats an instant; `call` is the request's outcome,
     * used only when the gate lets the request through, and `during` a limit
     * another caller recorded while the request was in flight.
     */
    method Chat(req: ChatRequest, now: int, later: int, pendingId: string, rfc3339: int -> string,
                call: CallResult, during: Option<RateLimitInfo>)
      returns (out: ChatOutcome)
      requires queue.Valid()
      requires now <= later
      modifies this, state, queue
      ensures queue.Valid()
      // Limited at the gate: nothing is sent.
      ensures old(state.IsRateLimited(now)) && !autoResume ==>
        && out.Error? && out.err.RateLimited?
        && out.err.rle.message == "rate limited - retry after " + rfc3339(old(state.resumeAt))
        && IsLatest(old(state.limits), out.err.rle.info)
        && queue.requests == old(queue.requests)
        && state.limits == old(state.limits) && state.isRateLimited == old(state.isRateLimited)
      ensures old(state.IsRateLimited(now)) && autoResume ==>
        && state.limits == old(state.limits) && state.isRateLimited == old(state.isRateLimited)
        && (old(|queue.requests|) < queue.maxSize ==> out == Waiting(PendingRequest(pendingId, req, now)))
        && (old(|queue.requests|) >= queue.maxSize ==> out.Error?)
      // Let through: the outcome of the request decides.
      ensures !old(state.IsRateLimited(now)) && call.Answer? ==>
        && out == Reply(call.resp) && !state.IsRateLimited(later) && queue.requests == old(queue.requests)
        && (during.Some? && later <= during.value.resetAt ==> state.limits == map[])
        && (during.None? ==> state.limits == old(state.limits))
      ensures !old(state.IsRateLimited(now)) && call.CallFailed? && during.None? ==>
        && out == Error(Failed(call.text)) && queue.requests == old(queue.requests)
        && state.limits == old(state.limits) && state.isRateLimited == old(state.isRateLimited)
      ensures !old(state.IsRateLimited(now)) && call.Limited? && during.None? ==>
        && state.isRateLimited && state.limits == old(state.limits)[call.info.kind := call.info]
        && state.resumeAt == Max(old(state.resumeAt), call.info.resetAt) && resumeWorker
        && (!autoResume ==> out == Error(RateLimited(RateLimitError(Some(call.info), call.body))))
        && (autoResume && old(|queue.requests|) < queue.maxSize ==> out == Waiting(PendingRequest(pendingId, req, later)))
    {
      if state.IsRateLimited(now) {
        if autoResume {
          out := QueueAndWait(req, pendingId, now);
          return;
        }
        var info := GetActiveRateLimit();
        return Error(RateLimited(RateLimitError(info, "rate limited - retry after " + rfc3339(state.GetResumeTime()))));
      }
      if during.Some? {
        var _ := state.RecordRateLimit(during.value);
      }
      match call {
        case CallFailed(text) =>
          out := Error(Failed(text));
        case Limited(info, body) =>
          var _ := state.RecordRateLimit(info);
          resumeWorker := true;
          if autoResume {
            out := QueueAndWait(req, pendingId, later);
          } else {
            out := Error(RateLimited(RateLimitError(Some(info), body)));
          }
        case Answer(resp) =>
          if state.IsRateLimited(later) {
            var _ := state.ClearRateLimit();
          }
          out := Reply(resp);
      }
    }
  }
}
