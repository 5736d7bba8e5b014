/**
 * The OpenAI provider's conversion between the provider-independent chat
 * types and the Chat Completions bodies. OpenRouter answers in the same
 * response shape, so `OpenAIResponse` is shared with that provider.
 */
module OpenAI {
  import opened ProviderTypes

  const OpenAIAPIURL: string := "https://api.openai.com/v1"

  datatype OpenAIToolCall = OpenAIToolCall(id: string, name: string, arguments: string)

  datatype ChoiceMessage = ChoiceMessage(role: string, content: string, toolCalls: seq<OpenAIToolCall>)

  datatype Choice = Choice(message: ChoiceMessage, finishReason: string)

  datatype OpenAIResponse = OpenAIResponse(model: string, choices: seq<Choice>, usage: Usage)

  class OpenAIProvider {
    const apiKey: string
    const baseURL: string

    /** `NewOpenAI`: an empty base URL means the public API. */
    constructor(apiKey: string, baseURL: string)
      ensures this.apiKey == apiKey
      ensures this.baseURL == (if baseURL == "" then OpenAIAPIURL else baseURL)
    {
      this.apiKey := apiKey;
      this.baseURL := if baseURL == "" then OpenAIAPIURL else baseURL;
    }
  }

  /**
   * `convertRequest`: one `{role, content}` per message in order, with tool
   * calls and tool-call IDs dropped; optional keys only when set.
   */
  method ConvertRequest(req: ChatRequest) returns (body: map<string, Json>)
    ensures "model" in body && body["model"] == JStr(req.model)
    ensures "messages" in body && body["messages"].JArr? && |body["messages"].items| == |req.messages|
    ensures forall i :: 0 <= i < |req.messages| ==> body["messages"].items[i] == PlainMessage(req.messages[i])
    ensures SamplingKeys(body, req)
    ensures "tools" in body <==> |req.tools| > 0
    ensures |req.tools| > 0 ==> body["tools"].JArr? && |body["tools"].items| == |req.tools|
    ensures |req.tools| > 0 ==> forall i :: 0 <= i < |req.tools| ==> body["tools"].items[i] == FunctionTool(req.tools[i])
    ensures body.Keys <= {"model", "messages", "max_tokens", "temperature", "stop", "tools"}
  {
    var messages := PlainMessages(req.messages);
    body := map["model" := JStr(req.model), "messages" := JArr(messages)];
    body := AddSampling(body, req);
    if |req.tools| > 0 {
      var tools := FunctionTools(req.tools);
      body := body["tools" := JArr(tools)];
    }
  }

  /**
   * `r` is `resp` read for `provider`: only provider and model without a
   * choice, else the first choice with its tool calls kept in order.
   */
  predicate FromFirstChoice(r: ChatResponse, resp: OpenAIResponse, provider: string) {
    && (resp.choices == [] ==> r == EmptyResponse(provider, resp.model))
    && (resp.choices != [] ==>
      && r.content == resp.choices[0].message.content
      && r.finishReason == resp.choices[0].finishReason
      && r.model == resp.model && r.provider == provider && r.usage == resp.usage
      && |r.toolCalls| == |resp.choices[0].message.toolCalls|
      && forall j :: 0 <= j < |r.toolCalls| ==>
           var tc := resp.choices[0].message.toolCalls[j];
           r.toolCalls[j] == ToolCall(tc.id, tc.name, tc.arguments))
  }

  /** The response loop shared by the OpenAI-shaped providers. */
  method ConvertChoices(resp: OpenAIResponse, provider: string) returns (r: ChatResponse)
    ensures FromFirstChoice(r, resp, provider)
  {
    if |resp.choices| == 0 {
      return EmptyResponse(provider, resp.model);
    }
    var choice := resp.choices[0];
    var calls := choice.message.toolCalls;
    var toolCalls: seq<ToolCall> := [];
    for j := 0 to |calls|
      invariant |toolCalls| == j
      invariant forall k :: 0 <= k < j ==> toolCalls[k] == ToolCall(calls[k].id, calls[k].name, calls[k].arguments)
    {
      toolCalls := toolCalls + [ToolCall(calls[j].id, calls[j].name, calls[j].arguments)];
    }
    r := ChatResponse(choice.message.content, toolCalls, resp.model, provider, resp.usage, choice.finishReason);
  }

  /** `convertResponse`. */
  method ConvertResponse(resp: OpenAIResponse) returns (r: ChatResponse)
    ensures FromFirstChoice(r, resp, "openai")
  {
    r := ConvertChoices(resp, "openai");
  }
}
