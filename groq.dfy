/** The Groq provider's conversion between the provider-independent chat types and its bodies. */
module Groq {
  import opened ProviderTypes

  const GroqAPIURL: string := "https://api.groq.com/openai/v1"

  datatype GroqChoice = GroqChoice(content: string, finishReason: string)

  datatype GroqResponse = GroqResponse(model: string, choices: seq<GroqChoice>, usage: Usage)

  /** `convertRequest`: one `{role, content}` per message and never a tools key. */
  method ConvertRequest(req: ChatRequest) returns (body: map<string, Json>)
    ensures "model" in body && body["model"] == JStr(req.model)
    ensures "messages" in body && body["messages"].JArr? && |body["messages"].items| == |req.messages|
    ensures forall i :: 0 <= i < |req.messages| ==> body["messages"].items[i] == PlainMessage(req.messages[i])
    ensures SamplingKeys(body, req)
    ensures "tools" !in body
    ensures body.Keys <= {"model", "messages", "max_tokens", "temperature", "stop"}
  {
    var messages := PlainMessages(req.messages);
    body := map["model" := JStr(req.model), "messages" := JArr(messages)];
    body := AddSampling(body, req);
  }

  /** `convertResponse`: the first choice's text and finish reason, never a tool call. */
  function ConvertResponse(resp: GroqResponse): (r: ChatResponse)
    ensures r.toolCalls == [] && r.provider == "groq" && r.model == resp.model
    ensures resp.choices == [] ==> r == EmptyResponse("groq", resp.model)
    ensures resp.choices != [] ==>
      r.content == resp.choices[0].content && r.finishReason == resp.choices[0].finishReason && r.usage == resp.usage
  {
    if |resp.choices| == 0 then EmptyResponse("groq", resp.model)
    else ChatResponse(resp.choices[0].content, [], resp.model, "groq", resp.usage, resp.choices[0].finishReason)
  }

  /** `ListModels`: a fixed catalogue, not a request. */
  function ListModels(): (r: seq<ModelInfo>)
    ensures |r| == 4
    ensures forall i :: 0 <= i < |r| ==> r[i].provider == "groq"
    ensures forall i, j :: 0 <= i < j < |r| ==> r[i].id != r[j].id
  {
    [ ModelInfo("llama-3.3-70b-versatile", "Llama 3.3 70B", "groq", 32768, ""),
      ModelInfo("llama-3.1-8b-instant", "Llama 3.1 8B", "groq", 8192, ""),
      ModelInfo("mixtral-8x7b-32768", "Mixtral 8x7B", "groq", 32768, ""),
      ModelInfo("gemma2-9b-it", "Gemma 2 9B", "groq", 8192, "") ]
  }
}
