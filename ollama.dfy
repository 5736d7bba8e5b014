/** The local Ollama provider's conversion between the provider-independent chat types and its bodies. */
module Ollama {
  import opened ProviderTypes

  const DefaultURL: string := "http://localhost:11434"

  datatype OllamaResponse = OllamaResponse(model: string, role: string, content: string, done: bool)

  class OllamaProvider {
    const baseURL: string

    /** `NewOllama`: an empty URL means the local default. */
    constructor(baseURL: string)
      ensures this.baseURL == (if baseURL == "" then DefaultURL else baseURL)
    {
      this.baseURL := if baseURL == "" then DefaultURL else baseURL;
    }
  }

  /** `convertRequest`: messages as `{role, content}`; temperature only under "options"; nothing else. */
  method ConvertRequest(req: ChatRequest) returns (body: map<string, Json>)
    ensures "model" in body && body["model"] == JStr(req.model)
    ensures "messages" in body && body["messages"].JArr? && |body["messages"].items| == |req.messages|
    ensures forall i :: 0 <= i < |req.messages| ==> body["messages"].items[i] == PlainMessage(req.messages[i])
    ensures "options" in body <==> req.temperature.Some?
    ensures req.temperature.Some? ==> body["options"] == JObj(map["temperature" := JReal(req.temperature.value)])
    ensures body.Keys <= {"model", "messages", "options"}
  {
    var messages := PlainMessages(req.messages);
    body := map["model" := JStr(req.model), "messages" := JArr(messages)];
    if req.temperature.Some? {
      body := body["options" := JObj(map["temperature" := JReal(req.temperature.value)])];
    }
  }

  /** The body `Chat` (stream = false) or `Stream` (stream = true) sends. */
  method RequestBody(req: ChatRequest, stream: bool) returns (body: map<string, Json>)
    ensures "stream" in body && body["stream"] == JBool(stream)
    ensures "max_tokens" !in body && "stop" !in body && "tools" !in body && "temperature" !in body
    ensures "options" in body <==> req.temperature.Some?
  {
    body := ConvertRequest(req);
    body := body["stream" := JBool(stream)];
  }

  /** `convertResponse`: the requested model, provider "ollama", always finished with "stop". */
  function ConvertResponse(resp: OllamaResponse, model: string): (r: ChatResponse)
    ensures r.content == resp.content && r.model == model && r.provider == "ollama" && r.finishReason == "stop"
    ensures r.toolCalls == [] && r.usage == Usage(0, 0, 0)
  {
    ChatResponse(resp.content, [], model, "ollama", Usage(0, 0, 0), "stop")
  }
}
