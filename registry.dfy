/**
 * The provider registry: providers keyed by their ID, and the discovery of
 * providers from the process environment, which is a parameter here.
 */
module ProviderRegistry {
  import opened Wrappers
  import opened Environment
  import Anthropic
  import OpenAI
  import Ollama
  import OpenRouter

  /** A registered provider, as the settings it was built with (defaults already applied). */
  datatype ProviderConfig =
    | AnthropicConfig(apiKey: string, baseURL: string)
    | OpenAIConfig(apiKey: string, baseURL: string)
    | OllamaConfig(url: string)
    | GroqConfig(apiKey: string)
    | OpenRouterConfig(apiKey: string, siteName: string, siteURL: string)
  {
    /** `Provider.ID()` of each implementation. */
    function Id(): string {
      match this
      case AnthropicConfig(_, _) => "anthropic"
      case OpenAIConfig(_, _) => "openai"
      case OllamaConfig(_) => "ollama"
      case GroqConfig(_) => "groq"
      case OpenRouterConfig(_, _, _) => "openrouter"
    }
  }

  class Registry {
    var providers: map<string, ProviderConfig>

    /** Every provider is stored under its own ID. */
    predicate Valid()
      reads this
    {
      forall id :: id in providers ==> providers[id].Id() == id
    }

    constructor()
      ensures providers == map[] && Valid()
    {
      providers := map[];
    }

    /** Stores a provider under its ID, replacing any earlier one with that ID. */
    method Register(p: ProviderConfig)
      modifies this
      requires Valid()
      ensures Valid()
      ensures providers == old(providers)[p.Id() := p]
    {
      providers := providers[p.Id() := p];
    }

    /** The provider registered under `id`, or "provider not found: id". */
    function Get(id: string): (r: Result<ProviderConfig, string>)
      reads this
      ensures r.Ok? <==> id in providers
      ensures r.Ok? ==> r.value == providers[id]
      ensures r.Err? ==> r.error == "provider not found: " + id
    {
      if id in providers then Ok(providers[id]) else Err("provider not found: " + id)
    }

    /** Whether a provider is registered under `id`. */
    function Has(id: string): (b: bool)
      reads this
      ensures b <==> Get(id).Ok?
    {
      id in providers
    }

    /** Every registered provider once, in the map's (unspecified) order. */
    method List() returns (r: seq<ProviderConfig>)
      requires Valid()
      ensures |r| == |providers|
      ensures forall p :: p in r <==> p in providers.Values
      ensures forall i, j :: 0 <= i < j < |r| ==> r[i].Id() != r[j].Id()
    {
      r := [];
      var left := providers.Keys;
      while left != {}
        invariant left <= providers.Keys
        invariant |r| + |left| == |providers|
        invariant forall p :: p in r <==> exists id :: id in providers.Keys - left && providers[id] == p
        invariant forall k :: 0 <= k < |r| ==> r[k].Id() in providers.Keys - left
        invariant forall i, j :: 0 <= i < j < |r| ==> r[i].Id() != r[j].Id()
        decreases left
      {
        var id :| id in left;
        r := r + [providers[id]];
        left := left - {id};
      }
      assert providers.Keys - left == providers.Keys;
    }

    /** `AutoDiscover`: the environment's providers registered one after another. */
    method AutoDiscover(env: map<string, string>)
      modifies this
      requires Valid()
      ensures Valid()
      ensures providers == Discovered(old(providers), env)
    {
      var key := Getenv(env, "ANTHROPIC_API_KEY");
      if key != "" {
        Register(AnthropicConfig(key, Anthropic.AnthropicAPIURL));
      }
      key := Getenv(env, "OPENAI_API_KEY");
      if key != "" {
        Register(OpenAIConfig(key, OpenAI.OpenAIAPIURL));
      }
      var ollamaURL := Getenv(env, "OLLAMA_URL");
      if ollamaURL == "" {
        ollamaURL := Ollama.DefaultURL;
      }
      Register(OllamaConfig(ollamaURL));
      key := Getenv(env, "GROQ_API_KEY");
      if key != "" {
        Register(GroqConfig(key));
      }
      key := Getenv(env, "OPENROUTER_API_KEY");
      if key != "" {
        var siteName := Getenv(env, "OPENROUTER_SITE_NAME");
        var siteURL := Getenv(env, "OPENROUTER_SITE_URL");
        Register(OpenRouterConfig(key, if siteName == "" then "Ugudu" else siteName, siteURL));
      }
    }
    }

  function KeyedUpdate(m: map<string, ProviderConfig>, key: string, p: ProviderConfig): map<string, ProviderConfig> {
    if key != "" then m[p.Id() := p] else m
  }

  /** The registrations `AutoDiscover` makes, in its order. */
  function Discovered(m: map<string, ProviderConfig>, env: map<string, string>): map<string, ProviderConfig> {
    var anthropicKey := Getenv(env, "ANTHROPIC_API_KEY");
    var openaiKey := Getenv(env, "OPENAI_API_KEY");
    var groqKey := Getenv(env, "GROQ_API_KEY");
    var routerKey := Getenv(env, "OPENROUTER_API_KEY");
    var siteName := Getenv(env, "OPENROUTER_SITE_NAME");
    var m := KeyedUpdate(m, anthropicKey, AnthropicConfig(anthropicKey, Anthropic.AnthropicAPIURL));
    var m := KeyedUpdate(m, openaiKey, OpenAIConfig(openaiKey, OpenAI.OpenAIAPIURL));
    var m := m["ollama" := OllamaConfig(OllamaURL(env))];
    var m := KeyedUpdate(m, groqKey, GroqConfig(groqKey));
    KeyedUpdate(m, routerKey, OpenRouterConfig(routerKey, if siteName == "" then "Ugudu" else siteName,
                                               Getenv(env, "OPENROUTER_SITE_URL")))
  }

  function OllamaURL(env: map<string, string>): string {
    if Getenv(env, "OLLAMA_URL") == "" then Ollama.DefaultURL else Getenv(env, "OLLAMA_URL")
  }

  /**
   * A keyed provider is registered exactly when its key variable is
   * non-empty; Ollama always. Other registrations stay as they were.
   */
  lemma DiscoveredProviders(m: map<string, ProviderConfig>, env: map<string, string>)
    ensures var d := Discovered(m, env);
      && "ollama" in d && d["ollama"] == OllamaConfig(OllamaURL(env))
      && (Getenv(env, "ANTHROPIC_API_KEY") != "" ==>
            "anthropic" in d && d["anthropic"] == AnthropicConfig(Getenv(env, "ANTHROPIC_API_KEY"), Anthropic.AnthropicAPIURL))
      && (Getenv(env, "OPENAI_API_KEY") != "" ==>
            "openai" in d && d["openai"] == OpenAIConfig(Getenv(env, "OPENAI_API_KEY"), OpenAI.OpenAIAPIURL))
      && (Getenv(env, "GROQ_API_KEY") != "" ==> "groq" in d && d["groq"] == GroqConfig(Getenv(env, "GROQ_API_KEY")))
      && (Getenv(env, "OPENROUTER_API_KEY") != "" ==>
            && "openrouter" in d && d["openrouter"].OpenRouterConfig?
            && d["openrouter"].apiKey == Getenv(env, "OPENROUTER_API_KEY")
            && d["openrouter"].siteName == (if Getenv(env, "OPENROUTER_SITE_NAME") == "" then "Ugudu" else Getenv(env, "OPENROUTER_SITE_NAME")))
  {
  }

  /** Nothing but those five providers is added, and every other registration is kept. */
  lemma DiscoveredKeepsOthers(m: map<string, ProviderConfig>, env: map<string, string>)
    ensures var d := Discovered(m, env);
      && (forall id :: id in m && id !in {"anthropic", "openai", "ollama", "groq", "openrouter"} ==> id in d && d[id] == m[id])
      && (forall id :: id in d ==> (id in m || id == "ollama"
            || (id == "anthropic" && Getenv(env, "ANTHROPIC_API_KEY") != "")
            || (id == "openai" && Getenv(env, "OPENAI_API_KEY") != "")
            || (id == "groq" && Getenv(env, "GROQ_API_KEY") != "")
            || (id == "openrouter" && Getenv(env, "OPENROUTER_API_KEY") != "")))
      && (forall id :: id in {"anthropic", "openai", "groq", "openrouter"} && id !in m ==>
            (id in d <==> Getenv(env, KeyVariable(id)) != ""))
  {
  }

  /** The key variable of each keyed provider. */
  function KeyVariable(id: string): string {
    if id == "anthropic" then "ANTHROPIC_API_KEY"
    else if id == "openai" then "OPENAI_API_KEY"
    else if id == "groq" then "GROQ_API_KEY"
    else "OPENROUTER_API_KEY"
  }
}
