/**
 * The `ugudu config` subcommands (`cmd/ugudu/config.go`): how API keys are
 * masked when shown, which keys `config set` accepts and what it changes,
 * and the configuration the `config init` wizard builds from its answers.
 * Loading, saving and creating directories are the results they give,
 * passed in; the printed text beyond the one-line confirmation is not
 * modelled.
 */
module CliConfig {
  import opened Wrappers
  import opened GoStrings
  import opened UguduConfig

  /** `maskKey`: short keys hidden entirely, longer ones down to their first and last four bytes. */
  function MaskKey(key: string): (m: string)
    ensures |key| <= 8 ==> m == "****"
    ensures |key| > 8 ==> |m| == 11 && m[..4] == key[..4] && m[4..7] == "..." && m[7..] == key[|key| - 4..]
  {
    if |key| <= 8 then "****" else key[..4] + "..." + key[|key| - 4..]
  }

  /** A masked key reveals nothing of a key but its first and last four bytes: keys alike there mask alike. */
  lemma MaskKeyHidesMiddle(a: string, b: string)
    requires |a| > 8 && |b| > 8 && a[..4] == b[..4] && a[|a| - 4..] == b[|b| - 4..]
    ensures MaskKey(a) == MaskKey(b)
  {
  }

  /** Whether a `config set` key names a secret. */
  predicate IsSecretKey(key: string) {
    Contains(key, "api_key") || Contains(key, "secret")
  }

  /** `maskIfSecret`: the value masked exactly when the key names a secret. */
  function MaskIfSecret(key: string, value: string): (r: string)
    ensures IsSecretKey(key) ==> r == MaskKey(value)
    ensures !IsSecretKey(key) ==> r == value
  {
    if IsSecretKey(key) then MaskKey(value) else value
  }

  /** The keys `config set` accepts. */
  const SettableKeys: seq<string> := [
    "anthropic.api_key", "openai.api_key", "groq.api_key",
    "ollama.url", "defaults.provider", "defaults.model",
    "daemon.tcp_addr"]

  /** The value a settable key names. */
  function Get(c: Config, key: string): string
    requires key in SettableKeys
  {
    if key == "anthropic.api_key" then c.providers.anthropic.apiKey
    else if key == "openai.api_key" then c.providers.openai.apiKey
    else if key == "groq.api_key" then c.providers.groq.apiKey
    else if key == "ollama.url" then c.providers.ollama.url
    else if key == "defaults.provider" then c.defaults.provider
    else if key == "defaults.model" then c.defaults.model
    else c.daemon.tcpAddr
  }

  /** The `switch key` of `config set`: one field assigned, any other key an error. */
  function Set(c: Config, key: string, value: string): (r: Result<Config, string>)
    ensures r.Ok? <==> key in SettableKeys
    ensures r.Err? ==> r.error == "Unknown key: " + key
  {
    if key == "anthropic.api_key" then Ok(c.(providers := c.providers.(anthropic := AnthropicSettings(value))))
    else if key == "openai.api_key" then Ok(c.(providers := c.providers.(openai := c.providers.openai.(apiKey := value))))
    else if key == "groq.api_key" then Ok(c.(providers := c.providers.(groq := GroqSettings(value))))
    else if key == "ollama.url" then Ok(c.(providers := c.providers.(ollama := OllamaSettings(value))))
    else if key == "defaults.provider" then Ok(c.(defaults := c.defaults.(provider := value)))
    else if key == "defaults.model" then Ok(c.(defaults := c.defaults.(model := value)))
    else if key == "daemon.tcp_addr" then Ok(c.(daemon := Daemon(value)))
    else Err("Unknown key: " + key)
  }

  /** Setting a key makes it read back as the value and leaves every other key, and the OpenAI base URL, as it was. */
  lemma SetGet(c: Config, key: string, value: string)
    requires key in SettableKeys
    ensures Set(c, key, value).Ok?
    ensures Get(Set(c, key, value).value, key) == value
    ensures forall k :: k in SettableKeys && k != key ==> Get(Set(c, key, value).value, k) == Get(c, k)
    ensures Set(c, key, value).value.providers.openai.baseURL == c.providers.openai.baseURL
  {
  }

  /** The three API keys are echoed masked. */
  lemma ApiKeysMasked(k: string)
    requires k in {"anthropic.api_key", "openai.api_key", "groq.api_key"}
    ensures IsSecretKey(k)
  {
    assert At(k, "api_key", |k| - 7);
  }

  /** The other settable keys are echoed as given. */
  lemma OtherKeysShown(k: string)
    requires k in {"ollama.url", "defaults.provider", "defaults.model", "daemon.tcp_addr"}
    ensures !IsSecretKey(k)
  {
    if k == "ollama.url" || k == "daemon.tcp_addr" {
      NotSecret(k, 0);
    } else {
      NotSecret(k, 2);
    }
  }

  /** A key without a 'k' and without the byte at `c` of "secret" names no secret. */
  lemma NotSecret(k: string, c: nat)
    requires c < 6 && forall i :: 0 <= i < |k| ==> k[i] != 'k' && k[i] != "secret"[c]
    ensures !IsSecretKey(k)
  {
    Absent(k, "api_key", 4);
    Absent(k, "secret", c);
  }

  /** A string lacking one of the bytes of `sub` does not contain `sub`. */
  lemma Absent(s: string, sub: string, c: nat)
    requires c < |sub| && forall i :: 0 <= i < |s| ==> s[i] != sub[c]
    ensures !Contains(s, sub)
  {
    forall j | 0 <= j <= |s|
      ensures !At(s, sub, j)
    {
      if j + |sub| <= |s| {
        assert s[j..j + |sub|][c] == s[j + c];
      }
    }
  }

  /**
   * `config set`: after the directories are ensured (`ensured`, the error
   * if any) and the file loaded, one key assigned and the file saved
   * (`save`, the error writing it if any); the result is the saved
   * configuration and the confirmation line, which masks a secret value.
   */
  function ConfigSet(ensured: Option<string>, loaded: Result<Config, string>, key: string, value: string,
                     save: Config -> Option<string>): (r: Result<(Config, string), string>)
    ensures ensured.Some? ==> r == Err("Error: " + ensured.value)
    ensures ensured.None? && loaded.Err? ==> r == Err("Error loading config: " + loaded.error)
    ensures ensured.None? && loaded.Ok? && key !in SettableKeys ==> r == Err("Unknown key: " + key)
    ensures r.Ok? <==> ensured.None? && loaded.Ok? && key in SettableKeys && save(Set(loaded.value, key, value).value).None?
    ensures r.Ok? ==> r.value.0 == Set(loaded.value, key, value).value
    ensures r.Ok? ==> r.value.1 == "Set " + key + " = " + MaskIfSecret(key, value)
  {
    if ensured.Some? then Err("Error: " + ensured.value)
    else if loaded.Err? then Err("Error loading config: " + loaded.error)
    else match Set(loaded.value, key, value)
      case Err(e) => Err(e)
      case Ok(c) =>
        match save(c)
        case Some(e) => Err("Error saving config: " + e)
        case None => Ok((c, "Set " + key + " = " + MaskIfSecret(key, value)))
  }

  /** The non-empty key masked, the empty one left empty, as `config show` does. */
  function MaskSet(key: string): (r: string)
    ensures key == "" <==> r == ""
  {
    if key != "" then MaskKey(key) else key
  }

  /** `config show` without `--show-secrets`: each API key set masked; everything else shown as loaded. */
  function Shown(c: Config, showSecrets: bool): (s: Config)
    ensures showSecrets ==> s == c
    ensures !showSecrets ==>
      && s.providers.anthropic.apiKey == MaskSet(c.providers.anthropic.apiKey)
      && s.providers.openai.apiKey == MaskSet(c.providers.openai.apiKey)
      && s.providers.groq.apiKey == MaskSet(c.providers.groq.apiKey)
    ensures s.providers.openai.baseURL == c.providers.openai.baseURL && s.providers.ollama == c.providers.ollama
    ensures s.defaults == c.defaults && s.daemon == c.daemon
  {
    if showSecrets then c
    else
      c.(providers := c.providers.(
        anthropic := AnthropicSettings(MaskSet(c.providers.anthropic.apiKey)),
        openai := c.providers.openai.(apiKey := MaskSet(c.providers.openai.apiKey)),
        groq := GroqSettings(MaskSet(c.providers.groq.apiKey))))
  }

  /** A shown configuration shows no more than eleven bytes of any API key. */
  lemma ShownKeysShort(c: Config)
    ensures |Shown(c, false).providers.anthropic.apiKey| <= 11
    ensures |Shown(c, false).providers.openai.apiKey| <= 11
    ensures |Shown(c, false).providers.groq.apiKey| <= 11
  {
  }

  /** The default provider and model of the wizard's menu choice. */
  function ChosenDefaults(choice: string): (d: Defaults)
    ensures choice !in {"2", "3", "4"} ==> d == Defaults("anthropic", "claude-sonnet-4-20250514")
  {
    if choice == "2" then Defaults("openai", "gpt-4o")
    else if choice == "3" then Defaults("ollama", "llama3.2")
    else if choice == "4" then Defaults("groq", "llama-3.1-70b-versatile")
    else Defaults("anthropic", "claude-sonnet-4-20250514")
  }

  /**
   * `config init` on the trimmed answers: the defaults, with each API key
   * and the Ollama URL answered replacing the default, the chosen provider,
   * and the daemon on the given port, 8080 when none is given.
   */
  function Wizard(anthropicKey: string, openaiKey: string, groqKey: string, ollamaURL: string,
                  choice: string, port: string): (c: Config)
    ensures c.providers.anthropic.apiKey == (if anthropicKey != "" then anthropicKey else DefaultConfig().providers.anthropic.apiKey)
    ensures c.providers.openai == DefaultConfig().providers.openai.(apiKey := if openaiKey != "" then openaiKey else DefaultConfig().providers.openai.apiKey)
    ensures c.providers.groq.apiKey == (if groqKey != "" then groqKey else DefaultConfig().providers.groq.apiKey)
    ensures c.providers.ollama.url == (if ollamaURL != "" then ollamaURL else "http://localhost:11434")
    ensures c.defaults == ChosenDefaults(choice)
    ensures c.daemon.tcpAddr == ":" + (if port != "" then port else "8080")
  {
    var d := DefaultConfig();
    var anthropic := if anthropicKey != "" then AnthropicSettings(anthropicKey) else d.providers.anthropic;
    var openai := if openaiKey != "" then d.providers.openai.(apiKey := openaiKey) else d.providers.openai;
    var groq := if groqKey != "" then GroqSettings(groqKey) else d.providers.groq;
    var ollama := if ollamaURL != "" then OllamaSettings(ollamaURL) else d.providers.ollama;
    var tcp := if port != "" then ":" + port else ":8080";
    Config(Providers(anthropic, openai, groq, ollama), ChosenDefaults(choice), Daemon(tcp))
  }

  /** Skipping every question gives the default configuration. */
  lemma WizardDefaults()
    ensures Wizard("", "", "", "", "", "") == DefaultConfig()
  {
  }
}
