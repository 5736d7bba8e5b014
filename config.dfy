/**
 * The global configuration: where Ugudu keeps its files, how the
 * configuration file's provider settings reach the environment, and the
 * defaults written for a new installation. `os.UserHomeDir` is a parameter
 * (None when it fails).
 */
module UguduConfig {
  import opened Wrappers
  import opened Environment
  import opened FilePath

  /** `UguduHome`: $UGUDU_HOME, else home/.ugudu, else ".ugudu". */
  function UguduHome(env: map<string, string>, userHome: Option<string>): (h: string)
    ensures Getenv(env, "UGUDU_HOME") != "" ==> h == Getenv(env, "UGUDU_HOME")
    ensures Getenv(env, "UGUDU_HOME") == "" && userHome.Some? ==> h == JoinAll([userHome.value, ".ugudu"])
    ensures Getenv(env, "UGUDU_HOME") == "" && userHome.None? ==> h == ".ugudu"
  {
    var home := Getenv(env, "UGUDU_HOME");
    if home != "" then home
    else if userHome.None? then ".ugudu"
    else JoinAll([userHome.value, ".ugudu"])
  }

  function SpecsDir(env: map<string, string>, userHome: Option<string>): string {
    JoinAll([UguduHome(env, userHome), "specs"])
  }

  function DataDir(env: map<string, string>, userHome: Option<string>): string {
    JoinAll([UguduHome(env, userHome), "data"])
  }

  function ConfigPath(env: map<string, string>, userHome: Option<string>): string {
    JoinAll([UguduHome(env, userHome), "config.yaml"])
  }

  function SocketPath(env: map<string, string>, userHome: Option<string>): string {
    JoinAll([UguduHome(env, userHome), "ugudu.sock"])
  }

  /** `ProjectsDir`: $UGUDU_PROJECTS, else home/ugudu_projects, else "ugudu_projects". */
  function ProjectsDir(env: map<string, string>, userHome: Option<string>): (d: string)
    ensures Getenv(env, "UGUDU_PROJECTS") != "" ==> d == Getenv(env, "UGUDU_PROJECTS")
    ensures Getenv(env, "UGUDU_PROJECTS") == "" && userHome.Some? ==> d == JoinAll([userHome.value, "ugudu_projects"])
    ensures Getenv(env, "UGUDU_PROJECTS") == "" && userHome.None? ==> d == "ugudu_projects"
  {
    var projects := Getenv(env, "UGUDU_PROJECTS");
    if projects != "" then projects
    else if userHome.None? then "ugudu_projects"
    else JoinAll([userHome.value, "ugudu_projects"])
  }

  function ProjectIndexPath(env: map<string, string>, userHome: Option<string>): string {
    JoinAll([ProjectsDir(env, userHome), ".index.json"])
  }

  /** With $UGUDU_HOME set to a clean absolute directory, a name joined to the home is its direct child. */
  lemma HomeChild(env: map<string, string>, userHome: Option<string>, name: string)
    requires "UGUDU_HOME" in env && env["UGUDU_HOME"] != ""
    requires IsAbs(env["UGUDU_HOME"]) && Clean(env["UGUDU_HOME"]) == env["UGUDU_HOME"] && env["UGUDU_HOME"] != "/"
    requires IsName(name)
    ensures JoinAll([UguduHome(env, userHome), name]) == env["UGUDU_HOME"] + "/" + name
  {
    ChildPath(env["UGUDU_HOME"], name);
  }

  /** The specification directory, the data directory, the configuration file and the socket under such a home. */
  lemma HomePaths(env: map<string, string>, userHome: Option<string>)
    requires "UGUDU_HOME" in env && env["UGUDU_HOME"] != ""
    requires IsAbs(env["UGUDU_HOME"]) && Clean(env["UGUDU_HOME"]) == env["UGUDU_HOME"] && env["UGUDU_HOME"] != "/"
    ensures SpecsDir(env, userHome) == env["UGUDU_HOME"] + "/" + "specs"
    ensures DataDir(env, userHome) == env["UGUDU_HOME"] + "/" + "data"
    ensures ConfigPath(env, userHome) == env["UGUDU_HOME"] + "/" + "config.yaml"
    ensures SocketPath(env, userHome) == env["UGUDU_HOME"] + "/" + "ugudu.sock"
  {
    SpecsName();
    HomeChild(env, userHome, "specs");
    DataName();
    HomeChild(env, userHome, "data");
    ConfigName();
    HomeChild(env, userHome, "config.yaml");
    SocketName();
    HomeChild(env, userHome, "ugudu.sock");
  }

  lemma SpecsName() ensures IsName("specs") { }
  lemma DataName() ensures IsName("data") { }
  lemma ConfigName() ensures IsName("config.yaml") { }
  lemma SocketName() ensures IsName("ugudu.sock") { }

  datatype AnthropicSettings = AnthropicSettings(apiKey: string)
  datatype OpenAISettings = OpenAISettings(apiKey: string, baseURL: string)
  datatype GroqSettings = GroqSettings(apiKey: string)
  datatype OllamaSettings = OllamaSettings(url: string)
  datatype Providers = Providers(anthropic: AnthropicSettings, openai: OpenAISettings, groq: GroqSettings, ollama: OllamaSettings)
  datatype Defaults = Defaults(provider: string, model: string)
  datatype Daemon = Daemon(tcpAddr: string)
  datatype Config = Config(providers: Providers, defaults: Defaults, daemon: Daemon)

  function EmptyConfig(): Config {
    Config(Providers(AnthropicSettings(""), OpenAISettings("", ""), GroqSettings(""), OllamaSettings("")),
      Defaults("", ""), Daemon(""))
  }

  /** What reading the configuration file gives. */
  datatype ReadOutcome = Missing | ReadFailed(err: string) | Read(data: string)

  /**
   * `Load`: a missing file is an empty configuration; a present one is
   * decoded by `parse`.
   */
  function Load(file: ReadOutcome, parse: string -> Result<Config, string>): (r: Result<Config, string>)
    ensures file.Missing? ==> r == Ok(EmptyConfig())
    ensures file.ReadFailed? ==> r == Err(file.err)
    ensures file.Read? && parse(file.data).Err? ==> r == Err("parse config: " + parse(file.data).error)
    ensures file.Read? && parse(file.data).Ok? ==> r == parse(file.data)
  {
    match file
    case Missing => Ok(EmptyConfig())
    case ReadFailed(e) => Err(e)
    case Read(data) =>
      match parse(data)
      case Ok(c) => Ok(c)
      case Err(e) => Err("parse config: " + e)
  }

  /** The variables `ApplyToEnvironment` may set. */
  predicate Applied(name: string) {
    name == "ANTHROPIC_API_KEY" || name == "OPENAI_API_KEY" || name == "GROQ_API_KEY" || name == "OLLAMA_URL"
  }

  /** The configuration value `ApplyToEnvironment` offers for a variable. */
  function Offered(c: Config, name: string): string {
    if name == "ANTHROPIC_API_KEY" then c.providers.anthropic.apiKey
    else if name == "OPENAI_API_KEY" then c.providers.openai.apiKey
    else if name == "GROQ_API_KEY" then c.providers.groq.apiKey
    else if name == "OLLAMA_URL" then c.providers.ollama.url
    else ""
  }

  /** Set `name` to `value` only when the value is non-empty and the variable is empty. */
  function Fill(env: map<string, string>, name: string, value: string): map<string, string> {
    if value != "" && Getenv(env, name) == "" then env[name := value] else env
  }

  /** `ApplyToEnvironment`. */
  method ApplyToEnvironment(c: Config, env: map<string, string>) returns (out: map<string, string>)
    ensures forall v :: Applied(v) ==>
      Getenv(out, v) == (if Getenv(env, v) == "" then Offered(c, v) else Getenv(env, v))
    ensures forall v :: Applied(v) && v in env && env[v] != "" ==> v in out && out[v] == env[v]
    ensures forall v :: !Applied(v) ==> (v in out <==> v in env) && (v in env ==> out[v] == env[v])
  {
    var e1 := Fill(env, "ANTHROPIC_API_KEY", c.providers.anthropic.apiKey);
    var e2 := Fill(e1, "OPENAI_API_KEY", c.providers.openai.apiKey);
    var e3 := Fill(e2, "GROQ_API_KEY", c.providers.groq.apiKey);
    out := Fill(e3, "OLLAMA_URL", c.providers.ollama.url);
    forall v | Applied(v)
      ensures Getenv(out, v) == (if Getenv(env, v) == "" then Offered(c, v) else Getenv(env, v))
    {
      FillGetenv(env, "ANTHROPIC_API_KEY", c.providers.anthropic.apiKey, v);
      FillGetenv(e1, "OPENAI_API_KEY", c.providers.openai.apiKey, v);
      FillGetenv(e2, "GROQ_API_KEY", c.providers.groq.apiKey, v);
      FillGetenv(e3, "OLLAMA_URL", c.providers.ollama.url, v);
    }
    forall v | !Applied(v)
      ensures (v in out <==> v in env) && (v in env ==> out[v] == env[v])
    {
      FillGetenv(env, "ANTHROPIC_API_KEY", c.providers.anthropic.apiKey, v);
      FillGetenv(e1, "OPENAI_API_KEY", c.providers.openai.apiKey, v);
      FillGetenv(e2, "GROQ_API_KEY", c.providers.groq.apiKey, v);
      FillGetenv(e3, "OLLAMA_URL", c.providers.ollama.url, v);
    }
  }

  /** What `Fill` does to one variable: fills `name` when it is empty, keeps every other. */
  lemma FillGetenv(env: map<string, string>, name: string, value: string, v: string)
    ensures v == name ==> Getenv(Fill(env, name, value), v) == (if Getenv(env, v) == "" then value else Getenv(env, v))
    ensures v != name ==> (v in Fill(env, name, value) <==> v in env) && (v in env ==> Fill(env, name, value)[v] == env[v])
    ensures v in env && env[v] != "" ==> v in Fill(env, name, value) && Fill(env, name, value)[v] == env[v]
  {
  }

  /** `DefaultConfig`. */
  function DefaultConfig(): (c: Config)
    ensures c.defaults == Defaults("anthropic", "claude-sonnet-4-20250514")
    ensures c.providers.ollama.url == "http://localhost:11434"
    ensures c.daemon.tcpAddr == ":8080"
    ensures c.providers.anthropic.apiKey == "" && c.providers.openai.apiKey == "" && c.providers.groq.apiKey == ""
  {
    Config(Providers(AnthropicSettings(""), OpenAISettings("", ""), GroqSettings(""), OllamaSettings("http://localhost:11434")),
      Defaults("anthropic", "claude-sonnet-4-20250514"), Daemon(":8080"))
  }

  /** Applying the default configuration sets at most OLLAMA_URL. */
  lemma DefaultConfigSetsOnlyOllama(v: string)
    requires Applied(v) && v != "OLLAMA_URL"
    ensures Offered(DefaultConfig(), v) == ""
  {
  }
}
