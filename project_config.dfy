/**
 * The project configuration (`project.yaml`): its defaults, its validation and
 * the timestamp `Save` refreshes. Times are instants as in `Clock`; whether a
 * path is reported missing by `os.Stat` is a parameter.
 */
module ProjectConfig {
  import opened Wrappers

  const IsolationSandbox: string := "sandbox"
  const IsolationShared: string := "shared"
  const IsolationNone: string := "none"
  const ProjectConfigFile: string := "project.yaml"

  datatype Metadata = Metadata(name: string, createdAt: int, updatedAt: int)
  datatype Source = Source(path: string, sharedPaths: seq<string>)
  datatype WorkspaceSettings = WorkspaceSettings(isolation: string, artifactRetention: string)
  datatype ActivitySettings = ActivitySettings(logLevel: string, retention: string)

  datatype Config = Config(
    apiVersion: string,
    kind: string,
    metadata: Metadata,
    source: Source,
    team: string,
    workspace: WorkspaceSettings,
    activity: ActivitySettings)

  predicate ValidIsolation(mode: string) {
    mode == IsolationSandbox || mode == IsolationShared || mode == IsolationNone
  }

  /** `NewProjectConfig`, created at instant `now`. */
  function NewProjectConfig(name: string, sourcePath: string, team: string, now: int): (c: Config)
    ensures c.apiVersion == "ugudu/v1" && c.kind == "Project" && c.team == team
    ensures c.metadata == Metadata(name, now, now)
    ensures c.source == Source(sourcePath, [])
    ensures c.workspace == WorkspaceSettings(IsolationSandbox, "30d")
    ensures c.activity == ActivitySettings("info", "90d")
  {
    Config("ugudu/v1", "Project", Metadata(name, now, now), Source(sourcePath, []), team,
      WorkspaceSettings(IsolationSandbox, "30d"), ActivitySettings("info", "90d"))
  }

  /**
   * `Validate`: the first failing check, in the source's order, or None.
   * `missing(p)` holds when `os.Stat(p)` reports that `p` does not exist.
   */
  method Validate(c: Config, missing: string -> bool) returns (err: Option<string>)
    ensures c.metadata.name == "" ==> err == Some("project name is required")
    ensures c.metadata.name != "" && c.source.path == "" ==> err == Some("source path is required")
    ensures c.metadata.name != "" && c.source.path != "" && missing(c.source.path) ==>
      err == Some("source path does not exist: " + c.source.path)
    ensures SourcePresent(c, missing) ==>
      forall j :: 0 <= j < |c.source.sharedPaths| && missing(c.source.sharedPaths[j]) && SharedPresent(c, missing, j) ==>
        err == Some("shared path does not exist: " + c.source.sharedPaths[j])
    ensures SourcePresent(c, missing) && SharedPresent(c, missing, |c.source.sharedPaths|) ==>
      err == (if ValidIsolation(c.workspace.isolation) then None
              else Some("invalid isolation mode: " + c.workspace.isolation))
    ensures err.None? <==> Valid(c, missing)
  {
    if c.metadata.name == "" {
      return Some("project name is required");
    }
    if c.source.path == "" {
      return Some("source path is required");
    }
    if missing(c.source.path) {
      return Some("source path does not exist: " + c.source.path);
    }
    var shared := c.source.sharedPaths;
    for i := 0 to |shared|
      invariant SharedPresent(c, missing, i)
    {
      if missing(shared[i]) {
        return Some("shared path does not exist: " + shared[i]);
      }
    }
    if !ValidIsolation(c.workspace.isolation) {
      return Some("invalid isolation mode: " + c.workspace.isolation);
    }
    return None;
  }

  /** The name and source path are set and the source path exists. */
  predicate SourcePresent(c: Config, missing: string -> bool) {
    c.metadata.name != "" && c.source.path != "" && !missing(c.source.path)
  }

  /** The first `n` shared paths exist. */
  predicate SharedPresent(c: Config, missing: string -> bool, n: int) {
    forall k :: 0 <= k < n && k < |c.source.sharedPaths| ==> !missing(c.source.sharedPaths[k])
  }

  /** What `Validate` accepts. */
  predicate Valid(c: Config, missing: string -> bool) {
    && SourcePresent(c, missing)
    && SharedPresent(c, missing, |c.source.sharedPaths|)
    && ValidIsolation(c.workspace.isolation)
  }

  /** The configuration `Save` writes at instant `now`: only UpdatedAt changes. */
  function Stamped(c: Config, now: int): (s: Config)
    ensures s.metadata.updatedAt == now
    ensures s.metadata.name == c.metadata.name && s.metadata.createdAt == c.metadata.createdAt
    ensures s.(metadata := c.metadata) == c
  {
    c.(metadata := c.metadata.(updatedAt := now))
  }

  /**
   * `LoadProjectConfig`: `read` is the file's contents or the read error,
   * `parse` the YAML decoding of the contents or its error.
   */
  function Load(read: Result<string, string>, parse: string -> Result<Config, string>): (r: Result<Config, string>)
    ensures read.Err? ==> r == Err("read project config: " + read.error)
    ensures read.Ok? && parse(read.value).Err? ==> r == Err("parse project config: " + parse(read.value).error)
    ensures r.Ok? <==> read.Ok? && parse(read.value).Ok?
    ensures r.Ok? ==> r.value == parse(read.value).value
  {
    match read
    case Err(e) => Err("read project config: " + e)
    case Ok(data) =>
      match parse(data)
      case Err(e) => Err("parse project config: " + e)
      case Ok(c) => Ok(c)
  }

  /**
   * `Save` at instant `now`: the stamped configuration is encoded
   * (`marshal`), its directory created (`mkdirErr`) and the file written
   * (`write`); the result is the bytes written, or the first error.
   */
  function Save(c: Config, now: int, marshal: Config -> Result<string, string>, mkdirErr: Option<string>,
                write: string -> Option<string>): (r: Result<string, string>)
    ensures marshal(Stamped(c, now)).Err? ==> r == Err("marshal project config: " + marshal(Stamped(c, now)).error)
    ensures marshal(Stamped(c, now)).Ok? && mkdirErr.Some? ==> r == Err("create config directory: " + mkdirErr.value)
    ensures marshal(Stamped(c, now)).Ok? && mkdirErr.None? && write(marshal(Stamped(c, now)).value).Some? ==>
      r == Err(write(marshal(Stamped(c, now)).value).value)
    ensures r.Ok? <==> marshal(Stamped(c, now)).Ok? && mkdirErr.None? && write(marshal(Stamped(c, now)).value).None?
    ensures r.Ok? ==> r.value == marshal(Stamped(c, now)).value
  {
    match marshal(Stamped(c, now))
    case Err(e) => Err("marshal project config: " + e)
    case Ok(data) =>
      if mkdirErr.Some? then Err("create config directory: " + mkdirErr.value)
      else match write(data)
        case Some(e) => Err(e)
        case None => Ok(data)
  }

  /** What is saved and then loaded back through a faithful encoding is the stamped configuration. */
  lemma SaveThenLoad(c: Config, now: int, marshal: Config -> Result<string, string>,
                     write: string -> Option<string>, parse: string -> Result<Config, string>)
    requires marshal(Stamped(c, now)).Ok? && write(marshal(Stamped(c, now)).value).None?
    requires parse(marshal(Stamped(c, now)).value) == Ok(Stamped(c, now))
    ensures Save(c, now, marshal, None, write).Ok?
    ensures Load(Ok(Save(c, now, marshal, None, write).value), parse) == Ok(Stamped(c, now))
  {
  }

  /** A fresh configuration is valid exactly when its name and existing source path are. */
  lemma NewProjectConfigValid(name: string, sourcePath: string, team: string, now: int, missing: string -> bool)
    ensures Valid(NewProjectConfig(name, sourcePath, team, now), missing) <==>
      name != "" && sourcePath != "" && !missing(sourcePath)
  {
  }

  /** Saving never changes whether a configuration is valid. */
  lemma StampedKeepsValidity(c: Config, now: int, missing: string -> bool)
    ensures Valid(Stamped(c, now), missing) == Valid(c, missing)
  {
  }
}
