/**
 * A project workspace: the project directory under the projects root, its
 * configuration, and one cached sandbox per agent role. `os.Stat` and
 * `filepath.Abs` are parameters; the directories `Init` creates are returned
 * rather than created.
 */
module Workspace {
  import opened Wrappers
  import opened GoStrings
  import opened FilePath
  import PC = ProjectConfig
  import SB = Sandbox

  /** What `os.Stat` reports for a path. */
  datatype Stat = Present | NotExist | StatFailed

  class Workspace {
    const name: string
    const path: string
    var config: PC.Config
    var sandboxes: map<string, SB.Sandbox>

    /** The sandbox a role gets from the current configuration. */
    function SandboxFor(role: string): SB.Sandbox
      reads this
    {
      SB.Sandbox(GetSandboxPath(role), config.source.path, config.source.sharedPaths, config.workspace.isolation)
    }

    /** Every cached sandbox is the one the role would get now. */
    predicate Valid()
      reads this
    {
      forall role :: role in sandboxes ==> sandboxes[role] == SandboxFor(role)
    }

    constructor (name: string, path: string, config: PC.Config)
      ensures this.name == name && this.path == path && this.config == config
      ensures sandboxes == map[]
      ensures Valid()
    {
      this.name := name;
      this.path := path;
      this.config := config;
      sandboxes := map[];
    }

    /** `GetSandbox`: the cached sandbox, created and cached on first use. */
    method GetSandbox(role: string) returns (sb: SB.Sandbox)
      requires Valid()
      modifies this
      ensures Valid() && config == old(config)
      ensures sb == SandboxFor(role)
      ensures role in old(sandboxes) ==> sb == old(sandboxes[role]) && sandboxes == old(sandboxes)
      ensures role !in old(sandboxes) ==> sandboxes == old(sandboxes)[role := sb]
    {
      if role in sandboxes {
        return sandboxes[role];
      }
      sb := SB.Sandbox(GetSandboxPath(role), config.source.path, config.source.sharedPaths, config.workspace.isolation);
      sandboxes := sandboxes[role := sb];
    }

    function GetSandboxPath(role: string): string {
      JoinAll([path, "workspaces", role])
    }

    function TasksPath(): string {
      JoinAll([path, "tasks", "tasks.json"])
    }

    function ActivityPath(role: string): string {
      JoinAll([path, "activity", role + ".log"])
    }

    function ArtifactPath(artifactType: string): string {
      JoinAll([path, "artifacts", artifactType])
    }

    function ResolveSourcePath(relativePath: string): string
      reads this
    {
      JoinAll([config.source.path, relativePath])
    }

    /**
     * For a clean absolute project directory and a role that is a plain
     * name, the sandbox, tasks, activity and artifact paths are fixed
     * children of the project directory.
     */
    lemma SandboxPathUnderProject(role: string)
      requires IsAbs(path) && Clean(path) == path && path != "/" && IsName(role)
      ensures GetSandboxPath(role) == path + "/" + "workspaces" + "/" + role
    {
      assert IsName("workspaces");
      GrandchildPath(path, "workspaces", role);
    }

    lemma TasksPathUnderProject()
      requires IsAbs(path) && Clean(path) == path && path != "/"
      ensures TasksPath() == path + "/" + "tasks" + "/" + "tasks.json"
    {
      assert IsName("tasks");
      assert IsName("tasks.json");
      GrandchildPath(path, "tasks", "tasks.json");
    }

    lemma ActivityPathUnderProject(role: string)
      requires IsAbs(path) && Clean(path) == path && path != "/" && IsName(role)
      ensures ActivityPath(role) == path + "/" + "activity" + "/" + (role + ".log")
    {
      assert IsName("activity");
      assert IsName(role + ".log") by {
        assert forall c :: c in role + ".log" ==> c in role || c in ".log";
      }
      GrandchildPath(path, "activity", role + ".log");
    }

    lemma ArtifactPathUnderProject(artifactType: string)
      requires IsAbs(path) && Clean(path) == path && path != "/" && IsName(artifactType)
      ensures ArtifactPath(artifactType) == path + "/" + "artifacts" + "/" + artifactType
    {
      assert IsName("artifacts");
      GrandchildPath(path, "artifacts", artifactType);
    }
  }

  /** Name checks `Init` makes before touching the file system. */
  function NameError(name: string): (e: Option<string>)
    ensures e.None? <==> name != "" && '/' !in name && '\\' !in name
  {
    if name == "" then Some("project name is required")
    else if '/' in name || '\\' in name then Some("project name cannot contain path separators")
    else None
  }

  /** The directories `Init` creates, in order. */
  function InitDirs(projectPath: string): (dirs: seq<string>)
    ensures |dirs| == 7 && dirs[0] == projectPath
  {
    [projectPath,
     JoinAll([projectPath, "tasks"]),
     JoinAll([projectPath, "activity"]),
     JoinAll([projectPath, "artifacts", "reports"]),
     JoinAll([projectPath, "artifacts", "specs"]),
     JoinAll([projectPath, "artifacts", "tests"]),
     JoinAll([projectPath, "workspaces"])]
  }

  /** Under a clean absolute project directory, `Init` makes the project directory and six fixed sub-directories. */
  lemma InitDirsUnderProject(projectPath: string)
    requires IsAbs(projectPath) && Clean(projectPath) == projectPath && projectPath != "/"
    ensures InitDirs(projectPath) == [projectPath,
      projectPath + "/" + "tasks", projectPath + "/" + "activity",
      projectPath + "/" + "artifacts" + "/" + "reports",
      projectPath + "/" + "artifacts" + "/" + "specs",
      projectPath + "/" + "artifacts" + "/" + "tests",
      projectPath + "/" + "workspaces"]
  {
    assert IsName("tasks") && IsName("activity") && IsName("workspaces");
    assert IsName("artifacts") && IsName("reports") && IsName("specs") && IsName("tests");
    ChildPath(projectPath, "tasks");
    ChildPath(projectPath, "activity");
    ChildPath(projectPath, "workspaces");
    GrandchildPath(projectPath, "artifacts", "reports");
    GrandchildPath(projectPath, "artifacts", "specs");
    GrandchildPath(projectPath, "artifacts", "tests");
  }

  /** `New`: open an existing project. */
  method New(projectName: string, projectsDir: string, stat: string -> Stat,
             load: string -> Result<PC.Config, string>)
    returns (r: Result<Workspace, string>)
    ensures var projectPath := JoinAll([projectsDir, projectName]);
      && (stat(projectPath) == NotExist ==> r == Err("project not found: " + projectName))
      && (stat(projectPath) != NotExist && load(JoinAll([projectPath, PC.ProjectConfigFile])).Err? ==>
            r == Err("load project config: " + load(JoinAll([projectPath, PC.ProjectConfigFile])).error))
      && (stat(projectPath) != NotExist && load(JoinAll([projectPath, PC.ProjectConfigFile])).Ok? ==>
            && r.Ok? && fresh(r.value)
            && r.value.name == projectName && r.value.path == projectPath
            && r.value.config == load(JoinAll([projectPath, PC.ProjectConfigFile])).value
            && r.value.sandboxes == map[] && r.value.Valid())
  {
    var projectPath := JoinAll([projectsDir, projectName]);
    if stat(projectPath) == NotExist {
      return Err("project not found: " + projectName);
    }
    var cfg := load(JoinAll([projectPath, PC.ProjectConfigFile]));
    if cfg.Err? {
      return Err("load project config: " + cfg.error);
    }
    var w := new Workspace(projectName, projectPath, cfg.value);
    return Ok(w);
  }

  /** The first directory of `dirs` that `mkdir` fails to create, with its error. */
  function FirstFailure(dirs: seq<string>, mkdir: string -> Option<string>): (r: Option<(nat, string)>)
    ensures r.Some? ==> r.value.0 < |dirs| && mkdir(dirs[r.value.0]) == Some(r.value.1)
    ensures r.Some? ==> forall j :: 0 <= j < r.value.0 ==> mkdir(dirs[j]).None?
    ensures r.None? ==> forall j :: 0 <= j < |dirs| ==> mkdir(dirs[j]).None?
  {
    if dirs == [] then None
    else if mkdir(dirs[0]).Some? then Some((0, mkdir(dirs[0]).value))
    else
      var rest := FirstFailure(dirs[1..], mkdir);
      assert forall j :: 1 <= j < |dirs| ==> dirs[1..][j - 1] == dirs[j];
      if rest.Some? then Some((rest.value.0 + 1, rest.value.1)) else None
  }

  /** Whether `Init`'s checks on the name, the source path and the project directory pass. */
  predicate ChecksPass(name: string, sourcePath: string, projectsDir: string,
                       abs: string -> Result<string, string>, stat: string -> Stat) {
    && NameError(name).None? && abs(sourcePath).Ok?
    && stat(abs(sourcePath).value) != NotExist && stat(JoinAll([projectsDir, name])) != Present
  }

  /**
   * The error `Init` reports, if any: the checks, then the first directory
   * `mkdir` fails to create, then saving the configuration, writing the
   * empty task list and adding the project to the index, in that order.
   */
  function InitError(name: string, sourcePath: string, projectsDir: string,
                     abs: string -> Result<string, string>, stat: string -> Stat,
                     mkdir: string -> Option<string>, saveConfig: Option<string>, writeTasks: Option<string>,
                     addToIndex: Option<string>): (e: Option<string>)
    ensures NameError(name).Some? ==> e == NameError(name)
    ensures NameError(name).None? && abs(sourcePath).Err? ==> e == Some("resolve source path: " + abs(sourcePath).error)
    ensures NameError(name).None? && abs(sourcePath).Ok? && stat(abs(sourcePath).value) == NotExist ==>
      e == Some("source path does not exist: " + abs(sourcePath).value)
    ensures NameError(name).None? && abs(sourcePath).Ok? && stat(abs(sourcePath).value) != NotExist ==>
      stat(JoinAll([projectsDir, name])) == Present ==> e == Some("project already exists: " + name)
    ensures ChecksPass(name, sourcePath, projectsDir, abs, stat) ==>
      var dirs := InitDirs(JoinAll([projectsDir, name]));
      match FirstFailure(dirs, mkdir)
      case Some((k, m)) => e == Some("create directory " + dirs[k] + ": " + m)
      case None =>
        && (saveConfig.Some? ==> e == Some("save project config: " + saveConfig.value))
        && (saveConfig.None? && writeTasks.Some? ==> e == Some("create tasks file: " + writeTasks.value))
        && (saveConfig.None? && writeTasks.None? && addToIndex.Some? ==>
              e == Some("update project index: " + addToIndex.value))
    ensures e.None? <==>
      ChecksPass(name, sourcePath, projectsDir, abs, stat)
      && FirstFailure(InitDirs(JoinAll([projectsDir, name])), mkdir).None?
      && saveConfig.None? && writeTasks.None? && addToIndex.None?
  {
    if NameError(name).Some? then NameError(name)
    else if abs(sourcePath).Err? then Some("resolve source path: " + abs(sourcePath).error)
    else if stat(abs(sourcePath).value) == NotExist then Some("source path does not exist: " + abs(sourcePath).value)
    else if stat(JoinAll([projectsDir, name])) == Present then Some("project already exists: " + name)
    else
      var dirs := InitDirs(JoinAll([projectsDir, name]));
      match FirstFailure(dirs, mkdir)
      case Some((k, m)) => Some("create directory " + dirs[k] + ": " + m)
      case None =>
        if saveConfig.Some? then Some("save project config: " + saveConfig.value)
        else if writeTasks.Some? then Some("create tasks file: " + writeTasks.value)
        else if addToIndex.Some? then Some("update project index: " + addToIndex.value)
        else None
  }

  /** The directories `Init` has made by the time it returns: none when a check fails, those before the first failure otherwise. */
  function InitCreated(name: string, sourcePath: string, projectsDir: string,
                       abs: string -> Result<string, string>, stat: string -> Stat,
                       mkdir: string -> Option<string>): (created: seq<string>)
    ensures !ChecksPass(name, sourcePath, projectsDir, abs, stat) ==> created == []
    ensures ChecksPass(name, sourcePath, projectsDir, abs, stat) ==>
      created == Made(InitDirs(JoinAll([projectsDir, name])), mkdir)
  {
    if !ChecksPass(name, sourcePath, projectsDir, abs, stat) then []
    else Made(InitDirs(JoinAll([projectsDir, name])), mkdir)
  }

  /**
   * `Init`: validate, then create a new project created at instant `now`.
   * `mkdir` creates one directory; `saveConfig`, `writeTasks` and
   * `addToIndex` are the errors, if any, of saving the configuration,
   * writing the empty task list and adding the project to the index.
   * `created` lists the directories made.
   */
  method Init(name: string, sourcePath: string, team: string, projectsDir: string,
              abs: string -> Result<string, string>, stat: string -> Stat, now: int,
              mkdir: string -> Option<string>, saveConfig: Option<string>, writeTasks: Option<string>,
              addToIndex: Option<string>)
    returns (r: Result<Workspace, string>, created: seq<string>)
    ensures r.Err? <==> InitError(name, sourcePath, projectsDir, abs, stat, mkdir, saveConfig, writeTasks, addToIndex).Some?
    ensures r.Err? ==> r.error == InitError(name, sourcePath, projectsDir, abs, stat, mkdir, saveConfig, writeTasks, addToIndex).value
    ensures created == InitCreated(name, sourcePath, projectsDir, abs, stat, mkdir)
    ensures r.Ok? ==>
      && fresh(r.value) && r.value.name == name && r.value.path == JoinAll([projectsDir, name])
      && r.value.config == PC.NewProjectConfig(name, abs(sourcePath).value, team, now)
      && r.value.sandboxes == map[] && r.value.Valid()
  {
    created := [];
    var bad := NameError(name);
    if bad.Some? {
      return Err(bad.value), created;
    }
    var absSource := abs(sourcePath);
    if absSource.Err? {
      return Err("resolve source path: " + absSource.error), created;
    }
    if stat(absSource.value) == NotExist {
      return Err("source path does not exist: " + absSource.value), created;
    }
    var projectPath := JoinAll([projectsDir, name]);
    if stat(projectPath) == Present {
      return Err("project already exists: " + name), created;
    }
    var cfg := PC.NewProjectConfig(name, absSource.value, team, now);
    var dirs := InitDirs(projectPath);
    var failed;
    created, failed := MakeDirs(dirs, mkdir);
    if failed.Some? {
      return Err("create directory " + dirs[failed.value.0] + ": " + failed.value.1), created;
    }
    if saveConfig.Some? {
      return Err("save project config: " + saveConfig.value), created;
    }
    if writeTasks.Some? {
      return Err("create tasks file: " + writeTasks.value), created;
    }
    if addToIndex.Some? {
      return Err("update project index: " + addToIndex.value), created;
    }
    var w := new Workspace(name, projectPath, cfg);
    return Ok(w), created;
  }

  /** The directories made before the first one `mkdir` fails on, or all of them. */
  function Made(dirs: seq<string>, mkdir: string -> Option<string>): seq<string> {
    match FirstFailure(dirs, mkdir)
    case Some((k, _)) => dirs[..k]
    case None => dirs
  }

  /** `Init`'s directory loop: each directory made in turn, stopping at the first failure. */
  method MakeDirs(dirs: seq<string>, mkdir: string -> Option<string>)
    returns (created: seq<string>, failed: Option<(nat, string)>)
    ensures failed == FirstFailure(dirs, mkdir)
    ensures created == Made(dirs, mkdir)
  {
    created := [];
    for i := 0 to |dirs|
      invariant created == dirs[..i]
      invariant forall j :: 0 <= j < i ==> mkdir(dirs[j]).None?
    {
      var e := mkdir(dirs[i]);
      if e.Some? {
        FirstFailureAt(dirs, mkdir, i);
        return created, Some((i, e.value));
      }
      created := created + [dirs[i]];
    }
    FirstFailureNone(dirs, mkdir);
    return created, None;
  }

  /** A failure after the checks leaves behind exactly the directories made before it. */
  lemma InitLeavesPrefix(name: string, sourcePath: string, projectsDir: string,
                         abs: string -> Result<string, string>, stat: string -> Stat, mkdir: string -> Option<string>)
    ensures var created := InitCreated(name, sourcePath, projectsDir, abs, stat, mkdir);
      created <= InitDirs(JoinAll([projectsDir, name])) && forall i :: 0 <= i < |created| ==> mkdir(created[i]).None?
  {
    var dirs := InitDirs(JoinAll([projectsDir, name]));
    if ChecksPass(name, sourcePath, projectsDir, abs, stat) {
      FirstFailurePrefix(dirs, mkdir);
    }
  }

  /** What the directory loop leaves is a prefix of the directories, each of them made. */
  lemma FirstFailurePrefix(dirs: seq<string>, mkdir: string -> Option<string>)
    ensures Made(dirs, mkdir) <= dirs && forall i :: 0 <= i < |Made(dirs, mkdir)| ==> mkdir(Made(dirs, mkdir)[i]).None?
  {
  }

  /** The first failing directory is the one the creation loop stops at. */
  lemma {:induction false} FirstFailureAt(dirs: seq<string>, mkdir: string -> Option<string>, i: nat)
    requires i < |dirs| && mkdir(dirs[i]).Some? && forall j :: 0 <= j < i ==> mkdir(dirs[j]).None?
    ensures FirstFailure(dirs, mkdir) == Some((i, mkdir(dirs[i]).value))
    decreases i
  {
    if i > 0 {
      FirstFailureAt(dirs[1..], mkdir, i - 1);
    }
  }

  /** No directory fails when every one is created. */
  lemma {:induction false} FirstFailureNone(dirs: seq<string>, mkdir: string -> Option<string>)
    requires forall j :: 0 <= j < |dirs| ==> mkdir(dirs[j]).None?
    ensures FirstFailure(dirs, mkdir).None?
    decreases |dirs|
  {
    if dirs != [] {
      FirstFailureNone(dirs[1..], mkdir);
    }
  }

  /**
   * `Delete`: a missing project is an error; otherwise the project leaves
   * the index (`removeFromIndex`, its error if any) and then its directory
   * is removed (`removeAll`, its error if any).
   */
  function Delete(name: string, projectsDir: string, stat: string -> Stat,
                  removeFromIndex: Option<string>, removeAll: Option<string>): (err: Option<string>)
    ensures stat(JoinAll([projectsDir, name])) == NotExist ==> err == Some("project not found: " + name)
    ensures stat(JoinAll([projectsDir, name])) != NotExist && removeFromIndex.Some? ==>
      err == Some("update project index: " + removeFromIndex.value)
    ensures stat(JoinAll([projectsDir, name])) != NotExist && removeFromIndex.None? && removeAll.Some? ==>
      err == Some("delete project directory: " + removeAll.value)
    ensures err.None? <==> stat(JoinAll([projectsDir, name])) != NotExist && removeFromIndex.None? && removeAll.None?
  {
    if stat(JoinAll([projectsDir, name])) == NotExist then Some("project not found: " + name)
    else if removeFromIndex.Some? then Some("update project index: " + removeFromIndex.value)
    else if removeAll.Some? then Some("delete project directory: " + removeAll.value)
    else None
  }
}
