/**
 * The per-agent view of the tool registry: a role sees only the tools its
 * categories allow, and path arguments are resolved through the agent's
 * sandbox before the base tool runs. The file system the sandbox consults
 * is the `env` parameter; the activity callback `OnToolExecute` is modelled
 * by the report each execution returns when a callback is installed.
 */
module SandboxedTools {
  import opened Wrappers
  import opened GoStrings
  import opened FilePath
  import opened ProviderTypes
  import opened ToolCategories
  import T = Tools
  import SB = Sandbox
  import WS = Workspace
  import PC = ProjectConfig

  /** What `OnToolExecute` is called with: the tool, the arguments it ran with and the outcome. */
  datatype Execution = Execution(toolName: string, args: map<string, Json>, result: Result<Json, string>)

  /** The argument keys `sandboxArgs` treats as paths, in order. */
  const PathKeys: seq<string> := ["path", "file", "directory", "root", "target"]

  /** The tools `getOperationType` calls writes. */
  const WriteTools: set<string> := {
    "write_file", "edit_file", "git_commit", "create_task", "update_task",
    "create_report", "create_doc", "create_requirement", "create_spec", "create_bug_report"}

  /** `getOperationType`: "write" for the ten writing tools, "read" for every other name. */
  function OperationType(toolName: string): (op: string)
    ensures op == "write" <==> toolName in WriteTools
    ensures op == "read" <==> toolName !in WriteTools
  {
    if toolName in WriteTools then "write" else "read"
  }

  /** A tool is resolved as a sandbox write exactly when it is one of the writing tools. */
  lemma OperationTypeMutating(toolName: string)
    ensures SB.Mutating(OperationType(toolName)) <==> toolName in WriteTools
  {
  }

  /** `resolvePath`: no sandbox passes the path through; absolute and relative paths take their own rules. */
  function ResolveToolPath(sandbox: Option<SB.Sandbox>, op: string, path: string, env: SB.Env): (r: SB.Resolved)
    ensures sandbox.None? ==> r == SB.Resolved(path, None)
    ensures sandbox.Some? && IsAbs(path) ==> r == SB.AbsoluteResolution(sandbox.value, op, path)
    ensures sandbox.Some? && !IsAbs(path) ==> r == SB.Resolution(sandbox.value, op, path, env)
  {
    if sandbox.None? then SB.Resolved(path, None)
    else if IsAbs(path) then SB.AbsoluteResolution(sandbox.value, op, path)
    else SB.Resolution(sandbox.value, op, path, env)
  }

  /** A path argument after `sandboxArgs`: a non-empty string is replaced when its resolution succeeds. */
  function ResolvedArg(sandbox: Option<SB.Sandbox>, op: string, v: Json, env: SB.Env): Json {
    if v.JStr? && v.s != "" && ResolveToolPath(sandbox, op, v.s, env).err.None? then
      JStr(ResolveToolPath(sandbox, op, v.s, env).path)
    else v
  }

  /** `r` is `r`'s own string prefix whenever it lies within `dir`. */
  lemma WithinHasPrefix(r: string, dir: string)
    requires Within(r, dir)
    ensures HasPrefix(r, dir)
  {
    if r != dir && HasPrefix(r, dir + "/") {
      assert r[..|dir|] == (dir + "/")[..|dir|];
    }
  }

  /**
   * Under isolation, a path a writing tool is given is resolved to a path
   * that starts with the agent's sandbox directory, or the resolution fails.
   */
  lemma WriteToolPathsStayInSandbox(s: SB.Sandbox, toolName: string, path: string, env: SB.Env)
    requires s.isolation != PC.IsolationNone && toolName in WriteTools
    requires IsAbs(s.sandboxPath) && Clean(s.sandboxPath) == s.sandboxPath
    ensures var r := ResolveToolPath(Some(s), OperationType(toolName), path, env);
      r.err.None? ==> HasPrefix(r.path, s.sandboxPath)
  {
    var op := OperationType(toolName);
    if IsAbs(path) {
      SB.AbsoluteWritesOnlyInSandbox(s, op, path);
    } else {
      SB.WritesStayInSandbox(s, op, path, env);
      var r := SB.Resolution(s, op, path, env);
      if r.err.None? {
        WithinHasPrefix(r.path, s.sandboxPath);
      }
    }
  }

  lemma PathKeysDistinct()
    ensures forall i :: 0 <= i < |PathKeys| ==> PathKeys[i] !in PathKeys[..i]
  {
  }

  /** The copy `sandboxArgs` makes before resolving, entry by entry. */
  method CopyArgs(args: map<string, Json>) returns (newArgs: map<string, Json>)
    ensures newArgs == args
  {
    newArgs := map[];
    var left := args.Keys;
    while left != {}
      invariant left <= args.Keys
      invariant newArgs == map k | k in args.Keys - left :: args[k]
      decreases left
    {
      var k :| k in left;
      newArgs := newArgs[k := args[k]];
      left := left - {k};
    }
  }

  class SandboxedRegistry {
    const base: T.Registry
    const sandbox: Option<SB.Sandbox>
    const role: string
    const agentID: string
    /** Whether an `OnToolExecute` callback is installed. */
    const logging: bool
    /** The file system the sandbox resolution consults. */
    const env: SB.Env

    /** `NewSandboxedRegistry`: the workspace's sandbox for the role, none without a workspace. */
    constructor (base: T.Registry, ws: Option<WS.Workspace>, role: string, agentID: string, logging: bool, env: SB.Env)
      requires ws.Some? ==> ws.value.Valid()
      modifies if ws.Some? then {ws.value} else {}
      ensures this.base == base && this.role == role && this.agentID == agentID
      ensures this.logging == logging && this.env == env
      ensures ws.None? ==> sandbox.None?
      ensures ws.Some? ==> sandbox == Some(ws.value.SandboxFor(role)) && ws.value.Valid()
    {
      this.base := base;
      this.role := role;
      this.agentID := agentID;
      this.logging := logging;
      this.env := env;
      if ws.Some? {
        var sb := ws.value.GetSandbox(role);
        this.sandbox := Some(sb);
      } else {
        this.sandbox := None;
      }
    }

    /** `Get`: nothing for a tool the role may not use, otherwise the base registry's answer. */
    function Get(name: string): (r: Option<T.ToolInfo>)
      reads base
      ensures r.Some? <==> Allowed(name, role) && name in base.tools
      ensures r.Some? ==> r.value == base.tools[name]
    {
      if !Allowed(name, role) then None else base.Get(name)
    }

    /** `ts` lists the base tools the role may use, each once. */
    ghost predicate IsListing(ts: seq<T.ToolInfo>)
      reads base
    {
      && (forall t :: t in ts <==> t in base.tools.Values && Allowed(t.name, role))
      && (forall i, j :: 0 <= i < j < |ts| ==> ts[i].name != ts[j].name)
    }

    /** `List`: the base listing, filtered by the role's permissions. */
    method List() returns (allowed: seq<T.ToolInfo>)
      requires base.Valid()
      ensures IsListing(allowed)
    {
      var allTools := base.List();
      allowed := FilterAllowed(allTools, role);
    }

    /** The arguments a tool runs with: resolved through the sandbox when there is one. */
    function EffectiveArgs(name: string, args: map<string, Json>): map<string, Json> {
      if sandbox.None? then args else SandboxedArgs(name, args)
    }

    /** What `sandboxArgs` returns: every path key resolved as `ResolvedArg` says, every other key kept. */
    function SandboxedArgs(name: string, args: map<string, Json>): map<string, Json> {
      map k | k in args :: if k in PathKeys then ResolvedArg(sandbox, OperationType(name), args[k], env) else args[k]
    }

    /** `sandboxArgs`: a copy of the arguments with the path keys resolved. */
    method SandboxArgs(toolName: string, args: map<string, Json>) returns (newArgs: map<string, Json>)
      ensures newArgs == SandboxedArgs(toolName, args)
    {
      newArgs := CopyArgs(args);
      var op := OperationType(toolName);
      PathKeysDistinct();
      for i := 0 to |PathKeys|
        invariant newArgs.Keys == args.Keys
        invariant forall k :: k in args && k in PathKeys[..i] ==> newArgs[k] == ResolvedArg(sandbox, op, args[k], env)
        invariant forall k :: k in args && k !in PathKeys[..i] ==> newArgs[k] == args[k]
      {
        var key := PathKeys[i];
        assert PathKeys[..i + 1] == PathKeys[..i] + [key];
        assert key !in PathKeys[..i];
        if key in newArgs && newArgs[key].JStr? && newArgs[key].s != "" {
          var r := ResolveToolPath(sandbox, op, newArgs[key].s, env);
          if r.err.None? {
            newArgs := newArgs[key := JStr(r.path)];
          }
        }
      }
      assert PathKeys[..|PathKeys|] == PathKeys;
    }

    /**
     * `Execute`: a tool the role may not use fails with a message naming the
     * tool and the role and never reaches the base registry; otherwise the
     * base tool runs on the sandboxed arguments. `report` is what
     * `OnToolExecute` receives, when one is installed.
     */
    method Execute(name: string, args: map<string, Json>, run: T.Runner)
      returns (r: Result<Json, string>, report: Option<Execution>)
      ensures !Allowed(name, role) ==> r == Err("tool " + name + " is not available for role " + role)
      ensures !Allowed(name, role) ==> report == (if logging then Some(Execution(name, args, r)) else None)
      ensures Allowed(name, role) ==> r == base.Execute(name, EffectiveArgs(name, args), run)
      ensures Allowed(name, role) ==>
        report == (if logging then Some(Execution(name, EffectiveArgs(name, args), r)) else None)
    {
      var ok := IsToolAllowedForRole(name, role);
      if !ok {
        r := Err("tool " + name + " is not available for role " + role);
        report := if logging then Some(Execution(name, args, r)) else None;
        return;
      }
      var a := args;
      if sandbox.Some? {
        a := SandboxArgs(name, args);
      }
      r := base.Execute(name, a, run);
      report := if logging then Some(Execution(name, a, r)) else None;
    }

    /** The names of a listing, in order. */
    function Names(ts: seq<T.ToolInfo>): (ns: seq<string>)
      ensures |ns| == |ts| && forall i :: 0 <= i < |ts| ==> ns[i] == ts[i].name
    {
      if ts == [] then [] else Names(ts[..|ts| - 1]) + [ts[|ts| - 1].name]
    }

    /** The prompt lines for a listing, one "- name: description" line per tool. */
    function ToolLines(ts: seq<T.ToolInfo>): string {
      if ts == [] then "" else ToolLines(ts[..|ts| - 1]) + ToolLine(ts[|ts| - 1])
    }

    function ToolLine(t: T.ToolInfo): string {
      "- " + t.name + ": " + t.description + "\n"
    }

    /** `GetAllowedToolNames`. */
    method GetAllowedToolNames() returns (names: seq<string>)
      requires base.Valid()
      ensures exists ts :: IsListing(ts) && names == Names(ts)
    {
      var tools := List();
      names := [];
      for i := 0 to |tools|
        invariant names == Names(tools[..i])
      {
        assert tools[..i + 1][..i] == tools[..i];
        names := names + [tools[i].name];
      }
      assert tools[..|tools|] == tools;
    }

    /** `FormatToolsForPrompt`. */
    method FormatToolsForPrompt() returns (s: string)
      requires base.Valid()
      ensures exists ts :: (IsListing(ts) &&
        s == (if ts == [] then "No tools available." else "Available tools:\n" + ToolLines(ts)))
    {
      var tools := List();
      if |tools| == 0 {
        return "No tools available.";
      }
      s := "Available tools:\n";
      for i := 0 to |tools|
        invariant s == "Available tools:\n" + ToolLines(tools[..i])
      {
        assert tools[..i + 1][..i] == tools[..i];
        s := s + ToolLine(tools[i]);
      }
      assert tools[..|tools|] == tools;
    }

    /** `ListToolNames`. */
    method ListToolNames() returns (s: string)
      requires base.Valid()
      ensures exists ts :: IsListing(ts) && s == (if ts == [] then "none" else Join(Names(ts), ", "))
    {
      var tools := List();
      if |tools| == 0 {
        return "none";
      }
      var names := [];
      for i := 0 to |tools|
        invariant names == Names(tools[..i])
      {
        assert tools[..i + 1][..i] == tools[..i];
        names := names + [tools[i].name];
      }
      assert tools[..|tools|] == tools;
      s := Join(names, ", ");
    }
  }

  /** The loop of `List`: the tools the role may use, in the listing's order. */
  method FilterAllowed(allTools: seq<T.ToolInfo>, role: string) returns (allowed: seq<T.ToolInfo>)
    requires forall i, j :: 0 <= i < j < |allTools| ==> allTools[i].name != allTools[j].name
    ensures forall t :: t in allowed <==> t in allTools && Allowed(t.name, role)
    ensures forall a, b :: 0 <= a < b < |allowed| ==> allowed[a].name != allowed[b].name
  {
    allowed := [];
    for i := 0 to |allTools|
      invariant forall t :: t in allowed <==> t in allTools[..i] && Allowed(t.name, role)
      invariant forall a, b :: 0 <= a < b < |allowed| ==> allowed[a].name != allowed[b].name
      invariant forall t :: t in allowed ==> exists k :: 0 <= k < i && allTools[k] == t
    {
      var ok := IsToolAllowedForRole(allTools[i].name, role);
      assert allTools[..i + 1] == allTools[..i] + [allTools[i]];
      if ok {
        forall t | t in allowed ensures t.name != allTools[i].name {
          var k :| 0 <= k < i && allTools[k] == t;
        }
        allowed := allowed + [allTools[i]];
      }
    }
    assert allTools[..|allTools|] == allTools;
  }

  /** Every tool of a listing has its own line in the prompt. */
  lemma {:induction false} ToolLinesHaveEach(reg: SandboxedRegistry, ts: seq<T.ToolInfo>, i: int)
    requires 0 <= i < |ts|
    ensures Contains(reg.ToolLines(ts), reg.ToolLine(ts[i]))
    decreases |ts|
  {
    var init := ts[..|ts| - 1];
    var last := reg.ToolLine(ts[|ts| - 1]);
    if i == |ts| - 1 {
      var s := reg.ToolLines(init);
      assert (s + last)[|s|..|s| + |last|] == last;
      assert At(s + last, last, |s|);
    } else {
      assert init[i] == ts[i];
      ToolLinesHaveEach(reg, init, i);
      var s := reg.ToolLines(init);
      var sub := reg.ToolLine(ts[i]);
      var j := Index(s, sub);
      assert At(s, sub, j);
      assert (s + last)[j..j + |sub|] == s[j..j + |sub|];
      assert At(s + last, sub, j);
    }
  }

  /** Two roles' views of one registry differ only by permission: a tool both may use is the same tool. */
  lemma GetAgreesAcrossRoles(r1: SandboxedRegistry, r2: SandboxedRegistry, name: string)
    requires r1.base == r2.base
    requires Allowed(name, r1.role) && Allowed(name, r2.role)
    ensures r1.Get(name) == r2.Get(name)
  {
  }

  /** A tool outside the category table is visible to every role. */
  lemma UncategorisedToolVisible(reg: SandboxedRegistry, name: string)
    requires name !in ToolCategoryMapping && name in reg.base.tools
    ensures reg.Get(name) == Some(reg.base.tools[name])
  {
  }

  /** Without a sandbox the tool receives the caller's arguments unchanged. */
  lemma NoSandboxKeepsArgs(reg: SandboxedRegistry, name: string, args: map<string, Json>)
    requires reg.sandbox.None?
    ensures reg.EffectiveArgs(name, args) == args
  {
  }

  /** With a sandbox, keys outside the path keys are never touched. */
  lemma SandboxKeepsOtherKeys(reg: SandboxedRegistry, name: string, args: map<string, Json>, k: string)
    requires k in args && k !in PathKeys
    ensures k in reg.SandboxedArgs(name, args) && reg.SandboxedArgs(name, args)[k] == args[k]
  {
  }

  /**
   * Under isolation, every path argument of a writing tool either stays as
   * it was (it was not a non-empty string, or the sandbox refused it) or is
   * replaced by a path that starts with the sandbox directory.
   */
  lemma WriteToolArgsInSandbox(reg: SandboxedRegistry, name: string, args: map<string, Json>, k: string)
    requires reg.sandbox.Some? && reg.sandbox.value.isolation != PC.IsolationNone
    requires IsAbs(reg.sandbox.value.sandboxPath) && Clean(reg.sandbox.value.sandboxPath) == reg.sandbox.value.sandboxPath
    requires name in WriteTools && k in args && k in PathKeys
    ensures var v := reg.EffectiveArgs(name, args)[k];
      v == args[k] || (v.JStr? && HasPrefix(v.s, reg.sandbox.value.sandboxPath))
  {
    var v := args[k];
    if v.JStr? && v.s != "" {
      WriteToolPathsStayInSandbox(reg.sandbox.value, name, v.s, reg.env);
    }
  }
}
