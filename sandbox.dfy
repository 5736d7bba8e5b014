/**
 * An agent's file sandbox: writes go to its own directory, reads fall back
 * from the sandbox to the project source and then to the shared paths.
 * File existence, directory creation and `filepath.Rel` are parameters.
 */
module Sandbox {
  import opened Wrappers
  import opened GoStrings
  import opened FilePath
  import ProjectConfig

  datatype SandboxError = FileNotFound | AccessDenied | OutsideSandbox | WriteNotAllowed | MkdirFailed(path: string)

  function Message(e: SandboxError): string {
    match e
    case FileNotFound => "file not found"
    case AccessDenied => "access denied"
    case OutsideSandbox => "path is outside sandbox"
    case WriteNotAllowed => "write operation not allowed on this path"
    case MkdirFailed(p) => "mkdir " + p
  }

  /** The pair (path, error) the Go methods return. */
  datatype Resolved = Resolved(path: string, err: Option<SandboxError>)

  datatype Sandbox = Sandbox(sandboxPath: string, sourcePath: string, sharedPaths: seq<string>, isolation: string)

  /** The environment a resolution consults. */
  datatype Env = Env(
    exists_: string -> bool,
    mkdirAll: string -> bool,
    rel: (string, string) -> Option<string>)

  predicate Mutating(op: string) {
    op == "write" || op == "delete" || op == "create"
  }

  function Bases(s: Sandbox): seq<string> {
    [s.sandboxPath, s.sourcePath] + s.sharedPaths
  }

  /** `ListAllowedPaths`: sandbox, source, then the shared paths. */
  function ListAllowedPaths(s: Sandbox): (r: seq<string>)
    ensures |r| == 2 + |s.sharedPaths|
    ensures r[0] == s.sandboxPath && r[1] == s.sourcePath
    ensures forall i :: 0 <= i < |s.sharedPaths| ==> r[2 + i] == s.sharedPaths[i]
  {
    Bases(s)
  }

  /** The first base that `p` starts with and is relative to, or `p` itself. */
  function RelativeTo(bases: seq<string>, p: string, rel: (string, string) -> Option<string>): string
  {
    if bases == [] then p
    else if HasPrefix(p, bases[0]) && rel(bases[0], p).Some? then rel(bases[0], p).value
    else RelativeTo(bases[1..], p, rel)
  }

  /** `toRelativePath`. */
  method ToRelativePath(s: Sandbox, absPath: string, env: Env) returns (r: string)
    ensures r == RelativeTo(Bases(s), absPath, env.rel)
  {
    var bases := Bases(s);
    var i := 0;
    while i < |bases|
      invariant 0 <= i <= |bases|
      invariant RelativeTo(bases, absPath, env.rel) == RelativeTo(bases[i..], absPath, env.rel)
    {
      assert bases[i..][1..] == bases[i + 1..];
      if HasPrefix(absPath, bases[i]) {
        var rel := env.rel(bases[i], absPath);
        if rel.Some? {
          return rel.value;
        }
      }
      i := i + 1;
    }
    return absPath;
  }

  /** The first base under which the joined path exists. */
  function FirstExisting(bases: seq<string>, p: string, exists_: string -> bool): (r: Option<string>)
    ensures r.Some? ==> exists i :: 0 <= i < |bases| && r.value == JoinAll([bases[i], p]) && exists_(r.value)
    ensures r.None? ==> forall i :: 0 <= i < |bases| ==> !exists_(JoinAll([bases[i], p]))
  {
    if bases == [] then None
    else if exists_(JoinAll([bases[0], p])) then Some(JoinAll([bases[0], p]))
    else
      var r := FirstExisting(bases[1..], p, exists_);
      assert forall i :: 1 <= i < |bases| ==> bases[1..][i - 1] == bases[i];
      r
  }

  /** What `resolveReadPath` returns for a cleaned relative path. */
  function ReadResolution(s: Sandbox, p: string, env: Env): Resolved {
    match FirstExisting(Bases(s), p, env.exists_)
    case Some(found) => Resolved(found, None)
    case None => Resolved(JoinAll([s.sandboxPath, p]), Some(FileNotFound))
  }

  /** `resolveReadPath`. */
  method ResolveReadPath(s: Sandbox, p: string, env: Env) returns (r: Resolved)
    ensures r == ReadResolution(s, p, env)
  {
    ghost var bases := Bases(s);
    var shared := s.sharedPaths;
    assert bases[1..] == [s.sourcePath] + shared && bases[1..][1..] == shared;
    var sandboxFull := JoinAll([s.sandboxPath, p]);
    if env.exists_(sandboxFull) {
      return Resolved(sandboxFull, None);
    }
    assert FirstExisting(bases, p, env.exists_) == FirstExisting(bases[1..], p, env.exists_);
    var sourceFull := JoinAll([s.sourcePath, p]);
    assert bases[1..][0] == s.sourcePath;
    if env.exists_(sourceFull) {
      return Resolved(sourceFull, None);
    }
    assert FirstExisting(bases, p, env.exists_) == FirstExisting(shared, p, env.exists_);
    for i := 0 to |shared|
      invariant FirstExisting(bases, p, env.exists_) == FirstExisting(shared[i..], p, env.exists_)
    {
      assert shared[i..][1..] == shared[i + 1..];
      var full := JoinAll([shared[i], p]);
      if env.exists_(full) {
        return Resolved(full, None);
      }
    }
    return Resolved(sandboxFull, Some(FileNotFound));
  }

  /** What `resolveWritePath` returns: always a path in the sandbox directory. */
  function WriteResolution(s: Sandbox, p: string, env: Env): Resolved {
    var full := JoinAll([s.sandboxPath, p]);
    if env.mkdirAll(Dir(full)) then Resolved(full, None) else Resolved("", Some(MkdirFailed(Dir(full))))
  }

  /** What `ResolvePath` returns. */
  function Resolution(s: Sandbox, op: string, path: string, env: Env): Resolved {
    if s.isolation == ProjectConfig.IsolationNone then Resolved(path, None)
    else
      var p := if IsAbs(path) then RelativeTo(Bases(s), path, env.rel) else path;
      var clean := Clean(p);
      if HasPrefix(clean, "..") then Resolved("", Some(OutsideSandbox))
      else if Mutating(op) then WriteResolution(s, clean, env)
      else ReadResolution(s, clean, env)
  }

  /** `ResolvePath`. */
  method ResolvePath(s: Sandbox, op: string, path: string, env: Env) returns (r: Resolved)
    ensures r == Resolution(s, op, path, env)
  {
    if s.isolation == ProjectConfig.IsolationNone {
      return Resolved(path, None);
    }
    var p := path;
    if IsAbs(path) {
      p := ToRelativePath(s, path, env);
    }
    var clean := Clean(p);
    if HasPrefix(clean, "..") {
      return Resolved("", Some(OutsideSandbox));
    }
    if Mutating(op) {
      return WriteResolution(s, clean, env);
    }
    r := ResolveReadPath(s, clean, env);
  }

  /** The first shared path that `p` starts with. */
  function FirstPrefix(bases: seq<string>, p: string): (r: Option<string>)
    ensures r.Some? ==> r.value in bases && HasPrefix(p, r.value)
    ensures r.None? ==> forall i :: 0 <= i < |bases| ==> !HasPrefix(p, bases[i])
  {
    if bases == [] then None
    else if HasPrefix(p, bases[0]) then Some(bases[0])
    else
      var r := FirstPrefix(bases[1..], p);
      assert forall i :: 1 <= i < |bases| ==> bases[1..][i - 1] == bases[i];
      r
  }

  /** What `ResolveAbsolutePath` returns. */
  function AbsoluteResolution(s: Sandbox, op: string, absPath: string): Resolved {
    if s.isolation == ProjectConfig.IsolationNone then Resolved(absPath, None)
    else if HasPrefix(absPath, s.sandboxPath) then Resolved(absPath, None)
    else if HasPrefix(absPath, s.sourcePath) || FirstPrefix(s.sharedPaths, absPath).Some? then
      (if Mutating(op) then Resolved("", Some(WriteNotAllowed)) else Resolved(absPath, None))
    else Resolved("", Some(AccessDenied))
  }

  /** `ResolveAbsolutePath`. */
  method ResolveAbsolutePath(s: Sandbox, op: string, absPath: string) returns (r: Resolved)
    ensures r == AbsoluteResolution(s, op, absPath)
  {
    if s.isolation == ProjectConfig.IsolationNone {
      return Resolved(absPath, None);
    }
    if HasPrefix(absPath, s.sandboxPath) {
      return Resolved(absPath, None);
    }
    if HasPrefix(absPath, s.sourcePath) {
      if Mutating(op) {
        return Resolved("", Some(WriteNotAllowed));
      }
      return Resolved(absPath, None);
    }
    var shared := s.sharedPaths;
    for i := 0 to |shared|
      invariant FirstPrefix(shared, absPath) == FirstPrefix(shared[i..], absPath)
    {
      assert shared[i..][1..] == shared[i + 1..];
      if HasPrefix(absPath, shared[i]) {
        if Mutating(op) {
          return Resolved("", Some(WriteNotAllowed));
        }
        return Resolved(absPath, None);
      }
    }
    return Resolved("", Some(AccessDenied));
  }

  /** `IsWritable`. */
  method IsWritable(s: Sandbox, path: string, env: Env) returns (w: bool)
    ensures w <==> Resolution(s, "write", path, env).err.None?
  {
    var r := ResolvePath(s, "write", path, env);
    w := r.err.None?;
  }

  /** `IsReadable`: the read resolution succeeds and what it names exists. */
  method IsReadable(s: Sandbox, path: string, env: Env) returns (b: bool)
    ensures b <==> Resolution(s, "read", path, env).err.None? && env.exists_(Resolution(s, "read", path, env).path)
  {
    var r := ResolvePath(s, "read", path, env);
    if r.err.Some? {
      return false;
    }
    b := env.exists_(r.path);
  }

  /** Under isolation a readable path lies in one of the allowed directories. */
  lemma ReadableIsAllowed(s: Sandbox, path: string, env: Env)
    requires s.isolation != ProjectConfig.IsolationNone && CleanBases(s)
    requires Resolution(s, "read", path, env).err.None? && env.exists_(Resolution(s, "read", path, env).path)
    ensures exists i :: 0 <= i < |ListAllowedPaths(s)| && Within(Resolution(s, "read", path, env).path, ListAllowedPaths(s)[i])
  {
    ReadsStayInAllowed(s, path, env);
  }

  /** Without isolation every path passes through unchanged. */
  lemma IsolationNonePassesThrough(s: Sandbox, op: string, path: string, env: Env)
    requires s.isolation == ProjectConfig.IsolationNone
    ensures Resolution(s, op, path, env) == Resolved(path, None)
    ensures AbsoluteResolution(s, op, path) == Resolved(path, None)
  {
  }

  /** A path is refused as outside the sandbox exactly when its cleaned relative form climbs with "..". */
  lemma OutsideSandboxExactly(s: Sandbox, op: string, path: string, env: Env)
    requires s.isolation != ProjectConfig.IsolationNone
    ensures Resolution(s, op, path, env).err == Some(OutsideSandbox) <==>
      HasPrefix(Clean(if IsAbs(path) then RelativeTo(Bases(s), path, env.rel) else path), "..")
  {
  }

  /**
   * A write, delete or create that succeeds under isolation lands in the
   * sandbox directory, whatever path was asked for.
   */
  lemma WritesStayInSandbox(s: Sandbox, op: string, path: string, env: Env)
    requires s.isolation != ProjectConfig.IsolationNone && Mutating(op)
    requires IsAbs(s.sandboxPath) && Clean(s.sandboxPath) == s.sandboxPath
    ensures Resolution(s, op, path, env).err.None? ==> Within(Resolution(s, op, path, env).path, s.sandboxPath)
  {
    var p := if IsAbs(path) then RelativeTo(Bases(s), path, env.rel) else path;
    if !HasPrefix(Clean(p), "..") {
      CleanedJoinStaysWithin(s.sandboxPath, p);
    }
  }

  /** Every base is a clean absolute directory. */
  predicate CleanBases(s: Sandbox) {
    forall i :: 0 <= i < |Bases(s)| ==> IsAbs(Bases(s)[i]) && Clean(Bases(s)[i]) == Bases(s)[i]
  }

  /** The cleaned relative form `ResolvePath` works on. */
  function Cleaned(s: Sandbox, path: string, env: Env): string {
    Clean(if IsAbs(path) then RelativeTo(Bases(s), path, env.rel) else path)
  }

  lemma ReadFound(s: Sandbox, p: string, env: Env)
    requires CleanBases(s) && !HasPrefix(Clean(p), "..")
    ensures var r := ReadResolution(s, Clean(p), env);
      r.err.None? ==> exists i :: 0 <= i < |Bases(s)| && Within(r.path, Bases(s)[i]) && env.exists_(r.path)
  {
    var c := Clean(p);
    var found := FirstExisting(Bases(s), c, env.exists_);
    if found.Some? {
      var i :| 0 <= i < |Bases(s)| && found.value == JoinAll([Bases(s)[i], c]) && env.exists_(found.value);
      CleanedJoinStaysWithin(Bases(s)[i], p);
    }
  }

  /**
   * A read that succeeds returns an existing path inside one of the allowed
   * bases; when the path exists nowhere the error comes with the sandbox path.
   */
  lemma ReadsStayInAllowed(s: Sandbox, path: string, env: Env)
    requires s.isolation != ProjectConfig.IsolationNone && CleanBases(s)
    ensures var r := Resolution(s, "read", path, env);
      r.err.None? ==> exists i :: 0 <= i < |ListAllowedPaths(s)| && Within(r.path, ListAllowedPaths(s)[i]) && env.exists_(r.path)
    ensures var r := Resolution(s, "read", path, env);
      r.err == Some(FileNotFound) ==> r.path == JoinAll([s.sandboxPath, Cleaned(s, path, env)])
  {
    var p := if IsAbs(path) then RelativeTo(Bases(s), path, env.rel) else path;
    if !HasPrefix(Clean(p), "..") {
      assert Resolution(s, "read", path, env) == ReadResolution(s, Clean(p), env);
      assert ListAllowedPaths(s) == Bases(s);
      ReadFound(s, p, env);
    }
  }

  /** Under isolation a mutating operation on an absolute path succeeds only inside the sandbox. */
  lemma AbsoluteWritesOnlyInSandbox(s: Sandbox, op: string, absPath: string)
    requires s.isolation != ProjectConfig.IsolationNone && Mutating(op)
    ensures AbsoluteResolution(s, op, absPath).err.None? <==> HasPrefix(absPath, s.sandboxPath)
  {
  }

  /** Reads of an absolute path succeed exactly under one of the allowed bases. */
  lemma AbsoluteReadsUnderAllowed(s: Sandbox, absPath: string)
    requires s.isolation != ProjectConfig.IsolationNone
    ensures AbsoluteResolution(s, "read", absPath).err.None? <==>
      exists i :: 0 <= i < |ListAllowedPaths(s)| && HasPrefix(absPath, ListAllowedPaths(s)[i])
  {
    var bases := ListAllowedPaths(s);
    if FirstPrefix(s.sharedPaths, absPath).Some? {
      var b := FirstPrefix(s.sharedPaths, absPath).value;
      var k :| 0 <= k < |s.sharedPaths| && s.sharedPaths[k] == b;
      assert bases[2 + k] == b;
    }
    if exists i :: 0 <= i < |bases| && HasPrefix(absPath, bases[i]) {
      var i :| 0 <= i < |bases| && HasPrefix(absPath, bases[i]);
      if i >= 2 {
        assert s.sharedPaths[i - 2] == bases[i];
      }
    }
  }
}
