/**
 * The built-in tool registry and the argument handling of its file, command
 * and HTTP tools. Tool arguments are decoded JSON objects; a JSON number
 * (`float64` in Go) is `JInt` or `JReal`. The file system, `filepath.Abs`,
 * the process runner and the HTTP client are parameters; what is modelled is
 * which arguments are demanded, how paths are resolved and what each step
 * makes of the previous one's outcome.
 */
module Tools {
  import opened Wrappers
  import opened GoStrings
  import opened FilePath
  import opened ProviderTypes

  /** A registered tool: its name and its description. */
  datatype ToolInfo = ToolInfo(name: string, description: string)

  const ReadFileTool := ToolInfo("read_file", "Read the contents of a file")
  const WriteFileTool := ToolInfo("write_file", "Write content to a file")
  const EditFileTool := ToolInfo("edit_file", "Edit a file by replacing text")
  const ListFilesTool := ToolInfo("list_files", "List files in a directory")
  const RunCommandTool := ToolInfo("run_command", "Execute a shell command")
  const HTTPRequestTool := ToolInfo("http_request", "Make an HTTP request")
  const SearchFilesTool := ToolInfo("search_files", "Search for files matching a pattern")

  /** The seven built-ins, in registration order. */
  const Builtins: seq<ToolInfo> :=
    [ReadFileTool, WriteFileTool, EditFileTool, ListFilesTool, RunCommandTool, HTTPRequestTool, SearchFilesTool]

  /** The registry `NewRegistry` builds, keyed by name. */
  const BuiltinMap: map<string, ToolInfo> := map[
    ReadFileTool.name := ReadFileTool, WriteFileTool.name := WriteFileTool,
    EditFileTool.name := EditFileTool, ListFilesTool.name := ListFilesTool,
    RunCommandTool.name := RunCommandTool, HTTPRequestTool.name := HTTPRequestTool,
    SearchFilesTool.name := SearchFilesTool]

  /** The built-ins have distinct names, so every one of them is registered. */
  lemma BuiltinMapHoldsBuiltins()
    ensures forall i :: 0 <= i < |Builtins| ==> BuiltinMap[Builtins[i].name] == Builtins[i]
    ensures |BuiltinMap| == |Builtins|
  {
  }

  /** What a tool's `Execute` may produce. */
  type Runner = (ToolInfo, map<string, Json>) -> Result<Json, string>

  class Registry {
    var tools: map<string, ToolInfo>

    /** Every tool is stored under its own name. */
    predicate Valid()
      reads this
    {
      forall n :: n in tools ==> tools[n].name == n
    }

    /** `NewRegistry`: the built-ins, registered one after another. */
    constructor ()
      ensures Valid()
      ensures tools == BuiltinMap
    {
      tools := map[];
      new;
      Register(ReadFileTool);
      Register(WriteFileTool);
      Register(EditFileTool);
      Register(ListFilesTool);
      Register(RunCommandTool);
      Register(HTTPRequestTool);
      Register(SearchFilesTool);
    }

    /** `Register`: keyed by the tool's name; a tool with the same name is replaced. */
    method Register(t: ToolInfo)
      requires Valid()
      modifies this
      ensures Valid()
      ensures tools == old(tools)[t.name := t]
    {
      tools := tools[t.name := t];
    }

    /** `Get`. */
    function Get(name: string): (r: Option<ToolInfo>)
      reads this
      ensures r.Some? <==> name in tools
      ensures r.Some? ==> r.value == tools[name]
    {
      if name in tools then Some(tools[name]) else None
    }

    /** `List`: every registered tool once, in the map's unspecified order. */
    method List() returns (r: seq<ToolInfo>)
      requires Valid()
      ensures |r| == |tools|
      ensures forall t :: t in r <==> t in tools.Values
      ensures forall i, j :: 0 <= i < j < |r| ==> r[i].name != r[j].name
    {
      r := [];
      var left := tools.Keys;
      while left != {}
        invariant left <= tools.Keys
        invariant |r| + |left| == |tools|
        invariant forall t :: t in r <==> t in tools.Values && t.name !in left
        invariant forall k :: 0 <= k < |r| ==> r[k].name in tools.Keys - left
        invariant forall i, j :: 0 <= i < j < |r| ==> r[i].name != r[j].name
        decreases left
      {
        var name :| name in left;
        r := r + [tools[name]];
        left := left - {name};
      }
    }

    /** `Execute`: "tool not found: name" for an unregistered name, otherwise the tool's own result. */
    function Execute(name: string, args: map<string, Json>, run: Runner): (r: Result<Json, string>)
      reads this
      ensures name !in tools ==> r == Err("tool not found: " + name)
      ensures name in tools ==> r == run(tools[name], args)
    {
      if name !in tools then Err("tool not found: " + name) else run(tools[name], args)
    }
  }

  /** An unknown name never reaches a tool: the result is the same whatever the tools would do. */
  lemma ExecuteUnknownRunsNothing(reg: Registry, name: string, args: map<string, Json>, run1: Runner, run2: Runner)
    requires name !in reg.tools
    ensures reg.Execute(name, args, run1) == reg.Execute(name, args, run2)
  {
  }

  // ---------------------------------------------------------------------
  // Arguments

  /** `args[key].(string)`. */
  function ArgString(args: map<string, Json>, key: string): (r: Option<string>)
    ensures r.Some? <==> key in args && args[key].JStr?
    ensures r.Some? ==> args[key] == JStr(r.value)
  {
    if key in args && args[key].JStr? then Some(args[key].s) else None
  }

  /** `args[key].(string)` that is present and not empty, as the tools demand of required arguments. */
  function ArgRequired(args: map<string, Json>, key: string): (r: Option<string>)
    ensures r.Some? <==> key in args && args[key].JStr? && args[key].s != ""
    ensures r.Some? ==> r.value == args[key].s
  {
    match ArgString(args, key)
    case Some(s) => if s == "" then None else Some(s)
    case None => None
  }

  /** An optional string argument, or `default` when it is absent or not a string. */
  function ArgStringOr(args: map<string, Json>, key: string, default: string): (r: string)
    ensures ArgString(args, key).Some? ==> r == args[key].s
    ensures ArgString(args, key).None? ==> r == default
  {
    ArgString(args, key).GetOr(default)
  }

  /** Go's conversion of a float to an integer: towards zero. */
  function Truncate(r: real): int {
    if r >= 0.0 then r.Floor else -((-r).Floor)
  }

  /** `args[key].(float64)`, truncated to whole units as `time.Duration(t)` does. */
  function ArgNumber(args: map<string, Json>, key: string): (r: Option<int>)
    ensures r.Some? <==> key in args && (args[key].JInt? || args[key].JReal?)
  {
    if key !in args then None
    else match args[key]
      case JInt(i) => Some(i)
      case JReal(x) => Some(Truncate(x))
      case _ => None
  }

  /** The string elements of a JSON array, in order; the tools skip every other element. */
  function StringItems(xs: seq<Json>): (r: seq<string>)
    ensures |r| <= |xs|
  {
    if xs == [] then []
    else if xs[|xs| - 1].JStr? then StringItems(xs[..|xs| - 1]) + [xs[|xs| - 1].s]
    else StringItems(xs[..|xs| - 1])
  }

  /** A string is kept exactly when the array holds it. */
  lemma {:induction false} StringItemsMembership(xs: seq<Json>)
    ensures forall s :: s in StringItems(xs) <==> JStr(s) in xs
  {
    if xs != [] {
      var init := xs[..|xs| - 1];
      StringItemsMembership(init);
      assert xs == init + [xs[|xs| - 1]];
    }
  }

  /** The tools' loop that keeps, in order, the string elements of an array argument. */
  method CollectStrings(xs: seq<Json>) returns (r: seq<string>)
    ensures r == StringItems(xs)
  {
    r := [];
    for i := 0 to |xs|
      invariant r == StringItems(xs[..i])
    {
      assert xs[..i + 1][..i] == xs[..i];
      if xs[i].JStr? {
        r := r + [xs[i].s];
      }
    }
    assert xs[..|xs|] == xs;
  }

  /** The array argument's string elements, or none when the argument is not an array. */
  function StringsArg(args: map<string, Json>, key: string): (r: seq<string>)
    ensures forall s :: s in r <==> key in args && args[key].JArr? && JStr(s) in args[key].items
  {
    if key in args && args[key].JArr? then
      StringItemsMembership(args[key].items);
      StringItems(args[key].items)
    else []
  }

  // ---------------------------------------------------------------------
  // resolveSafePath

  const ProjectsRoot := "ugudu_projects"
  const DefaultProject := "default"

  /** The directory relative paths are put under: home/ugudu_projects/default. */
  function ProjectsDir(home: string): string {
    JoinAll([home, ProjectsRoot, DefaultProject])
  }

  /** The path with one leading "/" removed when it is absolute. */
  function Unrooted(path: string): string {
    if IsAbs(path) then TrimPrefix(path, "/") else path
  }

  /**
   * `resolveSafePath` as written: after cleaning, only one leading "../" and
   * then one leading ".." are removed, so a path climbing three or more
   * levels keeps a "/.." that the final join resolves above the projects
   * directory. `home` is what `os.UserHomeDir` gives ("" when it fails).
   */
  function ResolveSafePathAsWritten(path: string, home: string): (r: string)
    ensures IsAbs(path) && HasPrefix(path, home) ==> r == path
  {
    if IsAbs(path) && HasPrefix(path, home) then path
    else
      var cleanPath := Clean(Unrooted(path));
      var cleanPath := TrimPrefix(cleanPath, "../");
      var cleanPath := TrimPrefix(cleanPath, "..");
      JoinAll([ProjectsDir(home), cleanPath])
  }

  /** The elements that are left once the leading ".." elements are dropped. */
  function DropParents(st: seq<string>): (r: seq<string>)
    ensures |r| <= |st| && r == st[|st| - |r|..]
    ensures r != [] ==> r[0] != ".."
  {
    if st != [] && st[0] == ".." then DropParents(st[1..]) else st
  }

  /** The relative part `resolveSafePath` is meant to keep: the cleaned path without any leading "..". */
  function SafeRelative(path: string): string {
    Join(DropParents(Elements(Unrooted(path))), "/")
  }

  /**
   * `resolveSafePath` as its comment intends: an absolute path that starts
   * with the home directory is kept; any other path is cleaned, loses every
   * leading ".." and is joined under the projects directory.
   */
  function ResolveSafePath(path: string, home: string): (r: string)
    ensures IsAbs(path) && HasPrefix(path, home) ==> r == path
    ensures !(IsAbs(path) && HasPrefix(path, home)) ==> r == JoinAll([ProjectsDir(home), SafeRelative(path)])
  {
    if IsAbs(path) && HasPrefix(path, home) then path
    else JoinAll([ProjectsDir(home), SafeRelative(path)])
  }

  lemma ProjectsDirClean(home: string)
    requires IsAbs(home)
    ensures IsAbs(ProjectsDir(home)) && Clean(ProjectsDir(home)) == ProjectsDir(home)
  {
    var parts := [home, ProjectsRoot, DefaultProject];
    assert parts[1..] == [ProjectsRoot, DefaultProject] && parts[1..][1..] == [DefaultProject];
    assert [DefaultProject][1..] == [];
    assert NonEmpty([DefaultProject]) == [DefaultProject];
    assert NonEmpty([ProjectsRoot, DefaultProject]) == [ProjectsRoot, DefaultProject];
    assert NonEmpty(parts) == parts;
    JoinLeading(parts, "/");
    var j := Join(parts, "/");
    assert IsAbs(j);
    assert ProjectsDir(home) == Clean(j);
    CleanIdempotent(j);
  }

  lemma {:induction false} DropParentsNames(st: seq<string>, rooted: bool)
    requires Normal(st, rooted)
    ensures forall i :: 0 <= i < |DropParents(st)| ==> IsName(DropParents(st)[i])
    decreases |st|
  {
    if st != [] && st[0] == ".." {
      assert Normal(st[1..], rooted) by {
        forall i, j | 0 <= i < j < |st[1..]| && st[1..][j] == ".." ensures st[1..][i] == ".." {
          assert st[j + 1] == "..";
        }
      }
      DropParentsNames(st[1..], rooted);
    } else if st != [] {
      forall i | 0 <= i < |st| ensures IsName(st[i]) {
        assert st[0] != "..";
      }
    }
  }

  lemma SafeRelativeNoDotDot(path: string)
    ensures NoDotDot(Split(SafeRelative(path), '/'))
  {
    var p := Unrooted(path);
    FoldNormal(Split(p, '/'), IsAbs(p));
    DropParentsNames(Elements(p), IsAbs(p));
    var names := DropParents(Elements(p));
    if names == [] {
      assert Split("", '/') == [""];
    } else {
      JoinSplit(names, '/');
    }
  }

  /**
   * The corrected resolution never leaves the projects directory unless it
   * kept an absolute path that starts with the home directory.
   */
  lemma ResolveSafePathStaysInProjects(path: string, home: string)
    requires IsAbs(home)
    requires !(IsAbs(path) && HasPrefix(path, home))
    ensures Within(ResolveSafePath(path, home), ProjectsDir(home))
  {
    ProjectsDirClean(home);
    SafeRelativeNoDotDot(path);
    JoinStaysWithin(ProjectsDir(home), SafeRelative(path));
  }

  /** On paths that do not climb, the corrected resolution is the written one. */
  lemma ResolveSafePathAgrees(path: string, home: string)
    requires !IsAbs(path) && Elements(path) != []
    requires !HasPrefix(Clean(path), "..")
    ensures ResolveSafePath(path, home) == ResolveSafePathAsWritten(path, home)
  {
    assert Unrooted(path) == path;
    CleanKeepsNames(path);
  }

  /** A cleaned relative path that does not climb keeps every element and survives both trims. */
  lemma CleanKeepsNames(path: string)
    requires !IsAbs(path) && Elements(path) != []
    requires !HasPrefix(Clean(path), "..")
    ensures SafeRelative(path) == Clean(path)
    ensures TrimPrefix(TrimPrefix(Clean(path), "../"), "..") == Clean(path)
  {
    var st := Elements(path);
    var c := Clean(path);
    assert Unrooted(path) == path;
    assert c == Join(st, "/");
    JoinHead(st, "/");
    assert st[0] != "..";
    assert DropParents(st) == st;
    assert SafeRelative(path) == c;
    assert TrimPrefix(TrimPrefix(c, "../"), "..") == c;
  }

  lemma JoinHead(parts: seq<string>, sep: string)
    requires |parts| >= 1
    ensures HasPrefix(Join(parts, sep), parts[0])
  {
  }

  /** A relative path whose elements are already in normal form is its own cleaned form. */
  lemma CleanFixed(s: string)
    requires !IsAbs(s) && Normal(Split(s, '/'), false)
    ensures Clean(s) == s
  {
    FoldKeepsNormal(Split(s, '/'), false);
    SplitJoin(s, '/');
  }

  /** A '/'-free head splits off as one element. */
  lemma SplitCons(a: string, b: string)
    requires '/' !in a
    ensures Split(a + "/" + b, '/') == [a] + Split(b, '/')
  {
    NoSeparator(a, '/');
    SplitConcat(a, b, '/');
    assert a + "/" + b == a + ['/'] + b;
  }

  /** Names appended to a rooted scan are kept as they are. */
  lemma FoldNames(st: seq<string>, names: seq<string>)
    requires forall i :: 0 <= i < |names| ==> IsName(names[i])
    ensures Fold(st, names, true) == st + names
  {
    assert Normal(names, true);
    FoldAppends(st, names, true);
    FoldKeepsNormal(names, true);
  }

  /** Two names joined under a clean directory, element by element. */
  lemma GrandchildElements(home: string, a: string, b: string)
    requires IsAbs(home) && Clean(home) == home && home != "/"
    requires IsName(a) && IsName(b)
    ensures JoinAll([home, a, b]) == home + "/" + a + "/" + b
    ensures Elements(home + "/" + a + "/" + b) == Elements(home) + [a, b]
  {
    GrandchildPath(home, a, b);
    var rest := a + "/" + b;
    NoSeparator(b, '/');
    SplitCons(a, b);
    JoinElements(home, rest);
    FoldNames(Elements(home), [a, b]);
    assert home + "/" + rest == home + "/" + a + "/" + b;
  }

  /** "../../../x" splits into three ".." and the name. */
  lemma ClimbSplit(x: string)
    requires IsName(x)
    ensures Split("../../../" + x, '/') == ["..", "..", "..", x]
  {
    ClimbText(x);
    UpThree(x);
  }

  lemma ClimbText(x: string)
    ensures "../../../" + x == "../" + ("../" + ("../" + x))
  {
  }

  lemma UpThree(x: string)
    requires '/' !in x
    ensures Split("../" + ("../" + ("../" + x)), '/') == ["..", "..", "..", x]
  {
    NoSeparator(x, '/');
    UpCons(x);
    UpCons("../" + x);
    UpCons("../" + ("../" + x));
  }

  /** A leading "../" splits off as one ".." element. */
  lemma UpCons(b: string)
    ensures Split("../" + b, '/') == [".."] + Split(b, '/')
  {
    var up := "..";
    assert '/' !in up;
    SplitCons(up, b);
    assert up + "/" + b == "../" + b;
  }

  /** A path that climbs three levels before a name is already clean. */
  lemma ClimbClean(x: string)
    requires IsName(x)
    ensures Clean("../../../" + x) == "../../../" + x
  {
    var p := "../../../" + x;
    ClimbSplit(x);
    var segs := ["..", "..", "..", x];
    assert Normal(segs, false);
    assert !IsAbs(p) by { assert p[0] == '.'; }
    CleanFixed(p);
  }

  /** The two trims of `resolveSafePath` leave "/../x" of "../../../x". */
  lemma ClimbTrims(x: string)
    ensures TrimPrefix(TrimPrefix("../../../" + x, "../"), "..") == "/../" + x
  {
    var p := "../../../" + x;
    assert p == "../" + ("../../" + x);
    assert HasPrefix(p, "../");
    var q := "../../" + x;
    assert TrimPrefix(p, "../") == q;
    assert q == ".." + ("/../" + x);
    assert HasPrefix(q, "..");
  }

  /** Scanning "", ".." and a name after a last-element name replaces that name. */
  lemma ReplaceLast(st: seq<string>, b: string, x: string)
    requires IsName(b) && IsName(x)
    ensures Fold(st + [b], ["", "..", x], true) == st + [x]
  {
    var segs := ["", "..", x];
    var t := st + [b];
    assert segs[..2] == ["", ".."] && segs[..2][..1] == [""] && [""][..0] == [];
    assert Fold(t, [], true) == t;
    assert Fold(t, [""], true) == Step(t, "", true) == t;
    assert t[..|t| - 1] == st;
    assert Fold(t, ["", ".."], true) == Step(t, "..", true) == st;
    assert Fold(t, segs, true) == Step(st, x, true);
  }

  /** Two non-empty parts are joined with one separator and cleaned. */
  lemma JoinAllPair(d: string, c: string)
    requires d != "" && c != ""
    ensures JoinAll([d, c]) == Clean(d + "/" + c)
  {
    assert [d, c][1..] == [c] && [c][1..] == [];
    assert NonEmpty([c]) == [c];
    assert NonEmpty([d, c]) == [d, c];
    assert Join([d, c], "/") == d + "/" + c;
  }

  /** "/../x" splits into "", ".." and the name. */
  lemma UpNameSplit(x: string)
    requires IsName(x)
    ensures Split("/../" + x, '/') == ["", "..", x]
  {
    NoSeparator(x, '/');
    UpCons(x);
    SplitCons("", "../" + x);
    assert "" + "/" + ("../" + x) == "/../" + x;
  }

  /** A clean absolute path other than the root is "/" and its non-empty elements, joined. */
  lemma CleanRootedElements(home: string)
    requires IsAbs(home) && Clean(home) == home && home != "/"
    ensures Elements(home) != [] && home == "/" + Join(Elements(home), "/")
  {
  }

  /** "/../x" joined under home/a/b gives home/a/x. */
  lemma ClimbJoin(home: string, a: string, b: string, x: string)
    requires IsAbs(home) && Clean(home) == home && home != "/"
    requires IsName(a) && IsName(b) && IsName(x)
    ensures JoinAll([home + "/" + a + "/" + b, "/../" + x]) == home + "/" + a + "/" + x
  {
    JoinAllPair(home + "/" + a + "/" + b, "/../" + x);
    ClimbCleanValue(home, a, b, x);
    RootedNames(home, a, x);
  }

  /** Cleaning home/a/b + "/" + "/../x" keeps home's elements, a and x. */
  lemma ClimbCleanValue(home: string, a: string, b: string, x: string)
    requires IsAbs(home) && Clean(home) == home && home != "/"
    requires IsName(a) && IsName(b) && IsName(x)
    ensures Clean(home + "/" + a + "/" + b + "/" + ("/../" + x)) == "/" + Join(Elements(home) + [a, x], "/")
  {
    var p := home + "/" + a + "/" + b + "/" + ("/../" + x);
    ClimbElements(home, a, b, x);
    assert IsAbs(p) by { assert p[0] == home[0]; }
  }

  /** A clean absolute home's elements and two names, joined under the root, are home/a/x. */
  lemma RootedNames(home: string, a: string, x: string)
    requires IsAbs(home) && Clean(home) == home && home != "/"
    requires IsName(a) && IsName(x)
    ensures "/" + Join(Elements(home) + [a, x], "/") == home + "/" + a + "/" + x
  {
    var sd := Elements(home);
    CleanRootedElements(home);
    JoinConcat(sd, [a, x], "/");
    assert Join([a, x], "/") == a + "/" + x;
  }

  /** The elements of home/a/b + "/" + "/../x": home's, then a and x. */
  lemma ClimbElements(home: string, a: string, b: string, x: string)
    requires IsAbs(home) && Clean(home) == home && home != "/"
    requires IsName(a) && IsName(b) && IsName(x)
    ensures Elements(home + "/" + a + "/" + b + "/" + ("/../" + x)) == Elements(home) + [a, x]
  {
    var pd := home + "/" + a + "/" + b;
    var c := "/../" + x;
    GrandchildElements(home, a, b);
    assert IsAbs(pd) by { assert pd[0] == home[0]; }
    JoinElements(pd, c);
    UpNameSplit(x);
    var sd := Elements(home);
    ReplaceLast(sd + [a], b, x);
    assert sd + [a, b] == sd + [a] + [b];
  }

  /** home/a/x is not inside home/a/b when x is another name. */
  lemma SiblingOutside(pre: string, b: string, x: string)
    requires IsName(x) && IsName(b) && x != b
    ensures !Within(pre + x, pre + b)
  {
    var r := pre + x;
    var d := pre + b;
    assert r[|pre|..] == x && d[|pre|..] == b;
    assert d != "/" by {
      if pre == "" {
        assert d == b;
      }
    }
    assert !HasPrefix(r, d + "/") by {
      if |d + "/"| <= |r| {
        assert r[|pre| + |b|] == x[|b|];
        assert x[|b|] != '/';
        assert (d + "/")[|pre| + |b|] == '/';
      }
    }
  }

  /** As written, "../../../x" is cleaned, trimmed to "/../x" and joined under the projects directory. */
  lemma AsWrittenClimb(home: string, x: string)
    requires IsName(x)
    ensures ResolveSafePathAsWritten("../../../" + x, home) == JoinAll([ProjectsDir(home), "/../" + x])
  {
    var p := "../../../" + x;
    assert !IsAbs(p) by { assert p[0] == '.'; }
    assert Unrooted(p) == p;
    ClimbClean(x);
    ClimbTrims(x);
  }

  /**
   * As written, `resolveSafePath` sends "../../../x", for any name x other
   * than "default", to home/ugudu_projects/x: outside the projects directory
   * that the corrected resolution never leaves.
   */
  lemma ResolveSafePathAsWrittenEscapes(home: string, x: string)
    requires IsAbs(home) && Clean(home) == home && home != "/"
    requires IsName(x) && x != DefaultProject
    ensures ResolveSafePathAsWritten("../../../" + x, home) == home + "/" + ProjectsRoot + "/" + x
    ensures !Within(ResolveSafePathAsWritten("../../../" + x, home), ProjectsDir(home))
    ensures Within(ResolveSafePath("../../../" + x, home), ProjectsDir(home))
  {
    ProjectNames();
    AsWrittenClimb(home, x);
    ClimbUnder(home, ProjectsRoot, DefaultProject, x);
    SiblingOutside(home + "/" + ProjectsRoot + "/", DefaultProject, x);
    ResolveSafePathStaysInProjects("../../../" + x, home);
  }

  lemma ProjectNames()
    ensures IsName(ProjectsRoot) && IsName(DefaultProject)
  {
  }

  /** Climbing out of home/a/b with "/../x" lands on home/a/x, next to b. */
  lemma ClimbUnder(home: string, a: string, b: string, x: string)
    requires IsAbs(home) && Clean(home) == home && home != "/"
    requires IsName(a) && IsName(b) && IsName(x)
    ensures JoinAll([home, a, b]) == home + "/" + a + "/" + b == (home + "/" + a + "/") + b
    ensures JoinAll([JoinAll([home, a, b]), "/../" + x]) == home + "/" + a + "/" + x == (home + "/" + a + "/") + x
  {
    GrandchildPath(home, a, b);
    ClimbJoin(home, a, b, x);
  }

  // ---------------------------------------------------------------------
  // The tools

  /** `read_file`: `abs` is `filepath.Abs`, `read` is `os.ReadFile`. */
  function ReadFile(args: map<string, Json>, abs: string -> Result<string, string>,
                    read: string -> Result<string, string>): (r: Result<Json, string>)
    ensures ArgString(args, "path").None? ==> r == Err("path is required")
    ensures ArgString(args, "path").Some? && abs(args["path"].s).Err? ==>
      r == Err("invalid path: " + abs(args["path"].s).error)
    ensures r.Ok? ==> r.value.JObj? && r.value.fields.Keys == {"path", "content", "size"}
  {
    match ArgString(args, "path")
    case None => Err("path is required")
    case Some(path) =>
      match abs(path)
      case Err(e) => Err("invalid path: " + e)
      case Ok(absPath) =>
        match read(absPath)
        case Err(e) => Err("read file: " + e)
        case Ok(content) =>
          Ok(JObj(map["path" := JStr(absPath), "content" := JStr(content), "size" := JInt(|content|)]))
  }

  /** The file a tool writes and what it writes there. */
  datatype FileWrite = FileWrite(path: string, content: string)

  /**
   * `write_file` up to the write: the path and content it demands and the
   * file it would write. `mkdirAll` gives the error of `os.MkdirAll`.
   */
  function WritePlan(args: map<string, Json>, home: string, mkdirAll: string -> Option<string>): (r: Result<FileWrite, string>)
    ensures ArgString(args, "path").None? ==> r == Err("path is required")
    ensures ArgString(args, "path").Some? && ArgString(args, "content").None? ==> r == Err("content is required")
    ensures r.Ok? ==> r.value == FileWrite(ResolveSafePath(args["path"].s, home), args["content"].s)
  {
    match ArgString(args, "path")
    case None => Err("path is required")
    case Some(path) =>
      match ArgString(args, "content")
      case None => Err("content is required")
      case Some(content) =>
        var absPath := ResolveSafePath(path, home);
        match mkdirAll(Dir(absPath))
        case Some(e) => Err("create directory: " + e)
        case None => Ok(FileWrite(absPath, content))
  }

  /** `write_file`: `write` gives the error of `os.WriteFile`. */
  function WriteFile(args: map<string, Json>, home: string, mkdirAll: string -> Option<string>,
                     write: FileWrite -> Option<string>): (r: Result<Json, string>)
    ensures WritePlan(args, home, mkdirAll).Err? ==> r == Err(WritePlan(args, home, mkdirAll).error)
    ensures r.Ok? ==> var w := WritePlan(args, home, mkdirAll).value;
      write(w).None? && r.value == JObj(map["path" := JStr(w.path), "written" := JInt(|w.content|)])
  {
    match WritePlan(args, home, mkdirAll)
    case Err(e) => Err(e)
    case Ok(w) =>
      match write(w)
      case Some(e) => Err("write file: " + e)
      case None => Ok(JObj(map["path" := JStr(w.path), "written" := JInt(|w.content|)]))
  }

  /**
   * `edit_file` up to the write: the arguments it demands and the new
   * content, the file's content with the first occurrence of old_text
   * replaced. No write is planned when old_text is absent.
   */
  function EditPlan(args: map<string, Json>, home: string, read: string -> Result<string, string>): (r: Result<FileWrite, string>)
    ensures ArgString(args, "path").None? ==> r == Err("path is required")
    ensures ArgString(args, "path").Some? && ArgString(args, "old_text").None? ==> r == Err("old_text is required")
    ensures ArgString(args, "path").Some? && ArgString(args, "old_text").Some? && ArgString(args, "new_text").None? ==>
      r == Err("new_text is required")
    ensures r.Ok? ==>
      var p := ResolveSafePath(args["path"].s, home);
      var oldText := args["old_text"].s;
      && read(p).Ok? && Contains(read(p).value, oldText)
      && r.value == FileWrite(p, ReplaceFirst(read(p).value, oldText, args["new_text"].s))
  {
    match ArgString(args, "path")
    case None => Err("path is required")
    case Some(pathArg) =>
      match ArgString(args, "old_text")
      case None => Err("old_text is required")
      case Some(oldText) =>
        match ArgString(args, "new_text")
        case None => Err("new_text is required")
        case Some(newText) =>
          var absPath := ResolveSafePath(pathArg, home);
          match read(absPath)
          case Err(e) => Err("read file: " + e)
          case Ok(content) =>
            if !Contains(content, oldText) then Err("old_text not found in file")
            else Ok(FileWrite(absPath, ReplaceFirst(content, oldText, newText)))
  }

  /** `edit_file`. */
  function EditFile(args: map<string, Json>, home: string, read: string -> Result<string, string>,
                    write: FileWrite -> Option<string>): (r: Result<Json, string>)
    ensures EditPlan(args, home, read).Err? ==> r == Err(EditPlan(args, home, read).error)
    ensures r.Ok? ==> var w := EditPlan(args, home, read).value;
      write(w).None? && r.value == JObj(map["path" := JStr(w.path), "replaced" := JBool(true)])
  {
    match EditPlan(args, home, read)
    case Err(e) => Err(e)
    case Ok(w) =>
      match write(w)
      case Some(e) => Err("write file: " + e)
      case None => Ok(JObj(map["path" := JStr(w.path), "replaced" := JBool(true)]))
  }

  /** When old_text is missing from the file, edit_file fails and its result does not depend on the writer. */
  lemma EditWithoutMatchWritesNothing(args: map<string, Json>, home: string, read: string -> Result<string, string>,
                                      w1: FileWrite -> Option<string>, w2: FileWrite -> Option<string>)
    requires ArgString(args, "path").Some? && ArgString(args, "old_text").Some? && ArgString(args, "new_text").Some?
    requires read(ResolveSafePath(args["path"].s, home)).Ok?
    requires !Contains(read(ResolveSafePath(args["path"].s, home)).value, args["old_text"].s)
    ensures EditFile(args, home, read, w1) == Err("old_text not found in file")
    ensures EditFile(args, home, read, w1) == EditFile(args, home, read, w2)
  {
  }

  /** Where list_files, run_command and search_files work: "." and relative paths are resolved safely. */
  function WorkingPath(p: string, home: string): (r: string)
    ensures p != "." && IsAbs(p) ==> r == p
    ensures p == "." || !IsAbs(p) ==> r == ResolveSafePath(p, home)
  {
    if p == "." || !IsAbs(p) then ResolveSafePath(p, home) else p
  }

  /** The directory `list_files` reads: the path argument, "." when absent. */
  function ListFilesDir(args: map<string, Json>, home: string): (d: string)
    ensures ArgString(args, "path").None? ==> d == ResolveSafePath(".", home)
    ensures ArgString(args, "path").Some? ==> d == WorkingPath(args["path"].s, home)
  {
    WorkingPath(ArgString(args, "path").GetOr("."), home)
  }

  /** The root `search_files` walks: the root argument, "." when absent. */
  function SearchRoot(args: map<string, Json>, home: string): (d: string)
    ensures ArgString(args, "root").None? ==> d == ResolveSafePath(".", home)
    ensures ArgString(args, "root").Some? ==> d == WorkingPath(args["root"].s, home)
  {
    WorkingPath(ArgString(args, "root").GetOr("."), home)
  }

  /** What `run_command` runs: the command, its timeout in seconds and its directory. */
  datatype CommandSetup = CommandSetup(command: string, timeoutSeconds: int, dir: string)

  /** `run_command` up to running `sh -c`. */
  function RunCommandSetup(args: map<string, Json>, home: string): (r: Result<CommandSetup, string>)
    ensures ArgString(args, "command").None? ==> r == Err("command is required")
    ensures ArgString(args, "command").Some? ==> r.Ok? && r.value.command == args["command"].s
    ensures r.Ok? && ArgNumber(args, "timeout").None? ==> r.value.timeoutSeconds == 60
    ensures r.Ok? && ArgNumber(args, "timeout").Some? ==> r.value.timeoutSeconds == ArgNumber(args, "timeout").value
    ensures r.Ok? && ArgString(args, "directory").None? ==> r.value.dir == ResolveSafePath(".", home)
    ensures r.Ok? && ArgString(args, "directory").Some? ==> r.value.dir == WorkingPath(args["directory"].s, home)
  {
    match ArgString(args, "command")
    case None => Err("command is required")
    case Some(command) =>
      var timeout := ArgNumber(args, "timeout").GetOr(60);
      var dir := match ArgString(args, "directory")
        case Some(d) => WorkingPath(d, home)
        case None => ResolveSafePath(".", home);
      Ok(CommandSetup(command, timeout, dir))
  }

  /** `http_request`'s method: GET unless a string method is supplied, which is upper-cased. */
  function HTTPMethod(args: map<string, Json>): (m: string)
    ensures ArgString(args, "method").None? ==> m == "GET"
    ensures ArgString(args, "method").Some? ==> m == ToUpper(args["method"].s)
  {
    match ArgString(args, "method")
    case None => "GET"
    case Some(m) => ToUpper(m)
  }

  /** `http_request` up to sending: the URL it demands and the method. */
  function HTTPRequestSetup(args: map<string, Json>): (r: Result<(string, string), string>)
    ensures ArgString(args, "url").None? ==> r == Err("url is required")
    ensures ArgString(args, "url").Some? ==> r == Ok((HTTPMethod(args), args["url"].s))
  {
    match ArgString(args, "url")
    case None => Err("url is required")
    case Some(url) => Ok((HTTPMethod(args), url))
  }

  /** A supplied method never has a lower-case ASCII letter. */
  lemma HTTPMethodUpper(args: map<string, Json>)
    ensures forall k :: 0 <= k < |HTTPMethod(args)| ==> !('a' <= HTTPMethod(args)[k] <= 'z')
  {
  }
}
