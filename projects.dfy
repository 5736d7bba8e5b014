/**
 * The global project index: the list of known projects, each under a unique
 * name, kept in the projects directory's index file and loaded once per
 * process. The file is modelled by what reading it gives, a save by how it
 * goes (failing saves leave the file as it was), and the clock by `now`.
 */
module Projects {
  import opened Wrappers

  datatype ProjectIndexEntry = ProjectIndexEntry(name: string, sourcePath: string, team: string,
                                                 createdAt: int, updatedAt: int)

  /** What reading the index file gives. */
  datatype IndexFile = NoIndex | IndexUnreadable(err: string) | IndexUndecodable(err: string)
                     | IndexStored(entries: seq<ProjectIndexEntry>)

  /** How a save goes. */
  datatype SaveFault = NoFault | MkdirFailed(err: string) | WriteFailed(err: string)

  /** The index's state: the file, and the projects in memory. */
  datatype Index = Index(disk: IndexFile, projects: seq<ProjectIndexEntry>)

  // ---------------------------------------------------------------------------
  // The operations as values
  // ---------------------------------------------------------------------------

  /** `saveUnsafe`: the directory error is wrapped, the write error returned as is. */
  function Saving(x: Index, fault: SaveFault): (Index, Option<string>) {
    match fault
    case MkdirFailed(e) => (x, Some("create index directory: " + e))
    case WriteFailed(e) => (x, Some(e))
    case NoFault => (x.(disk := IndexStored(x.projects)), None)
  }

  /** `load`: a missing file is an empty index, written out at once. */
  function Loading(x: Index, fault: SaveFault): (Index, Option<string>) {
    match x.disk
    case NoIndex => Saving(x.(projects := []), fault)
    case IndexUnreadable(e) => (x, Some("read project index: " + e))
    case IndexUndecodable(e) => (x, Some("parse project index: " + e))
    case IndexStored(es) => (x.(projects := es), None)
  }

  /** The position of the first project with the name. */
  function Find(ps: seq<ProjectIndexEntry>, name: string): (r: Option<nat>)
    ensures r.Some? ==> r.value < |ps| && ps[r.value].name == name
    ensures r.Some? ==> forall j :: 0 <= j < r.value ==> ps[j].name != name
    ensures r.None? ==> forall j :: 0 <= j < |ps| ==> ps[j].name != name
  {
    if ps == [] then None
    else if ps[0].name == name then Some(0)
    else match Find(ps[1..], name)
      case None => None
      case Some(i) => Some(i + 1)
  }

  /** `Add`: a name already listed is refused; the new entry goes at the end. */
  function AddStep(x: Index, entry: ProjectIndexEntry, fault: SaveFault): (Index, Option<string>) {
    if Find(x.projects, entry.name).Some? then (x, Some("project already exists: " + entry.name))
    else Saving(x.(projects := x.projects + [entry]), fault)
  }

  /** `Remove`: the first project with the name is spliced out. */
  function RemoveStep(x: Index, name: string, fault: SaveFault): (Index, Option<string>) {
    match Find(x.projects, name)
    case None => (x, Some("project not found: " + name))
    case Some(i) => Saving(x.(projects := x.projects[..i] + x.projects[i + 1..]), fault)
  }

  /** `Get`. */
  function GetResult(ps: seq<ProjectIndexEntry>, name: string): Result<ProjectIndexEntry, string> {
    match Find(ps, name)
    case None => Err("project not found: " + name)
    case Some(i) => Ok(ps[i])
  }

  /** `Update`: the first project with the entry's name is replaced by the entry, stamped now. */
  function UpdateStep(x: Index, entry: ProjectIndexEntry, now: int, fault: SaveFault): (Index, Option<string>) {
    match Find(x.projects, entry.name)
    case None => (x, Some("project not found: " + entry.name))
    case Some(i) => Saving(x.(projects := x.projects[i := entry.(updatedAt := now)]), fault)
  }

  // ---------------------------------------------------------------------------
  // What they promise
  // ---------------------------------------------------------------------------

  /** No two projects share a name. */
  predicate UniqueNames(ps: seq<ProjectIndexEntry>) {
    forall i, j :: 0 <= i < j < |ps| ==> ps[i].name != ps[j].name
  }

  /** A save leaves the projects in memory as they are, and on success puts them on file. */
  lemma SaveKeepsProjects(x: Index, fault: SaveFault)
    ensures Saving(x, fault).0.projects == x.projects
    ensures Saving(x, fault).1.None? <==> fault.NoFault?
    ensures fault.NoFault? ==> Saving(x, fault).0.disk == IndexStored(x.projects)
    ensures !fault.NoFault? ==> Saving(x, fault).0 == x
  {
  }

  /** A missing index loads as no projects, and is written out empty when the save goes through. */
  lemma LoadMissingIsEmpty(x: Index, fault: SaveFault)
    requires x.disk.NoIndex?
    ensures Loading(x, fault).0.projects == []
    ensures Loading(x, fault).1.None? <==> fault.NoFault?
    ensures fault.NoFault? ==> Loading(x, fault).0.disk == IndexStored([])
  {
  }

  /** Loading a readable file puts its projects in memory; an unreadable one is an error that changes nothing. */
  lemma LoadStored(x: Index, fault: SaveFault)
    ensures x.disk.IndexStored? ==> Loading(x, fault) == (x.(projects := x.disk.entries), None)
    ensures x.disk.IndexUnreadable? ==> Loading(x, fault) == (x, Some("read project index: " + x.disk.err))
    ensures x.disk.IndexUndecodable? ==> Loading(x, fault) == (x, Some("parse project index: " + x.disk.err))
  {
  }

  /**
   * `Add` refuses exactly the names already listed, and then changes
   * nothing; otherwise it appends the entry, so that names stay unique.
   */
  lemma AddKeepsNamesUnique(x: Index, entry: ProjectIndexEntry, fault: SaveFault)
    ensures var (y, err) := AddStep(x, entry, fault);
      && ((exists j :: 0 <= j < |x.projects| && x.projects[j].name == entry.name) ==>
            y == x && err == Some("project already exists: " + entry.name))
      && ((forall j :: 0 <= j < |x.projects| ==> x.projects[j].name != entry.name) ==>
            y.projects == x.projects + [entry] && (err.None? <==> fault.NoFault?))
      && (UniqueNames(x.projects) ==> UniqueNames(y.projects))
  {
  }

  /**
   * `Remove` splices out the first project with the name and keeps the
   * others in order; with unique names none with that name is left. An
   * unknown name is an error that changes nothing.
   */
  lemma RemoveSplicesOut(x: Index, name: string, fault: SaveFault)
    ensures var (y, err) := RemoveStep(x, name, fault);
      match Find(x.projects, name)
      case None => y == x && err == Some("project not found: " + name)
      case Some(i) =>
        && |y.projects| == |x.projects| - 1
        && (forall j :: 0 <= j < i ==> y.projects[j] == x.projects[j])
        && (forall j :: i <= j < |y.projects| ==> y.projects[j] == x.projects[j + 1])
        && (err.None? <==> fault.NoFault?)
        && (UniqueNames(x.projects) ==> UniqueNames(y.projects))
        && (UniqueNames(x.projects) ==> forall j :: 0 <= j < |y.projects| ==> y.projects[j].name != name)
  {
    match Find(x.projects, name)
    case None =>
    case Some(i) =>
      SpliceOut(x.projects, i, name);
  }

  lemma SpliceOut(ps: seq<ProjectIndexEntry>, i: nat, name: string)
    requires i < |ps| && ps[i].name == name
    ensures var r := ps[..i] + ps[i + 1..];
      && |r| == |ps| - 1
      && (forall j :: 0 <= j < i ==> r[j] == ps[j])
      && (forall j :: i <= j < |r| ==> r[j] == ps[j + 1])
      && (UniqueNames(ps) ==> UniqueNames(r))
      && (UniqueNames(ps) ==> forall j :: 0 <= j < |r| ==> r[j].name != name)
  {
    var r := ps[..i] + ps[i + 1..];
    assert forall j :: i <= j < |r| ==> r[j] == ps[j + 1];
    if UniqueNames(ps) {
      forall j, k | 0 <= j < k < |r|
        ensures r[j].name != r[k].name
      {
        var j' := if j < i then j else j + 1;
        var k' := if k < i then k else k + 1;
        assert r[j] == ps[j'] && r[k] == ps[k'];
      }
      forall j | 0 <= j < |r|
        ensures r[j].name != name
      {
        var j' := if j < i then j else j + 1;
        assert r[j] == ps[j'];
      }
    }
  }

  /** `Get` succeeds exactly when some project has the name; with unique names it is the only one. */
  lemma GetFinds(ps: seq<ProjectIndexEntry>, name: string)
    ensures GetResult(ps, name).Ok? <==> exists j :: 0 <= j < |ps| && ps[j].name == name
    ensures GetResult(ps, name).Err? ==> GetResult(ps, name) == Err("project not found: " + name)
    ensures GetResult(ps, name).Ok? ==> GetResult(ps, name).value.name == name
    ensures GetResult(ps, name).Ok? && UniqueNames(ps) ==>
      forall j :: 0 <= j < |ps| && ps[j].name == name ==> ps[j] == GetResult(ps, name).value
  {
  }

  /**
   * `Update` replaces only the project with the entry's name, by the entry
   * stamped now, so names stay unique; an unknown name is an error that
   * changes nothing.
   */
  lemma UpdateReplaces(x: Index, entry: ProjectIndexEntry, now: int, fault: SaveFault)
    ensures var (y, err) := UpdateStep(x, entry, now, fault);
      match Find(x.projects, entry.name)
      case None => y == x && err == Some("project not found: " + entry.name)
      case Some(i) =>
        && |y.projects| == |x.projects|
        && y.projects[i] == entry.(updatedAt := now)
        && (forall j :: 0 <= j < |x.projects| && j != i ==> y.projects[j] == x.projects[j])
        && (err.None? <==> fault.NoFault?)
        && (UniqueNames(x.projects) ==> UniqueNames(y.projects))
  {
  }

  // ---------------------------------------------------------------------------
  // The index
  // ---------------------------------------------------------------------------

  class ProjectIndex {
    var disk: IndexFile
    var projects: seq<ProjectIndexEntry>

    function State(): Index
      reads this
    {
      Index(disk, projects)
    }

    /** The index `GetProjectIndex` allocates before loading it: no projects yet. */
    constructor (disk: IndexFile)
      ensures State() == Index(disk, [])
    {
      this.disk := disk;
      projects := [];
    }

    method SaveUnsafe(fault: SaveFault) returns (err: Option<string>)
      modifies this
      ensures (State(), err) == Saving(old(State()), fault)
    {
      match fault {
        case MkdirFailed(e) =>
          return Some("create index directory: " + e);
        case WriteFailed(e) =>
          return Some(e);
        case NoFault =>
          disk := IndexStored(projects);
          return None;
      }
    }

    method Load(fault: SaveFault) returns (err: Option<string>)
      modifies this
      ensures (State(), err) == Loading(old(State()), fault)
    {
      match disk {
        case NoIndex =>
          projects := [];
          err := SaveUnsafe(fault);
        case IndexUnreadable(e) =>
          return Some("read project index: " + e);
        case IndexUndecodable(e) =>
          return Some("parse project index: " + e);
        case IndexStored(es) =>
          projects := es;
          return None;
      }
    }

    method Add(entry: ProjectIndexEntry, fault: SaveFault) returns (err: Option<string>)
      modifies this
      ensures (State(), err) == AddStep(old(State()), entry, fault)
    {
      for i := 0 to |projects|
        invariant forall j :: 0 <= j < i ==> projects[j].name != entry.name
      {
        if projects[i].name == entry.name {
          return Some("project already exists: " + entry.name);
        }
      }
      projects := projects + [entry];
      err := SaveUnsafe(fault);
    }

    method Remove(name: string, fault: SaveFault) returns (err: Option<string>)
      modifies this
      ensures (State(), err) == RemoveStep(old(State()), name, fault)
    {
      var i := FindProject(projects, name);
      if i.None? {
        return Some("project not found: " + name);
      }
      projects := projects[..i.value] + projects[i.value + 1..];
      err := SaveUnsafe(fault);
    }

    method Get(name: string) returns (r: Result<ProjectIndexEntry, string>)
      ensures r == GetResult(projects, name)
    {
      var i := FindProject(projects, name);
      if i.None? {
        return Err("project not found: " + name);
      }
      return Ok(projects[i.value]);
    }

    /** `List`: a copy of the projects. */
    method List() returns (result: seq<ProjectIndexEntry>)
      ensures result == projects
    {
      result := projects;
    }

    method Update(entry: ProjectIndexEntry, now: int, fault: SaveFault) returns (err: Option<string>)
      modifies this
      ensures (State(), err) == UpdateStep(old(State()), entry, now, fault)
    {
      var i := FindProject(projects, entry.name);
      if i.None? {
        return Some("project not found: " + entry.name);
      }
      projects := projects[i.value := entry.(updatedAt := now)];
      err := SaveUnsafe(fault);
    }
  }

  /** The `for i, p := range idx.Projects { if p.Name == name` search of `Remove`, `Get` and `Update`. */
  method FindProject(ps: seq<ProjectIndexEntry>, name: string) returns (r: Option<nat>)
    ensures r == Find(ps, name)
  {
    for i := 0 to |ps|
      invariant forall j :: 0 <= j < i ==> ps[j].name != name
    {
      if ps[i].name == name {
        FindIs(ps, name, i);
        return Some(i);
      }
    }
    return None;
  }

  lemma {:induction false} FindIs(ps: seq<ProjectIndexEntry>, name: string, i: nat)
    requires i < |ps| && ps[i].name == name
    requires forall j :: 0 <= j < i ==> ps[j].name != name
    ensures Find(ps, name) == Some(i)
    decreases i
  {
    if i > 0 {
      FindIs(ps[1..], name, i - 1);
    }
  }

  // ---------------------------------------------------------------------------
  // The process-wide index, loaded once
  // ---------------------------------------------------------------------------

  /**
   * The process-wide index behind `GetProjectIndex`: whether the one load
   * has run, the index, and the error that load gave.
   */
  datatype Global = Global(initialized: bool, index: Index, initErr: Option<string>)

  /**
   * `GetProjectIndex` as written: the load error is kept in a variable of
   * the call that ran the load, so only that call reports it; every later
   * call is handed the index that failed to load, as if it had loaded.
   */
  function GetProjectIndexAsWritten(g: Global, fault: SaveFault): (Global, Option<string>) {
    if g.initialized then (g, None)
    else
      var (l, err) := Loading(g.index, fault);
      (Global(true, l, err), err)
  }

  /** `GetProjectIndex` as evidently intended: a failed load is reported to every caller. */
  function GetProjectIndexStep(g: Global, fault: SaveFault): (Global, Option<string>) {
    if g.initialized then (g, g.initErr)
    else
      var (l, err) := Loading(g.index, fault);
      (Global(true, l, err), err)
  }

  /** `AddProjectToIndex`: a new entry with both stamps now and no team. */
  function AddProjectToIndexStep(g: Global, name: string, sourcePath: string, now: int,
                                 loadFault: SaveFault, fault: SaveFault): (Global, Option<string>) {
    var (g1, err) := GetProjectIndexStep(g, loadFault);
    if err.Some? then (g1, err)
    else
      var (x, err2) := AddStep(g1.index, ProjectIndexEntry(name, sourcePath, "", now, now), fault);
      (g1.(index := x), err2)
  }

  /**
   * With the index as written, a corrupt index file is reported once, and
   * the next project added overwrites it with that project alone: every
   * project the file listed is lost.
   */
  lemma CorruptIndexOverwritten(e: string, name: string, sourcePath: string, now: int)
    ensures var g0 := Global(false, Index(IndexUndecodable(e), []), None);
      var (g1, err1) := GetProjectIndexAsWritten(g0, NoFault);
      var (g2, err2) := GetProjectIndexAsWritten(g1, NoFault);
      var (x, err3) := AddStep(g2.index, ProjectIndexEntry(name, sourcePath, "", now, now), NoFault);
      && err1 == Some("parse project index: " + e)
      && err2 == None && err3 == None
      && x.disk == IndexStored([ProjectIndexEntry(name, sourcePath, "", now, now)])
  {
  }

  /**
   * As intended, a failed load is reported on every later call, and adding
   * a project after it fails the same way and leaves the file untouched.
   */
  lemma FailedLoadReportedAgain(g: Global, fault: SaveFault, fault2: SaveFault, name: string, sourcePath: string,
                                now: int)
    requires !g.initialized
    requires GetProjectIndexStep(g, fault).1.Some?
    ensures var (g1, err1) := GetProjectIndexStep(g, fault);
      && GetProjectIndexStep(g1, fault2) == (g1, err1)
      && AddProjectToIndexStep(g1, name, sourcePath, now, fault2, fault2) == (g1, err1)
      && g1.index.disk == g.index.disk
  {
  }

  /** Until a load has failed, the index step as written and as intended are the same. */
  lemma IndexStepsAgree(g: Global, fault: SaveFault)
    requires g.initErr.None?
    ensures GetProjectIndexStep(g, fault) == GetProjectIndexAsWritten(g, fault)
  {
  }

  /** After a successful load the index is the loaded one, and later calls hand it over unchanged. */
  lemma LoadedOnce(g: Global, fault: SaveFault, fault2: SaveFault)
    requires !g.initialized && GetProjectIndexStep(g, fault).1.None?
    ensures var (g1, _) := GetProjectIndexStep(g, fault);
      && g1.initialized && g1.index == Loading(g.index, fault).0
      && GetProjectIndexStep(g1, fault2) == (g1, None)
  {
  }

  /** The process-wide index and its once-only load. */
  class GlobalIndex {
    var initialized: bool
    var initErr: Option<string>
    const index: ProjectIndex

    function State(): Global
      reads this, index
    {
      Global(initialized, index.State(), initErr)
    }

    constructor (disk: IndexFile)
      ensures State() == Global(false, Index(disk, []), None) && fresh(index)
    {
      initialized := false;
      initErr := None;
      index := new ProjectIndex(disk);
    }

    method GetProjectIndex(fault: SaveFault) returns (err: Option<string>)
      modifies this, index
      ensures (State(), err) == GetProjectIndexStep(old(State()), fault)
    {
      if !initialized {
        initialized := true;
        initErr := index.Load(fault);
      }
      return initErr;
    }

    method AddProjectToIndex(name: string, sourcePath: string, now: int, loadFault: SaveFault, fault: SaveFault)
      returns (err: Option<string>)
      modifies this, index
      ensures (State(), err) == AddProjectToIndexStep(old(State()), name, sourcePath, now, loadFault, fault)
    {
      err := GetProjectIndex(loadFault);
      if err.Some? {
        return;
      }
      err := index.Add(ProjectIndexEntry(name, sourcePath, "", now, now), fault);
    }

    method RemoveProjectFromIndex(name: string, loadFault: SaveFault, fault: SaveFault) returns (err: Option<string>)
      modifies this, index
      ensures var (g1, e1) := GetProjectIndexStep(old(State()), loadFault);
        if e1.Some? then State() == g1 && err == e1
        else (State(), err) == (var (x, e2) := RemoveStep(g1.index, name, fault); (g1.(index := x), e2))
    {
      err := GetProjectIndex(loadFault);
      if err.Some? {
        return;
      }
      err := index.Remove(name, fault);
    }

    method ListProjects(loadFault: SaveFault) returns (r: Result<seq<ProjectIndexEntry>, string>)
      modifies this, index
      ensures var (g1, e1) := GetProjectIndexStep(old(State()), loadFault);
        && State() == g1
        && r == if e1.Some? then Err(e1.value) else Ok(g1.index.projects)
    {
      var err := GetProjectIndex(loadFault);
      if err.Some? {
        return Err(err.value);
      }
      var ps := index.List();
      return Ok(ps);
    }

    method GetProject(name: string, loadFault: SaveFault) returns (r: Result<ProjectIndexEntry, string>)
      modifies this, index
      ensures var (g1, e1) := GetProjectIndexStep(old(State()), loadFault);
        && State() == g1
        && r == if e1.Some? then Err(e1.value) else GetResult(g1.index.projects, name)
    {
      var err := GetProjectIndex(loadFault);
      if err.Some? {
        return Err(err.value);
      }
      r := index.Get(name);
    }
  }
}
