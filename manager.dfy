/**
 * The team manager (`internal/manager/manager.go`): the registry of
 * running team instances keyed by instance name, and the rows of the
 * store's `teams` table it keeps in step (`internal/manager/store.go`).
 * Loading a spec, building a team and starting it are oracles.
 */
module Manager {
  import opened Wrappers

  /** A registered team instance: its name, the spec it was made from, and whether it runs. */
  datatype Team = Team(name: string, specPath: string, running: bool)

  /** A row of the store's `teams` table. */
  datatype SavedTeam = SavedTeam(name: string, specPath: string, status: string)

  /**
   * `team.LoadSpec` (the spec's metadata name, or the error), the error
   * of `team.NewTeamWithPersistence` for a team name, and the error of
   * `Team.Start`.
   */
  datatype Loader = Loader(load: string -> Result<string, string>, build: string -> Option<string>, start: string -> Option<string>)

  /** `Status()`: the teams' statuses, their count, the providers and the data directory. */
  datatype StatusReport = StatusReport(teams: seq<Team>, teamCount: int, providers: seq<Provider>, dataDir: string)

  datatype Provider = Provider(id: string, name: string)

  /** The instance name `CreateTeamWithName` registers: the given name, else the spec's own. */
  function InstanceName(name: string, specName: string): (n: string)
    ensures name != "" ==> n == name
    ensures name == "" ==> n == specName
  {
    if name != "" then name else specName
  }

  /** Store `SaveTeam`: a new row is "stopped"; an existing row gets the new spec path and keeps its status. */
  function SaveTeam(rows: map<string, SavedTeam>, name: string, specPath: string): (r: map<string, SavedTeam>)
    ensures r.Keys == rows.Keys + {name}
    ensures r[name].name == name && r[name].specPath == specPath
    ensures r[name].status == if name in rows then rows[name].status else "stopped"
    ensures forall n :: n in rows && n != name ==> r[n] == rows[n]
  {
    if name in rows then rows[name := SavedTeam(name, specPath, rows[name].status)]
    else rows[name := SavedTeam(name, specPath, "stopped")]
  }

  /** Store `UpdateTeamStatus`: only an existing row changes, and only its status. */
  function UpdateStatus(rows: map<string, SavedTeam>, name: string, status: string): (r: map<string, SavedTeam>)
    ensures r.Keys == rows.Keys
    ensures name in rows ==> r[name] == rows[name].(status := status)
    ensures forall n :: n in rows && n != name ==> r[n] == rows[n]
  {
    if name in rows then rows[name := rows[name].(status := status)] else rows
  }

  /** What `restoreTeams` does with one saved row. */
  predicate Restorable(row: SavedTeam, loader: Loader) {
    row.specPath != "" && loader.load(row.specPath).Ok? && loader.build(row.name).None?
  }

  /** The registry after restoring `rows` in order: each restorable row under its saved name, stopped. */
  function Restored(teams: map<string, Team>, rows: seq<SavedTeam>, loader: Loader): map<string, Team> {
    if rows == [] then teams
    else
      var before := Restored(teams, rows[..|rows| - 1], loader);
      var row := rows[|rows| - 1];
      if Restorable(row, loader) then before[row.name := Team(row.name, row.specPath, false)] else before
  }

  /** The names of the restored rows that were running: the ones `restoreTeams` starts again. */
  function AutoStarted(rows: seq<SavedTeam>, loader: Loader): seq<string> {
    if rows == [] then []
    else
      var before := AutoStarted(rows[..|rows| - 1], loader);
      var row := rows[|rows| - 1];
      if Restorable(row, loader) && row.status == "running" then before + [row.name] else before
  }

  /** Some restorable row among `rows` carries the name `n`. */
  ghost predicate RestorableNamed(rows: seq<SavedTeam>, loader: Loader, n: string) {
    exists i :: 0 <= i < |rows| && Restorable(rows[i], loader) && rows[i].name == n
  }

  /**
   * After restoring, a name is registered exactly when it was before or
   * some restorable row carries it (so rows with an empty spec path are
   * never registered), and every team is filed under its own name.
   */
  lemma {:induction false} RestoredKeys(teams: map<string, Team>, rows: seq<SavedTeam>, loader: Loader)
    requires forall n :: n in teams ==> teams[n].name == n
    ensures var r := Restored(teams, rows, loader);
      && (forall n :: n in r <==> n in teams || RestorableNamed(rows, loader, n))
      && (forall n :: n in r ==> r[n].name == n)
    decreases |rows|
  {
    if rows != [] {
      var init := rows[..|rows| - 1];
      var last := rows[|rows| - 1];
      RestoredKeys(teams, init, loader);
      forall n
        ensures RestorableNamed(rows, loader, n) <==> RestorableNamed(init, loader, n) || (Restorable(last, loader) && last.name == n)
      {
        if RestorableNamed(rows, loader, n) {
          var i :| 0 <= i < |rows| && Restorable(rows[i], loader) && rows[i].name == n;
          if i < |init| {
            assert init[i] == rows[i];
          }
        }
        if RestorableNamed(init, loader, n) {
          var i :| 0 <= i < |init| && Restorable(init[i], loader) && init[i].name == n;
          assert rows[i] == init[i];
        }
        if Restorable(last, loader) && last.name == n {
          assert rows[|rows| - 1] == last;
        }
      }
    }
  }

  /** A team is restarted only if it was restored and saved as running. */
  lemma {:induction false} AutoStartedRestored(rows: seq<SavedTeam>, loader: Loader, n: string)
    requires n in AutoStarted(rows, loader)
    ensures exists i :: 0 <= i < |rows| && Restorable(rows[i], loader) && rows[i].status == "running" && rows[i].name == n
    decreases |rows|
  {
    var init := rows[..|rows| - 1];
    var row := rows[|rows| - 1];
    if n in AutoStarted(init, loader) {
      AutoStartedRestored(init, loader, n);
      var i :| 0 <= i < |init| && Restorable(init[i], loader) && init[i].status == "running" && init[i].name == n;
      assert rows[i] == init[i];
    } else {
      assert Restorable(row, loader) && row.status == "running" && row.name == n;
    }
  }

  /** `GetTeam`'s lookup; `Ask` and `AskMember` start with it. */
  function Lookup(teams: map<string, Team>, name: string): (r: Result<Team, string>)
    ensures r.Ok? <==> name in teams
    ensures r.Ok? ==> r.value == teams[name]
    ensures r.Err? ==> r.error == "team not found: " + name
  {
    if name in teams then Ok(teams[name]) else Err("team not found: " + name)
  }

  class Manager {
    var teams: map<string, Team>
    var rows: map<string, SavedTeam>
    const dataDir: string

    /** Every team is registered under its own name. */
    predicate Valid()
      reads this
    {
      forall n :: n in teams ==> teams[n].name == n
    }

    /** `New`: no teams yet, over a store that holds `rows`. */
    constructor (dataDir: string, rows: map<string, SavedTeam>)
      ensures Valid() && teams == map[] && this.rows == rows && this.dataDir == dataDir
    {
      this.dataDir := dataDir;
      teams := map[];
      this.rows := rows;
    }

    /** `CreateTeam`: the team takes the name its spec gives. */
    method CreateTeam(specPath: string, loader: Loader) returns (r: Result<string, string>)
      requires Valid()
      modifies this
      ensures Valid()
      ensures r == Created(old(teams), "", specPath, loader)
      ensures r.Err? ==> teams == old(teams) && rows == old(rows)
      ensures r.Ok? ==> teams == old(teams)[r.value := Team(r.value, specPath, false)] && rows == SaveTeam(old(rows), r.value, specPath)
    {
      r := CreateTeamWithName("", specPath, loader);
    }

    /** `CreateTeamWithName`: a non-empty `name` overrides the spec's. */
    method CreateTeamWithName(name: string, specPath: string, loader: Loader) returns (r: Result<string, string>)
      requires Valid()
      modifies this
      ensures Valid()
      ensures r == Created(old(teams), name, specPath, loader)
      ensures r.Err? ==> teams == old(teams) && rows == old(rows)
      ensures r.Ok? ==> teams == old(teams)[r.value := Team(r.value, specPath, false)] && rows == SaveTeam(old(rows), r.value, specPath)
    {
      var spec := loader.load(specPath);
      if spec.Err? {
        return Err("load spec: " + spec.error);
      }
      var n := InstanceName(name, spec.value);
      if n in teams {
        return Err("team " + n + " already exists");
      }
      var failure := loader.build(n);
      if failure.Some? {
        return Err("create team: " + failure.value);
      }
      teams := teams[n := Team(n, specPath, false)];
      rows := SaveTeam(rows, n, specPath);
      r := Ok(n);
    }

    /** `StartTeam`: an unknown name, or a team whose start fails, changes nothing. */
    method StartTeam(name: string, loader: Loader) returns (err: Option<string>)
      requires Valid()
      modifies this
      ensures Valid()
      ensures name !in old(teams) ==> err == Some("team not found: " + name) && teams == old(teams) && rows == old(rows)
      ensures name in old(teams) && loader.start(name).Some? ==>
        err == Some("start team: " + loader.start(name).value) && teams == old(teams) && rows == old(rows)
      ensures name in old(teams) && loader.start(name).None? ==>
        err == None && teams == old(teams)[name := old(teams)[name].(running := true)] && rows == UpdateStatus(old(rows), name, "running")
    {
      var t := Lookup(teams, name);
      if t.Err? {
        return Some(t.error);
      }
      var failure := loader.start(name);
      if failure.Some? {
        return Some("start team: " + failure.value);
      }
      teams := teams[name := t.value.(running := true)];
      rows := UpdateStatus(rows, name, "running");
      err := None;
    }

    /** `StopTeam`. */
    method StopTeam(name: string) returns (err: Option<string>)
      requires Valid()
      modifies this
      ensures Valid()
      ensures name !in old(teams) ==> err == Some("team not found: " + name) && teams == old(teams) && rows == old(rows)
      ensures name in old(teams) ==>
        err == None && teams == old(teams)[name := old(teams)[name].(running := false)] && rows == UpdateStatus(old(rows), name, "stopped")
    {
      var t := Lookup(teams, name);
      if t.Err? {
        return Some(t.error);
      }
      teams := teams[name := t.value.(running := false)];
      rows := UpdateStatus(rows, name, "stopped");
      err := None;
    }

    /** `DeleteTeam`: exactly that entry goes, from the registry and from the store. */
    method DeleteTeam(name: string) returns (err: Option<string>)
      requires Valid()
      modifies this
      ensures Valid()
      ensures name !in old(teams) ==> err == Some("team not found: " + name) && teams == old(teams) && rows == old(rows)
      ensures name in old(teams) ==> err == None && teams == old(teams) - {name} && rows == old(rows) - {name}
    {
      if name !in teams {
        return Some("team not found: " + name);
      }
      teams := teams - {name};
      rows := rows - {name};
      err := None;
    }

    /** `GetTeam`. */
    function GetTeam(name: string): (r: Result<Team, string>)
      reads this
      ensures r == Lookup(teams, name)
    {
      Lookup(teams, name)
    }

    /** `ListTeams`: every registered team once, in the map's iteration order. */
    method ListTeams() returns (ts: seq<Team>)
      requires Valid()
      ensures ListsEvery(ts, teams)
    {
      ts := [];
      var remaining := teams.Keys;
      while remaining != {}
        invariant remaining <= teams.Keys
        invariant |ts| + |remaining| == |teams|
        invariant forall n :: n in teams && n !in remaining ==> teams[n] in ts
        invariant forall t :: t in ts ==> t.name in teams && t.name !in remaining && teams[t.name] == t
        decreases |remaining|
      {
        var n :| n in remaining;
        ts := ts + [teams[n]];
        remaining := remaining - {n};
      }
    }

    /** `Status`: the count it reports is the number of registered teams. */
    method Status(providers: seq<Provider>) returns (s: StatusReport)
      requires Valid()
      ensures s.teamCount == |teams| == |s.teams|
      ensures ListsEvery(s.teams, teams)
      ensures s.providers == providers && s.dataDir == dataDir
    {
      var ts := ListTeams();
      s := StatusReport(ts, |teams|, providers, dataDir);
    }

    /**
     * `restoreTeams` over the store's listing: a failed listing is
     * returned; otherwise each restorable row is registered under its
     * saved name, and the running ones are started again afterwards.
     */
    method RestoreTeams(listing: Result<seq<SavedTeam>, string>, loader: Loader) returns (err: Option<string>, autoStart: seq<string>)
      requires Valid()
      modifies this
      ensures Valid() && rows == old(rows)
      ensures listing.Err? ==> err == Some(listing.error) && teams == old(teams) && autoStart == []
      ensures listing.Ok? ==> err == None && teams == Restored(old(teams), listing.value, loader) && autoStart == AutoStarted(listing.value, loader)
    {
      autoStart := [];
      if listing.Err? {
        return Some(listing.error), [];
      }
      var saved := listing.value;
      var i := 0;
      while i < |saved|
        invariant 0 <= i <= |saved|
        invariant Valid() && rows == old(rows)
        invariant teams == Restored(old(teams), saved[..i], loader)
        invariant autoStart == AutoStarted(saved[..i], loader)
      {
        assert saved[..i + 1][..i] == saved[..i];
        var row := saved[i];
        if row.specPath != "" && loader.load(row.specPath).Ok? && loader.build(row.name).None? {
          teams := teams[row.name := Team(row.name, row.specPath, false)];
          if row.status == "running" {
            autoStart := autoStart + [row.name];
          }
        }
        i := i + 1;
      }
      assert saved[..|saved|] == saved;
      err := None;
    }
  }

  /** What `CreateTeamWithName` answers. */
  function Created(teams: map<string, Team>, name: string, specPath: string, loader: Loader): (r: Result<string, string>)
    ensures loader.load(specPath).Err? ==> r == Err("load spec: " + loader.load(specPath).error)
    ensures loader.load(specPath).Ok? && InstanceName(name, loader.load(specPath).value) in teams ==>
      r == Err("team " + InstanceName(name, loader.load(specPath).value) + " already exists")
    ensures r.Ok? <==> (loader.load(specPath).Ok? && InstanceName(name, loader.load(specPath).value) !in teams
      && loader.build(InstanceName(name, loader.load(specPath).value)).None?)
    ensures r.Ok? ==> r.value == InstanceName(name, loader.load(specPath).value)
  {
    match loader.load(specPath)
    case Err(e) => Err("load spec: " + e)
    case Ok(specName) =>
      var n := InstanceName(name, specName);
      if n in teams then Err("team " + n + " already exists")
      else match loader.build(n)
        case Some(e) => Err("create team: " + e)
        case None => Ok(n)
  }

  /** The teams listed: each registered team exactly once. */
  ghost predicate ListsEvery(ts: seq<Team>, teams: map<string, Team>) {
    && |ts| == |teams|
    && (forall n :: n in teams ==> teams[n] in ts)
    && (forall t :: t in ts ==> t.name in teams && teams[t.name] == t)
  }
}
