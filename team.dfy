/**
 * A team of agents (internal/team/team.go): token settings, the defaults a
 * loaded team specification gets, the construction of its members, member
 * lookup by role, message routing into the two bounded channels, and the
 * task counters of `Status`. YAML decoding and environment expansion are the
 * parameter `parse`; the 8-character uuid prefixes of member IDs come from
 * the oracle `uid`; the set of registered provider IDs stands for the
 * provider registry.
 */
module Team {
  import opened Wrappers
  import TeamMember

  datatype TokenSettings = TokenSettings(mode: string, maxTokens: int, contextHistory: int)

  /** The parts of a role the team itself reads. */
  datatype Role = Role(title: string, name: string, names: seq<string>, count: int, visibility: string, provider: string)

  datatype TeamSpec = TeamSpec(apiVersion: string, kind: string, name: string, description: string,
                               clientFacing: seq<string>, roles: map<string, Role>, token: TokenSettings)

  datatype MemberRecord = MemberRecord(id: string, name: string, roleName: string, title: string, status: string)

  datatype Task = Task(id: string, content: string, from: string, to: string, status: string, priority: int)

  datatype Message = Message(id: string, kind: string, from: string, to: string, content: string, taskId: string)

  datatype TaskCounts = TaskCounts(pending: nat, inProgress: nat, completed: nat, total: nat)

  /** The buffer sizes of the client and internal channels. */
  const ClientCapacity: nat := 100
  const InternalCapacity: nat := 1000

  // ---------------------------------------------------------------------------
  // Token settings
  // ---------------------------------------------------------------------------

  /** The built-in settings of each mode; any unknown mode gets the normal ones. */
  function DefaultSettings(mode: string): TokenSettings {
    if mode == "low" then TokenSettings("low", 1024, 10)
    else if mode == "minimal" then TokenSettings("minimal", 512, 5)
    else TokenSettings("normal", 4096, 40)
  }

  /** Lower modes never allow more tokens or more history than higher ones. */
  lemma DefaultSettingsOrdered()
    ensures DefaultSettings("minimal").maxTokens < DefaultSettings("low").maxTokens < DefaultSettings("normal").maxTokens
    ensures DefaultSettings("minimal").contextHistory < DefaultSettings("low").contextHistory
    ensures DefaultSettings("low").contextHistory < DefaultSettings("normal").contextHistory
    ensures forall m :: m != "low" && m != "minimal" ==> DefaultSettings(m) == DefaultSettings("normal")
  {
  }

  // ---------------------------------------------------------------------------
  // LoadSpec defaults
  // ---------------------------------------------------------------------------

  /** A role's defaults: count 0 becomes 1, an empty visibility becomes "internal". */
  function RoleWithDefaults(r: Role): Role {
    r.(count := if r.count == 0 then 1 else r.count,
       visibility := if r.visibility == "" then "internal" else r.visibility)
  }

  /** The defaults `LoadSpec` fills in: API version, kind, and each role's defaults. */
  function WithDefaults(spec: TeamSpec): TeamSpec {
    spec.(apiVersion := if spec.apiVersion == "" then "ugudu/v1" else spec.apiVersion,
          kind := if spec.kind == "" then "Team" else spec.kind,
          roles := map n | n in spec.roles :: RoleWithDefaults(spec.roles[n]))
  }

  /** After defaulting nothing is empty, no role's count is 0, and what was set stays set. */
  lemma WithDefaultsComplete(spec: TeamSpec)
    ensures var d := WithDefaults(spec);
      && d.apiVersion != "" && d.kind != "" && d.roles.Keys == spec.roles.Keys
      && (spec.apiVersion != "" ==> d.apiVersion == spec.apiVersion)
      && (spec.kind != "" ==> d.kind == spec.kind)
      && forall n :: n in d.roles ==>
           && d.roles[n].count != 0 && d.roles[n].visibility != ""
           && (spec.roles[n].count != 0 ==> d.roles[n].count == spec.roles[n].count)
           && (spec.roles[n].visibility != "" ==> d.roles[n].visibility == spec.roles[n].visibility)
           && d.roles[n].(count := spec.roles[n].count, visibility := spec.roles[n].visibility) == spec.roles[n]
  {
  }

  /** Defaulting twice is defaulting once. */
  lemma WithDefaultsIdempotent(spec: TeamSpec)
    ensures WithDefaults(WithDefaults(spec)) == WithDefaults(spec)
  {
    var d := WithDefaults(spec);
    assert WithDefaults(d).roles == d.roles;
  }

  /** The loop of `LoadSpec` over the roles, defaulting each in place. */
  method RolesWithDefaults(roles: map<string, Role>) returns (rs: map<string, Role>)
    ensures rs == map n | n in roles :: RoleWithDefaults(roles[n])
  {
    rs := roles;
    var left := roles.Keys;
    while left != {}
      invariant left <= roles.Keys && rs.Keys == roles.Keys
      invariant forall n :: n in rs ==> rs[n] == if n in left then roles[n] else RoleWithDefaults(roles[n])
      decreases left
    {
      var name :| name in left;
      var role := rs[name];
      if role.count == 0 {
        role := role.(count := 1);
      }
      if role.visibility == "" {
        role := role.(visibility := "internal");
      }
      rs := rs[name := role];
      left := left - {name};
    }
  }

  /**
   * `LoadSpec`: a read error or a parse error is reported with its prefix;
   * otherwise the parsed specification with its defaults.
   */
  method LoadSpec(file: Result<string, string>, parse: string -> Result<TeamSpec, string>)
    returns (r: Result<TeamSpec, string>)
    ensures file.Err? ==> r == Err("read spec file: " + file.error)
    ensures file.Ok? && parse(file.value).Err? ==> r == Err("parse spec: " + parse(file.value).error)
    ensures file.Ok? && parse(file.value).Ok? ==> r == Ok(WithDefaults(parse(file.value).value))
  {
    if file.Err? {
      return Err("read spec file: " + file.error);
    }
    var parsed := parse(file.value);
    if parsed.Err? {
      return Err("parse spec: " + parsed.error);
    }
    var spec := parsed.value;
    if spec.apiVersion == "" {
      spec := spec.(apiVersion := "ugudu/v1");
    }
    if spec.kind == "" {
      spec := spec.(kind := "Team");
    }
    var roles := RolesWithDefaults(spec.roles);
    spec := spec.(roles := roles);
    return Ok(spec);
  }

  // ---------------------------------------------------------------------------
  // Member construction
  // ---------------------------------------------------------------------------

  /** A member's ID: the role name for a single-instance role, else role name, '-', uuid prefix. */
  function MemberId(roleName: string, role: Role, i: nat, uid: (string, nat) -> string): string {
    if role.count == 1 then roleName else roleName + "-" + uid(roleName, i)
  }

  /** The name given to member i: the role's Name for a single instance, else Names[i] if present. */
  function GivenName(role: Role, i: nat): string {
    if role.count == 1 && role.name != "" then role.name
    else if |role.names| > i then role.names[i]
    else ""
  }

  /** The member `NewMember` builds: idle, named by `GivenName` or else by the role title. */
  function NewMemberRecord(roleName: string, role: Role, i: nat, uid: (string, nat) -> string): MemberRecord {
    MemberRecord(MemberId(roleName, role, i, uid), TeamMember.MemberName(GivenName(role, i), role.title),
                 roleName, role.title, "idle")
  }

  /** The IDs of a role's members, in creation order: `count` of them (none for a count below 1). */
  function RoleMemberIds(roleName: string, role: Role, uid: (string, nat) -> string): seq<string> {
    var n := if role.count > 0 then role.count else 0;
    seq(n, i requires 0 <= i < n => MemberId(roleName, role, i, uid))
  }

  /** A single-instance role's only member is named after the role; a larger role's are all prefixed by it. */
  lemma RoleMemberIdsShape(roleName: string, role: Role, uid: (string, nat) -> string)
    ensures role.count == 1 ==> RoleMemberIds(roleName, role, uid) == [roleName]
    ensures role.count > 1 ==>
      && |RoleMemberIds(roleName, role, uid)| == role.count
      && forall i :: 0 <= i < role.count ==> RoleMemberIds(roleName, role, uid)[i][..|roleName| + 1] == roleName + "-"
  {
    if role.count > 1 {
      forall i | 0 <= i < role.count
        ensures RoleMemberIds(roleName, role, uid)[i][..|roleName| + 1] == roleName + "-"
      {
        var id := RoleMemberIds(roleName, role, uid)[i];
        assert id == roleName + "-" + uid(roleName, i);
        assert id[..|roleName| + 1] == (roleName + "-" + uid(roleName, i))[..|roleName| + 1];
      }
    }
  }

  /** The roles whose visibility is "client". */
  function ClientRoles(roles: map<string, Role>): set<string> {
    set n | n in roles && roles[n].visibility == "client"
  }

  /** The error for a role whose provider is not registered. */
  function MissingProvider(roleName: string, provider: string): string {
    "provider " + provider + " not found for role " + roleName + ": provider not found: " + provider
  }

  /** A member record is one that some role of the specification creates at some position. */
  predicate Built(m: MemberRecord, roles: map<string, Role>, uid: (string, nat) -> string) {
    exists n, k :: n in roles && 0 <= k < roles[n].count && m == NewMemberRecord(n, roles[n], k, uid)
  }

  /** Every member is stored under its own ID and starts idle. */
  predicate WellKeyed(members: map<string, MemberRecord>) {
    forall id :: id in members ==> members[id].id == id && members[id].status == "idle"
  }

  predicate NoDuplicates(s: seq<string>) {
    forall i, j :: 0 <= i < j < |s| ==> s[i] != s[j]
  }

  /** `members` with the records of a role's first `n` members added in creation order. */
  function Added(members: map<string, MemberRecord>, roleName: string, role: Role, uid: (string, nat) -> string, n: nat)
    : map<string, MemberRecord>
  {
    if n == 0 then members
    else
      var m := NewMemberRecord(roleName, role, n - 1, uid);
      Added(members, roleName, role, uid, n - 1)[m.id := m]
  }

  /** The ID of one of a role's first `n` members. */
  predicate IsRoleId(id: string, roleName: string, role: Role, uid: (string, nat) -> string, n: nat) {
    exists k :: 0 <= k < n && id == MemberId(roleName, role, k, uid)
  }

  /** The record one of a role's first `n` members gets. */
  predicate MadeBefore(m: MemberRecord, roleName: string, role: Role, uid: (string, nat) -> string, n: int) {
    exists k :: 0 <= k < n && m == NewMemberRecord(roleName, role, k, uid)
  }

  /** Adding a role's members keeps the map well keyed, keeps every key and stores each new ID. */
  lemma {:induction false} AddedKeys(members: map<string, MemberRecord>, roleName: string, role: Role,
                                     uid: (string, nat) -> string, n: nat)
    requires WellKeyed(members)
    ensures var ms := Added(members, roleName, role, uid, n);
      && WellKeyed(ms)
      && (forall id :: id in members ==> id in ms)
      && (forall k :: 0 <= k < n ==> MemberId(roleName, role, k, uid) in ms)
  {
    if n > 0 {
      AddedKeys(members, roleName, role, uid, n - 1);
    }
  }

  /** Adding a role's members leaves every entry whose key is not one of their IDs as it was. */
  lemma {:induction false} AddedOthers(members: map<string, MemberRecord>, roleName: string, role: Role,
                                       uid: (string, nat) -> string, n: nat)
    ensures var ms := Added(members, roleName, role, uid, n);
      forall id :: id in ms && !IsRoleId(id, roleName, role, uid, n) ==> id in members && ms[id] == members[id]
  {
    if n > 0 {
      AddedOthers(members, roleName, role, uid, n - 1);
      var m := NewMemberRecord(roleName, role, n - 1, uid);
      forall id | !IsRoleId(id, roleName, role, uid, n)
        ensures !IsRoleId(id, roleName, role, uid, n - 1) && id != m.id
      {
      }
    }
  }

  /** Adding a role's members gives each of their IDs the record of some member of the role. */
  lemma {:induction false} AddedRole(members: map<string, MemberRecord>, roleName: string, role: Role,
                                     uid: (string, nat) -> string, n: nat)
    ensures var ms := Added(members, roleName, role, uid, n);
      forall id :: id in ms && IsRoleId(id, roleName, role, uid, n) ==> MadeBefore(ms[id], roleName, role, uid, n)
  {
    if n > 0 {
      AddedRole(members, roleName, role, uid, n - 1);
      var prev := Added(members, roleName, role, uid, n - 1);
      var m := NewMemberRecord(roleName, role, n - 1, uid);
      var ms := prev[m.id := m];
      forall id | id in ms && IsRoleId(id, roleName, role, uid, n)
        ensures MadeBefore(ms[id], roleName, role, uid, n)
      {
        if id == m.id {
          assert ms[id] == NewMemberRecord(roleName, role, n - 1, uid);
        } else {
          var k :| 0 <= k < n && id == MemberId(roleName, role, k, uid);
          assert k < n - 1;
          assert IsRoleId(id, roleName, role, uid, n - 1);
          var j :| 0 <= j < n - 1 && prev[id] == NewMemberRecord(roleName, role, j, uid);
          assert ms[id] == NewMemberRecord(roleName, role, j, uid);
        }
      }
    }
  }

  /** What adding all of a role's members does to the member map. */
  lemma RoleAdded(members: map<string, MemberRecord>, roleName: string, role: Role, uid: (string, nat) -> string)
    requires WellKeyed(members)
    ensures var listed := RoleMemberIds(roleName, role, uid);
      var ms := Added(members, roleName, role, uid, |listed|);
      && WellKeyed(ms)
      && (forall id :: id in members ==> id in ms)
      && (forall id :: id in listed ==> id in ms)
      && (role.count <= 0 ==> ms == members)
      && (forall id :: id in ms ==>
            (id in members && ms[id] == members[id]) || MadeBefore(ms[id], roleName, role, uid, role.count))
  {
    var listed := RoleMemberIds(roleName, role, uid);
    var ms := Added(members, roleName, role, uid, |listed|);
    AddedKeys(members, roleName, role, uid, |listed|);
    AddedOthers(members, roleName, role, uid, |listed|);
    AddedRole(members, roleName, role, uid, |listed|);
    forall id | id in listed
      ensures id in ms
    {
      var k :| 0 <= k < |listed| && listed[k] == id;
    }
    forall id | id in ms
      ensures (id in members && ms[id] == members[id]) || MadeBefore(ms[id], roleName, role, uid, role.count)
    {
      if IsRoleId(id, roleName, role, uid, |listed|) {
        var k :| 0 <= k < |listed| && ms[id] == NewMemberRecord(roleName, role, k, uid);
      }
    }
  }

  /** Members kept from before, or made for a role of the specification, are all built by the specification. */
  lemma BuiltAfterRole(before: map<string, MemberRecord>, after: map<string, MemberRecord>, roles: map<string, Role>,
                       roleName: string, uid: (string, nat) -> string)
    requires roleName in roles
    requires forall id :: id in before ==> Built(before[id], roles, uid)
    requires forall id :: id in after ==>
      (id in before && after[id] == before[id]) || MadeBefore(after[id], roleName, roles[roleName], uid, roles[roleName].count)
    ensures forall id :: id in after ==> Built(after[id], roles, uid)
  {
    forall id | id in after
      ensures Built(after[id], roles, uid)
    {
      if !(id in before && after[id] == before[id]) {
        var k :| 0 <= k < roles[roleName].count && after[id] == NewMemberRecord(roleName, roles[roleName], k, uid);
      }
    }
  }

  /**
   * The records of one role's members added to `members` one by one, and
   * their IDs in creation order.
   */
  method RoleMemberRecords(members: map<string, MemberRecord>, roleName: string, role: Role, uid: (string, nat) -> string)
    returns (ms: map<string, MemberRecord>, listed: seq<string>)
    requires WellKeyed(members)
    ensures ms == Added(members, roleName, role, uid, |listed|) && listed == RoleMemberIds(roleName, role, uid)
  {
    var ids := RoleMemberIds(roleName, role, uid);
    ms, listed := members, [];
    for i := 0 to |ids|
      invariant listed == ids[..i]
      invariant ms == Added(members, roleName, role, uid, i)
    {
      var member := NewMemberRecord(roleName, role, i, uid);
      ms := ms[member.id := member];
      listed := listed + [member.id];
      assert ids[..i + 1] == ids[..i] + [ids[i]];
    }
    assert ids[..|ids|] == ids;
  }

  /** Every ID listed under a role is a member. */
  predicate Listed(byRole: map<string, seq<string>>, members: map<string, MemberRecord>) {
    forall r, id :: r in byRole && id in byRole[r] ==> id in members
  }

  /**
   * The member loop itself, over the member map and the lists by role:
   * the roles are visited in an unspecified order and a role with an
   * unregistered provider stops the loop with an error.
   */
  method BuildMembers(roles: map<string, Role>, registered: set<string>, uid: (string, nat) -> string)
    returns (r: Result<(), string>, members: map<string, MemberRecord>, byRole: map<string, seq<string>>)
    ensures Listed(byRole, members)
    ensures r.Err? <==> exists n :: n in roles && roles[n].provider !in registered
    ensures r.Err? ==> exists n :: n in roles && roles[n].provider !in registered && r.error == MissingProvider(n, roles[n].provider)
    ensures r.Ok? ==>
      && byRole.Keys == set n | n in roles && roles[n].count > 0
      && (forall n :: n in byRole ==> n in roles && byRole[n] == RoleMemberIds(n, roles[n], uid))
      && WellKeyed(members)
      && forall id :: id in members ==> Built(members[id], roles, uid)
  {
    members, byRole := map[], map[];
    var left := roles.Keys;
    while left != {}
      invariant left <= roles.Keys
      invariant forall n :: n in roles.Keys - left ==> roles[n].provider in registered
      invariant byRole.Keys == set n | n in roles.Keys - left && roles[n].count > 0
      invariant forall n :: n in byRole ==> n in roles && byRole[n] == RoleMemberIds(n, roles[n], uid)
      invariant Listed(byRole, members) && WellKeyed(members)
      invariant forall id :: id in members ==> Built(members[id], roles, uid)
      decreases left
    {
      var roleName :| roleName in left;
      var role := roles[roleName];
      if role.provider !in registered {
        return Err(MissingProvider(roleName, role.provider)), members, byRole;
      }
      var ms, listed := RoleMemberRecords(members, roleName, role, uid);
      RoleAdded(members, roleName, role, uid);
      BuiltAfterRole(members, ms, roles, roleName, uid);
      if |listed| > 0 {
        byRole := byRole[roleName := listed];
      }
      members := ms;
      left := left - {roleName};
    }
    return Ok(()), members, byRole;
  }

  class Team {
    var name: string
    var spec: TeamSpec
    var members: map<string, MemberRecord>
    var membersByRole: map<string, seq<string>>
    var clientFacing: seq<string>
    var tasks: map<string, Task>
    var clientQueue: seq<Message>
    var internalQueue: seq<Message>
    var tokenMode: string

    /** Every member listed under a role exists, and the channels are within their buffers. */
    predicate Valid()
      reads this
    {
      && (forall r, id :: r in membersByRole && id in membersByRole[r] ==> id in members)
      && |clientQueue| <= ClientCapacity && |internalQueue| <= InternalCapacity
    }

    /** The team before its members are created. */
    constructor (spec: TeamSpec)
      ensures this.spec == spec && name == spec.name && clientFacing == spec.clientFacing
      ensures members == map[] && membersByRole == map[] && tasks == map[]
      ensures clientQueue == [] && internalQueue == [] && tokenMode == ""
      ensures Valid()
    {
      this.spec, name, clientFacing := spec, spec.name, spec.clientFacing;
      members, membersByRole, tasks := map[], map[], map[];
      clientQueue, internalQueue, tokenMode := [], [], "";
    }

    /** `SetTokenMode`. */
    method SetTokenMode(mode: string)
      modifies this
      ensures tokenMode == mode
      ensures spec == old(spec) && members == old(members) && membersByRole == old(membersByRole)
      ensures tasks == old(tasks) && clientQueue == old(clientQueue) && internalQueue == old(internalQueue)
    {
      tokenMode := mode;
    }

    /** `GetTokenMode`: the stored mode, "normal" while none is set. */
    function GetTokenMode(): (m: string)
      reads this
      ensures m != ""
      ensures tokenMode != "" ==> m == tokenMode
      ensures tokenMode == "" ==> m == "normal"
    {
      if tokenMode == "" then "normal" else tokenMode
    }

    /** `GetTokenSettings`: the specification's settings when they name a mode, else the mode's defaults. */
    function GetTokenSettings(): (s: TokenSettings)
      reads this
      ensures spec.token.mode != "" ==> s == spec.token
      ensures spec.token.mode == "" ==> s == DefaultSettings(GetTokenMode())
      ensures s.mode != ""
    {
      if spec.token.mode != "" then spec.token else DefaultSettings(GetTokenMode())
    }

    /**
     * The member loop of `NewTeamWithPersistence`: roles are visited in an
     * unspecified order; an unregistered provider stops with an error;
     * otherwise each role with a positive count gets exactly `count` members.
     */
    method CreateMembers(registered: set<string>, uid: (string, nat) -> string) returns (r: Result<(), string>)
      requires members == map[] && membersByRole == map[] && Valid()
      modifies this
      ensures Valid()
      ensures r.Err? <==> exists n :: n in spec.roles && spec.roles[n].provider !in registered
      ensures r.Err? ==>
        exists n :: n in spec.roles && spec.roles[n].provider !in registered && r.error == MissingProvider(n, spec.roles[n].provider)
      ensures r.Ok? ==>
        && membersByRole.Keys == set n | n in spec.roles && spec.roles[n].count > 0
        && (forall n :: n in membersByRole ==> n in spec.roles && membersByRole[n] == RoleMemberIds(n, spec.roles[n], uid))
        && WellKeyed(members)
        && forall id :: id in members ==> Built(members[id], spec.roles, uid)
      ensures spec == old(spec) && clientFacing == old(clientFacing) && tasks == old(tasks)
      ensures clientQueue == old(clientQueue) && internalQueue == old(internalQueue) && tokenMode == old(tokenMode)
    {
      var ms, byRole;
      r, ms, byRole := BuildMembers(spec.roles, registered, uid);
      members, membersByRole := ms, byRole;
    }

    /** `GetMemberByRole` (a pure lookup over the role's list). */
    method GetMemberByRole(roleName: string) returns (m: Option<MemberRecord>)
      requires Valid()
      ensures m.None? <==> roleName !in membersByRole || membersByRole[roleName] == []
      ensures m.Some? ==>
        var ids := membersByRole[roleName];
        var k := FirstIdle(ids, members);
        m.value == members[if k < |ids| then ids[k] else ids[0]]
    {
      if roleName !in membersByRole || |membersByRole[roleName]| == 0 {
        return None;
      }
      var ids := membersByRole[roleName];
      for i := 0 to |ids|
        invariant forall j :: 0 <= j < i ==> members[ids[j]].status != "idle"
      {
        if members[ids[i]].status == "idle" {
          FirstIdleIs(ids, members, i);
          return Some(members[ids[i]]);
        }
      }
      FirstIdleIs(ids, members, |ids|);
      return Some(members[ids[0]]);
    }

    /**
     * `RouteMessage`: a message to "client" goes to the client channel, any
     * other to the internal channel; a full channel drops it.
     */
    method RouteMessage(msg: Message) returns (delivered: bool)
      requires Valid()
      modifies this
      ensures Valid()
      ensures msg.to == "client" ==>
        && internalQueue == old(internalQueue)
        && (delivered <==> |old(clientQueue)| < ClientCapacity)
        && clientQueue == old(clientQueue) + (if delivered then [msg] else [])
      ensures msg.to != "client" ==>
        && clientQueue == old(clientQueue)
        && (delivered <==> |old(internalQueue)| < InternalCapacity)
        && internalQueue == old(internalQueue) + (if delivered then [msg] else [])
      ensures members == old(members) && membersByRole == old(membersByRole) && tasks == old(tasks)
      ensures spec == old(spec) && tokenMode == old(tokenMode)
    {
      if msg.to == "client" {
        if |clientQueue| < ClientCapacity {
          clientQueue := clientQueue + [msg];
          return true;
        }
        return false;
      }
      if |internalQueue| < InternalCapacity {
        internalQueue := internalQueue + [msg];
        return true;
      }
      return false;
    }

    /** `AddTask`: stored under its ID, replacing any task with that ID. */
    method AddTask(task: Task)
      modifies this
      ensures tasks == old(tasks)[task.id := task]
      ensures members == old(members) && membersByRole == old(membersByRole) && spec == old(spec)
      ensures clientQueue == old(clientQueue) && internalQueue == old(internalQueue) && tokenMode == old(tokenMode)
    {
      tasks := tasks[task.id := task];
    }

    /** `GetTask`: nil for an unknown ID. */
    function GetTask(id: string): (t: Option<Task>)
      reads this
      ensures t.Some? <==> id in tasks
      ensures t.Some? ==> t.value == tasks[id] && t.value in tasks.Values
    {
      if id in tasks then Some(tasks[id]) else None
    }

    /** The task counters of `Status`: assigned tasks count as in progress; failed and blocked ones only in the total. */
    method TaskStatus() returns (c: TaskCounts)
      ensures c.pending == |WithStatus(tasks, {"pending"})|
      ensures c.inProgress == |WithStatus(tasks, {"in_progress", "assigned"})|
      ensures c.completed == |WithStatus(tasks, {"completed"})|
      ensures c.total == |tasks|
    {
      var pending, inProgress, completed := 0, 0, 0;
      var left := tasks.Keys;
      while left != {}
        invariant left <= tasks.Keys
        invariant pending == |WithStatus(tasks, {"pending"}) - left|
        invariant inProgress == |WithStatus(tasks, {"in_progress", "assigned"}) - left|
        invariant completed == |WithStatus(tasks, {"completed"}) - left|
        decreases left
      {
        var id :| id in left;
        var s := tasks[id].status;
        CountStep(tasks, {"pending"}, left, id);
        CountStep(tasks, {"in_progress", "assigned"}, left, id);
        CountStep(tasks, {"completed"}, left, id);
        if s == "pending" {
          pending := pending + 1;
        } else if s == "in_progress" || s == "assigned" {
          inProgress := inProgress + 1;
        } else if s == "completed" {
          completed := completed + 1;
        }
        left := left - {id};
      }
      c := TaskCounts(pending, inProgress, completed, |tasks|);
    }

    /**
     * The client-facing roles `NewTeamWithPersistence` ends with: the
     * specification's list, or when that is empty the roles with visibility
     * "client" (each once, in an unspecified order).
     */
    method DefaultClientFacing()
      modifies this
      ensures old(clientFacing) != [] ==> clientFacing == old(clientFacing)
      ensures old(clientFacing) == [] ==>
        && (forall n :: n in clientFacing <==> n in ClientRoles(spec.roles))
        && NoDuplicates(clientFacing)
      ensures members == old(members) && membersByRole == old(membersByRole) && tasks == old(tasks) && spec == old(spec)
      ensures clientQueue == old(clientQueue) && internalQueue == old(internalQueue) && tokenMode == old(tokenMode)
    {
      if |clientFacing| != 0 {
        return;
      }
      var left := spec.roles.Keys;
      while left != {}
        invariant left <= spec.roles.Keys
        invariant forall n :: n in clientFacing <==> n in ClientRoles(spec.roles) && n !in left
        invariant NoDuplicates(clientFacing)
        invariant members == old(members) && membersByRole == old(membersByRole) && tasks == old(tasks) && spec == old(spec)
        invariant clientQueue == old(clientQueue) && internalQueue == old(internalQueue) && tokenMode == old(tokenMode)
        decreases left
      {
        var n :| n in left;
        if spec.roles[n].visibility == "client" {
          clientFacing := clientFacing + [n];
        }
        left := left - {n};
      }
    }
  }

  /** The IDs of the tasks whose status is one of `statuses`. */
  function WithStatus(tasks: map<string, Task>, statuses: set<string>): set<string> {
    set id | id in tasks && tasks[id].status in statuses
  }

  /** Taking one more task out of `left` counts it once when its status is one of `statuses`. */
  lemma CountStep(tasks: map<string, Task>, statuses: set<string>, left: set<string>, id: string)
    requires id in left && id in tasks
    ensures |WithStatus(tasks, statuses) - (left - {id})| ==
      |WithStatus(tasks, statuses) - left| + (if tasks[id].status in statuses then 1 else 0)
  {
    var s := WithStatus(tasks, statuses);
    if tasks[id].status in statuses {
      assert s - (left - {id}) == (s - left) + {id};
    } else {
      assert s - (left - {id}) == s - left;
    }
  }

  /** Pending, in progress and completed are disjoint, so they never add up to more than the total. */
  lemma CountsWithinTotal(tasks: map<string, Task>)
    ensures |WithStatus(tasks, {"pending"})| + |WithStatus(tasks, {"in_progress", "assigned"})|
          + |WithStatus(tasks, {"completed"})| <= |tasks|
  {
    var a, b, c := WithStatus(tasks, {"pending"}), WithStatus(tasks, {"in_progress", "assigned"}), WithStatus(tasks, {"completed"});
    assert a * b == {} && (a + b) * c == {};
    assert |a + b| == |a| + |b|;
    assert |a + b + c| == |a + b| + |c|;
    SubsetCard(a + b + c, tasks.Keys);
  }

  lemma {:induction false} SubsetCard(a: set<string>, b: set<string>)
    requires a <= b
    ensures |a| <= |b|
    decreases |b|
  {
    if a != {} {
      var x :| x in a;
      SubsetCard(a - {x}, b - {x});
    }
  }

  /** The first position of an idle member, or the length. */
  function FirstIdle(ids: seq<string>, members: map<string, MemberRecord>): (k: nat)
    requires forall id :: id in ids ==> id in members
    ensures k <= |ids|
    ensures k < |ids| ==> members[ids[k]].status == "idle"
    ensures forall j :: 0 <= j < k ==> members[ids[j]].status != "idle"
  {
    if ids == [] then 0 else if members[ids[0]].status == "idle" then 0 else 1 + FirstIdle(ids[1..], members)
  }

  lemma FirstIdleIs(ids: seq<string>, members: map<string, MemberRecord>, k: nat)
    requires forall id :: id in ids ==> id in members
    requires k <= |ids| && (k < |ids| ==> members[ids[k]].status == "idle")
    requires forall j :: 0 <= j < k ==> members[ids[j]].status != "idle"
    ensures FirstIdle(ids, members) == k
  {
  }
}
