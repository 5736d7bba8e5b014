/**
 * The workspace task store: the project's tasks, read once from the tasks
 * file and kept in memory, written back after every change, with task
 * updates handed to an optional activity logger.
 *
 * The tasks file is modelled by what reading it gives; a save either fails
 * (creating the directory, or writing, in which case the file is taken to be
 * as it was) or replaces it. The clock (`now`), `UnixNano` (`stamp`) and the
 * logger's entry IDs (`entryId`) are parameters; the logger is modelled by
 * the entries handed to it, whose own errors the store ignores.
 */
module TaskStore {
  import opened Wrappers
  import opened GoStrings
  import opened Activity
  import opened ProviderTypes
  import Tally
  import WS = Workspace

  datatype TaskComment = TaskComment(id: string, author: string, content: string, createdAt: int)

  datatype Task = Task(
    id: string,
    title: string,
    description: string,
    status: string,
    priority: string,
    assignedTo: string,
    createdBy: string,
    createdAt: int,
    updatedAt: int,
    dueDate: Option<int>,
    tags: seq<string>,
    comments: seq<TaskComment>)

  /** What reading the tasks file gives. */
  datatype TaskFile = NoFile | ReadFailed(err: string) | Undecodable(err: string) | Stored(tasks: seq<Task>)

  /** How a save goes. */
  datatype SaveFault = NoFault | MkdirFailed(err: string) | WriteFailed(err: string)

  /** The store's state: the file, the tasks in memory, the loaded flag and the entries handed to the logger. */
  datatype Store = Store(disk: TaskFile, tasks: seq<Task>, loaded: bool, hasLogger: bool, logged: seq<ActivityEntry>)

  /** What an operation leaves: the new state, its error, and the value it gives back. */
  datatype Step<T> = Step(store: Store, err: Option<string>, value: T)

  // ---------------------------------------------------------------------------
  // load and save
  // ---------------------------------------------------------------------------

  /** `load`: once loaded the file is not read again; a missing file is an empty list. */
  function Loading(s: Store): Result<Store, string> {
    if s.loaded then Ok(s)
    else match s.disk
      case NoFile => Ok(s.(tasks := [], loaded := true))
      case ReadFailed(e) => Err("read tasks: " + e)
      case Undecodable(e) => Err("parse tasks: " + e)
      case Stored(ts) => Ok(s.(tasks := ts, loaded := true))
  }

  /** `save`: the error of creating the directory is wrapped, that of writing returned as is. */
  function Saving(s: Store, fault: SaveFault): (Store, Option<string>) {
    match fault
    case MkdirFailed(e) => (s, Some("create tasks directory: " + e))
    case WriteFailed(e) => (s, Some(e))
    case NoFault => (s.(disk := Stored(s.tasks)), None)
  }

  /**
   * A load that succeeds marks the store loaded and changes nothing but the
   * tasks in memory, so that loading again gives the same store: the file is
   * read at most once. A missing file loads as no tasks.
   */
  lemma LoadOnce(s: Store)
    ensures Loading(s).Ok? ==> var l := Loading(s).value;
      && l.loaded && l.disk == s.disk && l.logged == s.logged && Loading(l) == Ok(l)
    ensures s.loaded ==> Loading(s) == Ok(s)
    ensures !s.loaded && s.disk.NoFile? ==> Loading(s).Ok? && Loading(s).value.tasks == []
    ensures !s.loaded && s.disk.Stored? ==> Loading(s).Ok? && Loading(s).value.tasks == s.disk.tasks
    ensures Loading(s).Err? <==> !s.loaded && (s.disk.ReadFailed? || s.disk.Undecodable?)
  {
  }

  /** A save that goes through leaves the file holding the tasks in memory; one that fails leaves the store as it was. */
  lemma SaveKeepsMemory(s: Store, fault: SaveFault)
    ensures Saving(s, fault).0.tasks == s.tasks && Saving(s, fault).0.loaded == s.loaded
    ensures fault.NoFault? <==> Saving(s, fault).1.None?
    ensures fault.NoFault? ==> Saving(s, fault).0.disk == Stored(s.tasks)
    ensures !fault.NoFault? ==> Saving(s, fault).0 == s
  {
  }

  // ---------------------------------------------------------------------------
  // Lookups and filters
  // ---------------------------------------------------------------------------

  /** The position of the first task with the ID. */
  function FirstIndex(ts: seq<Task>, id: string): (r: Option<nat>)
    ensures r.Some? ==> r.value < |ts| && ts[r.value].id == id
    ensures r.Some? ==> forall j :: 0 <= j < r.value ==> ts[j].id != id
    ensures r.None? ==> forall j :: 0 <= j < |ts| ==> ts[j].id != id
  {
    if ts == [] then None
    else if ts[0].id == id then Some(0)
    else match FirstIndex(ts[1..], id)
      case None => None
      case Some(i) => Some(i + 1)
  }

  /** The `for i, t := range s.tasks { if t.ID == id` search the lookups share. */
  method FindTask(ts: seq<Task>, id: string) returns (r: Option<nat>)
    ensures r == FirstIndex(ts, id)
  {
    var i := 0;
    while i < |ts|
      invariant 0 <= i <= |ts|
      invariant forall j :: 0 <= j < i ==> ts[j].id != id
    {
      if ts[i].id == id {
        FirstIndexIs(ts, id, i);
        return Some(i);
      }
      i := i + 1;
    }
    FirstIndexNone(ts, id);
    return None;
  }

  lemma {:induction false} FirstIndexIs(ts: seq<Task>, id: string, i: nat)
    requires i < |ts| && ts[i].id == id
    requires forall j :: 0 <= j < i ==> ts[j].id != id
    ensures FirstIndex(ts, id) == Some(i)
    decreases i
  {
    if i > 0 {
      FirstIndexIs(ts[1..], id, i - 1);
    }
  }

  lemma FirstIndexNone(ts: seq<Task>, id: string)
    requires forall j :: 0 <= j < |ts| ==> ts[j].id != id
    ensures FirstIndex(ts, id) == None
  {
  }

  /** The tasks `keep` accepts, in order: the loops of `ListByStatus` and `ListByAssignee`. */
  function Where(ts: seq<Task>, keep: Task -> bool): seq<Task> {
    if ts == [] then []
    else Where(ts[..|ts| - 1], keep) + (if keep(ts[|ts| - 1]) then [ts[|ts| - 1]] else [])
  }

  function StatusIs(status: string): Task -> bool {
    (t: Task) => t.status == status
  }

  function AssigneeIs(assignee: string): Task -> bool {
    (t: Task) => t.assignedTo == assignee
  }

  /** A non-empty list is its front followed by its last task. */
  lemma Split(ts: seq<Task>)
    requires ts != []
    ensures ts == ts[..|ts| - 1] + [ts[|ts| - 1]]
    ensures multiset(ts) == multiset(ts[..|ts| - 1]) + multiset{ts[|ts| - 1]}
    ensures forall t :: t in ts <==> t in ts[..|ts| - 1] || t == ts[|ts| - 1]
  {
  }

  /** The tasks with the status, in order. */
  function WithStatus(ts: seq<Task>, status: string): seq<Task> {
    Where(ts, StatusIs(status))
  }

  /** The tasks assigned to the role, in order. */
  function AssignedTo(ts: seq<Task>, assignee: string): seq<Task> {
    Where(ts, AssigneeIs(assignee))
  }

  /** The loop of `ListByStatus`. */
  method FilterByStatus(ts: seq<Task>, status: string) returns (result: seq<Task>)
    ensures result == WithStatus(ts, status)
  {
    result := [];
    for i := 0 to |ts|
      invariant result == WithStatus(ts[..i], status)
    {
      assert ts[..i + 1][..i] == ts[..i];
      if ts[i].status == status {
        result := result + [ts[i]];
      }
    }
    assert ts[..|ts|] == ts;
  }

  /** The loop of `ListByAssignee`. */
  method FilterByAssignee(ts: seq<Task>, assignee: string) returns (result: seq<Task>)
    ensures result == AssignedTo(ts, assignee)
  {
    result := [];
    for i := 0 to |ts|
      invariant result == AssignedTo(ts[..i], assignee)
    {
      assert ts[..i + 1][..i] == ts[..i];
      if ts[i].assignedTo == assignee {
        result := result + [ts[i]];
      }
    }
    assert ts[..|ts|] == ts;
  }

  /**
   * A filter gives exactly the tasks it accepts, each as many times as it is
   * stored, and never more tasks than there are; when it accepts them all it
   * gives them all back.
   */
  lemma WhereExactly(ts: seq<Task>, keep: Task -> bool)
    ensures forall t :: multiset(Where(ts, keep))[t] == if keep(t) then multiset(ts)[t] else 0
    ensures |Where(ts, keep)| <= |ts|
    ensures (forall j :: 0 <= j < |ts| ==> keep(ts[j])) ==> Where(ts, keep) == ts
  {
    WhereCounts(ts, keep);
    WhereShorter(ts, keep);
    if forall j :: 0 <= j < |ts| ==> keep(ts[j]) {
      WhereAll(ts, keep);
    }
  }

  lemma {:induction false} WhereCounts(ts: seq<Task>, keep: Task -> bool)
    ensures forall t :: multiset(Where(ts, keep))[t] == if keep(t) then multiset(ts)[t] else 0
    decreases |ts|
  {
    if ts != [] {
      var init := ts[..|ts| - 1];
      var x := ts[|ts| - 1];
      Split(ts);
      WhereCounts(init, keep);
      assert Where(ts, keep) == Where(init, keep) + (if keep(x) then [x] else []);
    }
  }

  lemma {:induction false} WhereShorter(ts: seq<Task>, keep: Task -> bool)
    ensures |Where(ts, keep)| <= |ts|
    decreases |ts|
  {
    if ts != [] {
      WhereShorter(ts[..|ts| - 1], keep);
    }
  }

  lemma {:induction false} WhereAll(ts: seq<Task>, keep: Task -> bool)
    requires forall j :: 0 <= j < |ts| ==> keep(ts[j])
    ensures Where(ts, keep) == ts
    decreases |ts|
  {
    if ts != [] {
      var init := ts[..|ts| - 1];
      assert forall j :: 0 <= j < |init| ==> keep(init[j]) by {
        forall j | 0 <= j < |init| ensures keep(init[j]) { assert init[j] == ts[j]; }
      }
      WhereAll(init, keep);
      Split(ts);
    }
  }

  /** `ListByStatus` gives exactly the tasks with the status, each as many times as it is stored. */
  lemma WithStatusExactly(ts: seq<Task>, status: string)
    ensures forall t :: t in WithStatus(ts, status) <==> t in ts && t.status == status
    ensures forall t :: multiset(WithStatus(ts, status))[t] == if t.status == status then multiset(ts)[t] else 0
    ensures |WithStatus(ts, status)| <= |ts|
  {
    var r := WithStatus(ts, status);
    WhereExactly(ts, StatusIs(status));
    forall t ensures t in r <==> t in ts && t.status == status {
      assert t in r <==> multiset(r)[t] > 0;
      assert t in ts <==> multiset(ts)[t] > 0;
    }
  }

  /** `ListByAssignee` gives exactly the tasks assigned to the role, each as many times as it is stored. */
  lemma AssignedToExactly(ts: seq<Task>, assignee: string)
    ensures forall t :: t in AssignedTo(ts, assignee) <==> t in ts && t.assignedTo == assignee
    ensures forall t :: multiset(AssignedTo(ts, assignee))[t] == if t.assignedTo == assignee then multiset(ts)[t] else 0
    ensures |AssignedTo(ts, assignee)| <= |ts|
  {
    var r := AssignedTo(ts, assignee);
    WhereExactly(ts, AssigneeIs(assignee));
    forall t ensures t in r <==> t in ts && t.assignedTo == assignee {
      assert t in r <==> multiset(r)[t] > 0;
      assert t in ts <==> multiset(ts)[t] > 0;
    }
  }

  /** A filter keeps the stored order: what it gives for a list followed by another is what it gives for each, in turn. */
  lemma {:induction false} WhereAppend(ts: seq<Task>, us: seq<Task>, keep: Task -> bool)
    ensures Where(ts + us, keep) == Where(ts, keep) + Where(us, keep)
    decreases |us|
  {
    if us == [] {
      assert ts + us == ts;
    } else {
      var init := us[..|us| - 1];
      WhereAppend(ts, init, keep);
      assert (ts + us)[..|ts + us| - 1] == ts + init;
    }
  }

  // ---------------------------------------------------------------------------
  // The operations as values
  // ---------------------------------------------------------------------------

  /** `List`: a copy of the tasks. */
  function ListStep(s: Store): Step<Result<seq<Task>, string>> {
    match Loading(s)
    case Err(e) => Step(s, Some(e), Err(e))
    case Ok(l) => Step(l, None, Ok(l.tasks))
  }

  function ListByStatusStep(s: Store, status: string): Step<Result<seq<Task>, string>> {
    match Loading(s)
    case Err(e) => Step(s, Some(e), Err(e))
    case Ok(l) => Step(l, None, Ok(WithStatus(l.tasks, status)))
  }

  function ListByAssigneeStep(s: Store, assignee: string): Step<Result<seq<Task>, string>> {
    match Loading(s)
    case Err(e) => Step(s, Some(e), Err(e))
    case Ok(l) => Step(l, None, Ok(AssignedTo(l.tasks, assignee)))
  }

  /** `Get`: a copy of the first task with the ID. */
  function GetStep(s: Store, id: string): Step<Result<Task, string>> {
    match Loading(s)
    case Err(e) => Step(s, Some(e), Err(e))
    case Ok(l) =>
      match FirstIndex(l.tasks, id)
      case None => Step(l, Some("task not found: " + id), Err("task not found: " + id))
      case Some(i) => Step(l, None, Ok(l.tasks[i]))
  }

  /** The `fmt.Sprintf("TASK-%d", UnixNano % 1000000)` ID. */
  function TaskId(stamp: nat): string {
    "TASK-" + Itoa(stamp % 1000000)
  }

  /** The task as `Create` fills it in: an ID when it has none, both stamps now, "pending" when it has no status. */
  function Filled(task: Task, stamp: nat, now: int): Task {
    task.(id := if task.id == "" then TaskId(stamp) else task.id,
          createdAt := now,
          updatedAt := now,
          status := if task.status == "" then "pending" else task.status)
  }

  /** The entry `Create` logs: a task update from no status, with the action and the title. */
  function CreatedEntry(t: Task, entryId: string, now: int): ActivityEntry {
    var e := TaskUpdateActivity(t.createdBy, "", t.id, "", t.status, entryId, now);
    e.(data := e.data["action" := JStr("created")]["title" := JStr(t.title)])
  }

  /** `Create`: the task is appended in memory before it is saved; only a saved task is logged. */
  function CreateStep(s: Store, task: Task, stamp: nat, now: int, fault: SaveFault, entryId: string): Step<Task> {
    match Loading(s)
    case Err(e) => Step(s, Some(e), task)
    case Ok(l) =>
      var t := Filled(task, stamp, now);
      var (saved, err) := Saving(l.(tasks := l.tasks + [t]), fault);
      if err.Some? then Step(saved, err, t)
      else if saved.hasLogger then Step(saved.(logged := saved.logged + [CreatedEntry(t, entryId, now)]), None, t)
      else Step(saved, None, t)
  }

  /** `Update`: the first task with the ID is replaced, with its update stamp refreshed; a status change is logged. */
  function UpdateStep(s: Store, task: Task, now: int, fault: SaveFault, entryId: string): Step<Task> {
    match Loading(s)
    case Err(e) => Step(s, Some(e), task)
    case Ok(l) =>
      match FirstIndex(l.tasks, task.id)
      case None => Step(l, Some("task not found: " + task.id), task)
      case Some(i) =>
        var oldStatus := l.tasks[i].status;
        var t := task.(updatedAt := now);
        var (saved, err) := Saving(l.(tasks := l.tasks[i := t]), fault);
        if err.Some? then Step(saved, err, t)
        else if saved.hasLogger && oldStatus != t.status then
          Step(saved.(logged := saved.logged + [TaskUpdateActivity("", "", t.id, oldStatus, t.status, entryId, now)]), None, t)
        else Step(saved, None, t)
  }

  /** `Delete`: the first task with the ID is spliced out. */
  function DeleteStep(s: Store, id: string, fault: SaveFault): Step<()> {
    match Loading(s)
    case Err(e) => Step(s, Some(e), ())
    case Ok(l) =>
      match FirstIndex(l.tasks, id)
      case None => Step(l, Some("task not found: " + id), ())
      case Some(i) =>
        var (saved, err) := Saving(l.(tasks := l.tasks[..i] + l.tasks[i + 1..]), fault);
        Step(saved, err, ())
  }

  /** The comment `AddComment` makes. */
  function NewComment(author: string, content: string, stamp: nat, now: int): TaskComment {
    TaskComment("CMT-" + Itoa(stamp % 1000000), author, content, now)
  }

  /** `AddComment`: one comment appended to the first task with the ID, whose update stamp is refreshed. */
  function AddCommentStep(s: Store, taskId: string, author: string, content: string, stamp: nat, now: int,
                          fault: SaveFault): Step<()> {
    match Loading(s)
    case Err(e) => Step(s, Some(e), ())
    case Ok(l) =>
      match FirstIndex(l.tasks, taskId)
      case None => Step(l, Some("task not found: " + taskId), ())
      case Some(i) =>
        var t := l.tasks[i];
        var t' := t.(comments := t.comments + [NewComment(author, content, stamp, now)], updatedAt := now);
        var (saved, err) := Saving(l.(tasks := l.tasks[i := t']), fault);
        Step(saved, err, ())
  }

  // ---------------------------------------------------------------------------
  // What the operations promise
  // ---------------------------------------------------------------------------

  /** Every operation that cannot load reports the load error and changes nothing. */
  lemma LoadErrorsChangeNothing(s: Store, task: Task, stamp: nat, now: int, fault: SaveFault, entryId: string, id: string)
    requires Loading(s).Err?
    ensures CreateStep(s, task, stamp, now, fault, entryId) == Step(s, Some(Loading(s).error), task)
    ensures UpdateStep(s, task, now, fault, entryId) == Step(s, Some(Loading(s).error), task)
    ensures DeleteStep(s, id, fault) == Step(s, Some(Loading(s).error), ())
    ensures ListStep(s) == Step(s, Some(Loading(s).error), Err(Loading(s).error))
  {
  }

  /**
   * `Create` appends exactly the filled task, stamped now with equal creation
   * and update times; a saved task is on file and, with a logger, logged as
   * created. A failed save still leaves the task in memory, unlogged.
   */
  lemma CreateAppends(s: Store, task: Task, stamp: nat, now: int, fault: SaveFault, entryId: string)
    requires Loading(s).Ok?
    ensures var l := Loading(s).value;
      var r := CreateStep(s, task, stamp, now, fault, entryId);
      && r.store.tasks == l.tasks + [r.value]
      && r.value.id == (if task.id == "" then TaskId(stamp) else task.id)
      && r.value.createdAt == now && r.value.updatedAt == now
      && r.value.status == (if task.status == "" then "pending" else task.status)
      && r.value.(id := task.id, createdAt := task.createdAt, updatedAt := task.updatedAt, status := task.status) == task
      && (fault.NoFault? ==> r.err.None? && r.store.disk == Stored(r.store.tasks))
      && (fault.NoFault? && s.hasLogger ==> r.store.logged == s.logged + [CreatedEntry(r.value, entryId, now)])
      && (!fault.NoFault? || !s.hasLogger ==> r.store.logged == s.logged)
      && (!fault.NoFault? ==> r.err.Some? && r.store.disk == s.disk)
  {
  }

  /** The entry logged for a created task records it as a task update from no status to its own. */
  lemma CreatedEntryRecords(t: Task, entryId: string, now: int)
    ensures var e := CreatedEntry(t, entryId, now);
      && e.kind == TaskUpdate && e.taskId == t.id && e.agentId == t.createdBy && e.agentRole == ""
      && e.data.Keys == {"old_status", "new_status", "action", "title"}
      && e.data["old_status"] == JStr("") && e.data["new_status"] == JStr(t.status)
      && e.data["action"] == JStr("created") && e.data["title"] == JStr(t.title)
  {
  }

  /** A created task without an ID gets "TASK-" and six digits at most. */
  lemma TaskIdShape(stamp: nat)
    ensures HasPrefix(TaskId(stamp), "TASK-")
    ensures 6 <= |TaskId(stamp)| <= 11
  {
    assert Pow10(6) == 1000000;
    ItoaDigits(stamp % 1000000, 6);
  }

  function Pow10(k: nat): nat {
    if k == 0 then 1 else 10 * Pow10(k - 1)
  }

  /** A number below 10^k has at most k digits. */
  lemma {:induction false} ItoaDigits(n: nat, k: nat)
    requires 1 <= k && n < Pow10(k)
    ensures |Itoa(n)| <= k
    decreases k
  {
    if n >= 10 {
      assert k >= 2;
      ItoaDigits(n / 10, k - 1);
    }
  }

  /**
   * `Update` replaces only the first task with the ID, by the given task
   * stamped now, and logs a task update exactly when a logger is set, the
   * save went through and the status changed. An unknown ID is an error that
   * changes no task.
   */
  lemma UpdateReplacesFirst(s: Store, task: Task, now: int, fault: SaveFault, entryId: string)
    requires Loading(s).Ok?
    ensures var ts := Loading(s).value.tasks;
      var r := UpdateStep(s, task, now, fault, entryId);
      match FirstIndex(ts, task.id)
      case None => r.err == Some("task not found: " + task.id) && r.store == Loading(s).value
      case Some(i) =>
        && |r.store.tasks| == |ts|
        && r.store.tasks[i] == task.(updatedAt := now) && r.value == task.(updatedAt := now)
        && (forall j :: 0 <= j < |ts| && j != i ==> r.store.tasks[j] == ts[j])
        && (forall j :: 0 <= j < i ==> ts[j].id != task.id)
        && (r.err.None? <==> fault.NoFault?)
        && (|r.store.logged| == |s.logged| + 1 <==> fault.NoFault? && s.hasLogger && ts[i].status != task.status)
        && (|r.store.logged| == |s.logged| + 1 ==>
              r.store.logged == s.logged + [TaskUpdateActivity("", "", task.id, ts[i].status, task.status, entryId, now)])
        && (|r.store.logged| != |s.logged| + 1 ==> r.store.logged == s.logged)
  {
  }

  /** `Delete` removes only the first task with the ID and keeps the others in order; an unknown ID is an error. */
  lemma DeleteRemovesFirst(s: Store, id: string, fault: SaveFault)
    requires Loading(s).Ok?
    ensures var ts := Loading(s).value.tasks;
      var r := DeleteStep(s, id, fault);
      match FirstIndex(ts, id)
      case None => r.err == Some("task not found: " + id) && r.store == Loading(s).value
      case Some(i) =>
        && |r.store.tasks| == |ts| - 1
        && (forall j :: 0 <= j < i ==> r.store.tasks[j] == ts[j] && ts[j].id != id)
        && (forall j :: i <= j < |r.store.tasks| ==> r.store.tasks[j] == ts[j + 1])
        && multiset(r.store.tasks) + multiset{ts[i]} == multiset(ts)
        && (r.err.None? <==> fault.NoFault?)
        && r.store.logged == s.logged
  {
    var l := Loading(s).value;
    var ts := l.tasks;
    match FirstIndex(ts, id)
    case None =>
    case Some(i) =>
      var spliced := l.(tasks := ts[..i] + ts[i + 1..]);
      var r := DeleteStep(s, id, fault);
      assert r == Step(Saving(spliced, fault).0, Saving(spliced, fault).1, ());
      assert r.store.tasks == spliced.tasks && r.store.logged == l.logged;
      SpliceOut(ts, i);
  }

  /** Splicing out position `i` shifts the later elements down by one and loses exactly that element. */
  lemma SpliceOut(ts: seq<Task>, i: nat)
    requires i < |ts|
    ensures var r := ts[..i] + ts[i + 1..];
      && |r| == |ts| - 1
      && (forall j :: 0 <= j < i ==> r[j] == ts[j])
      && (forall j :: i <= j < |r| ==> r[j] == ts[j + 1])
      && multiset(r) + multiset{ts[i]} == multiset(ts)
  {
    assert ts == ts[..i] + [ts[i]] + ts[i + 1..];
  }

  /** `AddComment` appends exactly one comment to the first task with the ID and refreshes its update stamp. */
  lemma AddCommentAppends(s: Store, taskId: string, author: string, content: string, stamp: nat, now: int, fault: SaveFault)
    requires Loading(s).Ok?
    ensures var ts := Loading(s).value.tasks;
      var r := AddCommentStep(s, taskId, author, content, stamp, now, fault);
      match FirstIndex(ts, taskId)
      case None => r.err == Some("task not found: " + taskId) && r.store == Loading(s).value
      case Some(i) =>
        && |r.store.tasks| == |ts|
        && r.store.tasks[i].comments == ts[i].comments + [TaskComment("CMT-" + Itoa(stamp % 1000000), author, content, now)]
        && r.store.tasks[i].updatedAt == now
        && r.store.tasks[i].(comments := ts[i].comments, updatedAt := ts[i].updatedAt) == ts[i]
        && (forall j :: 0 <= j < |ts| && j != i ==> r.store.tasks[j] == ts[j])
        && (r.err.None? <==> fault.NoFault?)
  {
  }

  /** `Get` finds the first task with the ID, and fails exactly when no stored task has it. */
  lemma GetFindsFirst(s: Store, id: string)
    requires Loading(s).Ok?
    ensures var ts := Loading(s).value.tasks;
      var r := GetStep(s, id);
      && (r.value.Ok? <==> exists j :: 0 <= j < |ts| && ts[j].id == id)
      && (r.value.Err? ==> r.value == Err("task not found: " + id))
      && (r.value.Ok? ==> r.value.value.id == id && r.value.value in ts)
      && r.store == Loading(s).value
  {
    var ts := Loading(s).value.tasks;
    match FirstIndex(ts, id)
    case None =>
    case Some(i) =>
      assert ts[i] in ts;
  }

  // ---------------------------------------------------------------------------
  // Stats
  // ---------------------------------------------------------------------------

  datatype TaskStats = TaskStats(total: int, byStatus: map<string, int>, byPriority: map<string, int>,
                                 byAssignee: map<string, int>, overdue: int)

  /** Past due and not completed. */
  predicate IsOverdue(t: Task, now: int) {
    t.dueDate.Some? && t.dueDate.value < now && t.status != "completed"
  }

  /** One pass of the counting loop of `Stats`. */
  function Counted(st: TaskStats, t: Task, now: int): TaskStats {
    st.(byStatus := Tally.Bump(st.byStatus, t.status),
        byPriority := if t.priority != "" then Tally.Bump(st.byPriority, t.priority) else st.byPriority,
        byAssignee := if t.assignedTo != "" then Tally.Bump(st.byAssignee, t.assignedTo) else st.byAssignee,
        overdue := if IsOverdue(t, now) then st.overdue + 1 else st.overdue)
  }

  /** The counting loop of `Stats` over the tasks, from `st`. */
  function CountedAll(st: TaskStats, ts: seq<Task>, now: int): TaskStats {
    if ts == [] then st else Counted(CountedAll(st, ts[..|ts| - 1], now), ts[|ts| - 1], now)
  }

  /** What `Stats` reports for the tasks. */
  function StatsOf(ts: seq<Task>, now: int): TaskStats {
    CountedAll(TaskStats(|ts|, map[], map[], map[], 0), ts, now)
  }

  /** The counting loop of `Stats`. */
  method CountTasks(ts: seq<Task>, now: int) returns (stats: TaskStats)
    ensures stats == StatsOf(ts, now)
  {
    var start := TaskStats(|ts|, map[], map[], map[], 0);
    stats := start;
    for i := 0 to |ts|
      invariant stats == CountedAll(start, ts[..i], now)
    {
      var t := ts[i];
      assert ts[..i + 1][..i] == ts[..i];
      ghost var next := Counted(stats, t, now);
      stats := stats.(byStatus := Tally.Bump(stats.byStatus, t.status));
      if t.priority != "" {
        stats := stats.(byPriority := Tally.Bump(stats.byPriority, t.priority));
      }
      if t.assignedTo != "" {
        stats := stats.(byAssignee := Tally.Bump(stats.byAssignee, t.assignedTo));
      }
      if t.dueDate.Some? && t.dueDate.value < now && t.status != "completed" {
        stats := stats.(overdue := stats.overdue + 1);
      }
      assert stats == next;
    }
    assert ts[..|ts|] == ts;
  }

  // The counts, defined on their own.

  function Statuses(ts: seq<Task>): seq<string> {
    if ts == [] then [] else Statuses(ts[..|ts| - 1]) + [ts[|ts| - 1].status]
  }

  /** The priorities that are set, in order. */
  function Priorities(ts: seq<Task>): seq<string> {
    if ts == [] then []
    else Priorities(ts[..|ts| - 1]) + (if ts[|ts| - 1].priority != "" then [ts[|ts| - 1].priority] else [])
  }

  /** The assignees that are set, in order. */
  function Assignees(ts: seq<Task>): seq<string> {
    if ts == [] then []
    else Assignees(ts[..|ts| - 1]) + (if ts[|ts| - 1].assignedTo != "" then [ts[|ts| - 1].assignedTo] else [])
  }

  function OverdueCount(ts: seq<Task>, now: int): nat {
    if ts == [] then 0 else OverdueCount(ts[..|ts| - 1], now) + (if IsOverdue(ts[|ts| - 1], now) then 1 else 0)
  }

  /** The loop counts each status, each priority and each assignee that is set, and the overdue tasks. */
  lemma {:induction false} CountedAllIsCounts(total: int, ts: seq<Task>, now: int)
    ensures var st := CountedAll(TaskStats(total, map[], map[], map[], 0), ts, now);
      && st.total == total
      && st.byStatus == Tally.Counts(Statuses(ts))
      && st.byPriority == Tally.Counts(Priorities(ts))
      && st.byAssignee == Tally.Counts(Assignees(ts))
      && st.overdue == OverdueCount(ts, now)
    decreases |ts|
  {
    if ts != [] {
      var init := ts[..|ts| - 1];
      var t := ts[|ts| - 1];
      CountedAllIsCounts(total, init, now);
      var prev := CountedAll(TaskStats(total, map[], map[], map[], 0), init, now);
      assert CountedAll(TaskStats(total, map[], map[], map[], 0), ts, now) == Counted(prev, t, now);
      Tally.CountsSnoc(Statuses(init), t.status);
      if t.priority != "" {
        assert Priorities(ts) == Priorities(init) + [t.priority];
        Tally.CountsSnoc(Priorities(init), t.priority);
      } else {
        assert Priorities(ts) == Priorities(init);
      }
      if t.assignedTo != "" {
        assert Assignees(ts) == Assignees(init) + [t.assignedTo];
        Tally.CountsSnoc(Assignees(init), t.assignedTo);
      } else {
        assert Assignees(ts) == Assignees(init);
      }
    }
  }

  lemma {:induction false} StatusesOf(ts: seq<Task>)
    ensures |Statuses(ts)| == |ts|
    ensures forall k :: k in Statuses(ts) <==> exists t :: t in ts && t.status == k
    decreases |ts|
  {
    if ts != [] {
      var init := ts[..|ts| - 1];
      var x := ts[|ts| - 1];
      Split(ts);
      StatusesOf(init);
    }
  }

  lemma {:induction false} PrioritiesOf(ts: seq<Task>)
    ensures forall k :: k in Priorities(ts) <==> k != "" && exists t :: t in ts && t.priority == k
    decreases |ts|
  {
    if ts != [] {
      var init := ts[..|ts| - 1];
      var x := ts[|ts| - 1];
      Split(ts);
      PrioritiesOf(init);
    }
  }

  lemma {:induction false} AssigneesOf(ts: seq<Task>)
    ensures forall k :: k in Assignees(ts) <==> k != "" && exists t :: t in ts && t.assignedTo == k
    decreases |ts|
  {
    if ts != [] {
      var init := ts[..|ts| - 1];
      var x := ts[|ts| - 1];
      Split(ts);
      AssigneesOf(init);
    }
  }

  lemma {:induction false} OverdueAtMost(ts: seq<Task>, now: int)
    ensures OverdueCount(ts, now) <= |ts|
    decreases |ts|
  {
    if ts != [] {
      OverdueAtMost(ts[..|ts| - 1], now);
    }
  }

  lemma {:induction false} OverdueNone(ts: seq<Task>, now: int)
    requires forall t :: t in ts ==> !IsOverdue(t, now)
    ensures OverdueCount(ts, now) == 0
    decreases |ts|
  {
    if ts != [] {
      Split(ts);
      OverdueNone(ts[..|ts| - 1], now);
    }
  }

  /** `Stats`. */
  function StatsStep(s: Store, now: int): Step<Result<TaskStats, string>> {
    match Loading(s)
    case Err(e) => Step(s, Some(e), Err(e))
    case Ok(l) => Step(l, None, Ok(StatsOf(l.tasks, now)))
  }

  /**
   * The total is the number of tasks and the status counts add up to it; a
   * status has a count exactly when some task has it, and a priority or an
   * assignee exactly when some task has it set; no more tasks are overdue
   * than there are, and none when no task is past due and open.
   */
  lemma StatsProperties(ts: seq<Task>, now: int)
    ensures var st := StatsOf(ts, now);
      && st.total == |ts|
      && Tally.SumOver(st.byStatus, Tally.Distinct(Statuses(ts))) == |ts|
      && (forall k :: k in st.byStatus <==> exists t :: t in ts && t.status == k)
      && (forall k :: k in st.byPriority <==> k != "" && exists t :: t in ts && t.priority == k)
      && (forall k :: k in st.byAssignee <==> k != "" && exists t :: t in ts && t.assignedTo == k)
      && (forall k :: k in st.byStatus ==> st.byStatus[k] == multiset(Statuses(ts))[k])
      && st.overdue <= |ts|
      && ((forall t :: t in ts ==> !IsOverdue(t, now)) ==> st.overdue == 0)
  {
    CountedAllIsCounts(|ts|, ts, now);
    StatusesOf(ts);
    PrioritiesOf(ts);
    AssigneesOf(ts);
    OverdueAtMost(ts, now);
    if forall t :: t in ts ==> !IsOverdue(t, now) {
      OverdueNone(ts, now);
    }
    Tally.CountsSum(Statuses(ts));
    Tally.CountsOccurrences(Statuses(ts));
    Tally.CountsOccurrences(Priorities(ts));
    Tally.CountsOccurrences(Assignees(ts));
  }

  // ---------------------------------------------------------------------------
  // The store
  // ---------------------------------------------------------------------------

  class TaskStore {
    const path: string
    const hasLogger: bool
    var disk: TaskFile
    var tasks: seq<Task>
    var loaded: bool
    var logged: seq<ActivityEntry>

    function State(): Store
      reads this
    {
      Store(disk, tasks, loaded, hasLogger, logged)
    }

    /** `NewTaskStore` and `NewTaskStoreWithLogger`: the store of the workspace's tasks file, not yet loaded. */
    constructor (ws: WS.Workspace, hasLogger: bool, disk: TaskFile)
      ensures path == ws.TasksPath() && this.hasLogger == hasLogger
      ensures State() == Store(disk, [], false, hasLogger, [])
    {
      path := ws.TasksPath();
      this.hasLogger := hasLogger;
      this.disk := disk;
      tasks := [];
      loaded := false;
      logged := [];
    }

    method Load() returns (err: Option<string>)
      modifies this
      ensures Loading(old(State())).Err? ==> err == Some(Loading(old(State())).error) && State() == old(State())
      ensures Loading(old(State())).Ok? ==> err == None && State() == Loading(old(State())).value
    {
      if loaded {
        return None;
      }
      match disk {
        case NoFile =>
          tasks, loaded := [], true;
          return None;
        case ReadFailed(e) =>
          return Some("read tasks: " + e);
        case Undecodable(e) =>
          return Some("parse tasks: " + e);
        case Stored(ts) =>
          tasks, loaded := ts, true;
          return None;
      }
    }

    method Save(fault: SaveFault) returns (err: Option<string>)
      modifies this
      ensures (State(), err) == Saving(old(State()), fault)
    {
      match fault {
        case MkdirFailed(e) =>
          return Some("create tasks directory: " + e);
        case WriteFailed(e) =>
          return Some(e);
        case NoFault =>
          disk := Stored(tasks);
          return None;
      }
    }

    method List() returns (r: Result<seq<Task>, string>)
      modifies this
      ensures Step(State(), if r.Err? then Some(r.error) else None, r) == ListStep(old(State()))
    {
      var err := Load();
      if err.Some? {
        return Err(err.value);
      }
      return Ok(tasks);
    }

    method ListByStatus(status: string) returns (r: Result<seq<Task>, string>)
      modifies this
      ensures Step(State(), if r.Err? then Some(r.error) else None, r) == ListByStatusStep(old(State()), status)
    {
      var err := Load();
      if err.Some? {
        return Err(err.value);
      }
      var result := FilterByStatus(tasks, status);
      return Ok(result);
    }

    method ListByAssignee(assignee: string) returns (r: Result<seq<Task>, string>)
      modifies this
      ensures Step(State(), if r.Err? then Some(r.error) else None, r) == ListByAssigneeStep(old(State()), assignee)
    {
      var err := Load();
      if err.Some? {
        return Err(err.value);
      }
      var result := FilterByAssignee(tasks, assignee);
      return Ok(result);
    }

    method Get(id: string) returns (r: Result<Task, string>)
      modifies this
      ensures Step(State(), if r.Err? then Some(r.error) else None, r) == GetStep(old(State()), id)
    {
      var err := Load();
      if err.Some? {
        return Err(err.value);
      }
      var i := FindTask(tasks, id);
      if i.None? {
        return Err("task not found: " + id);
      }
      return Ok(tasks[i.value]);
    }

    /** `Create`; the task given back is the caller's task as `Create` fills it in. */
    method Create(task: Task, stamp: nat, now: int, fault: SaveFault, entryId: string) returns (err: Option<string>, created: Task)
      modifies this
      ensures Step(State(), err, created) == CreateStep(old(State()), task, stamp, now, fault, entryId)
    {
      created := task;
      err := Load();
      if err.Some? {
        return;
      }
      if created.id == "" {
        created := created.(id := TaskId(stamp));
      }
      created := created.(createdAt := now, updatedAt := now);
      if created.status == "" {
        created := created.(status := "pending");
      }
      tasks := tasks + [created];
      err := Save(fault);
      if err.Some? {
        return;
      }
      if hasLogger {
        logged := logged + [CreatedEntry(created, entryId, now)];
      }
    }

    /** `Update`; the task given back is the caller's task with its update stamp refreshed. */
    method Update(task: Task, now: int, fault: SaveFault, entryId: string) returns (err: Option<string>, updated: Task)
      modifies this
      ensures Step(State(), err, updated) == UpdateStep(old(State()), task, now, fault, entryId)
    {
      updated := task;
      err := Load();
      if err.Some? {
        return;
      }
      var i := FindTask(tasks, task.id);
      if i.None? {
        return Some("task not found: " + task.id), updated;
      }
      var oldStatus := tasks[i.value].status;
      updated := updated.(updatedAt := now);
      tasks := tasks[i.value := updated];
      err := Save(fault);
      if err.Some? {
        return;
      }
      if hasLogger && oldStatus != updated.status {
        logged := logged + [TaskUpdateActivity("", "", updated.id, oldStatus, updated.status, entryId, now)];
      }
    }

    method Delete(id: string, fault: SaveFault) returns (err: Option<string>)
      modifies this
      ensures Step(State(), err, ()) == DeleteStep(old(State()), id, fault)
    {
      err := Load();
      if err.Some? {
        return;
      }
      var i := FindTask(tasks, id);
      if i.None? {
        return Some("task not found: " + id);
      }
      tasks := tasks[..i.value] + tasks[i.value + 1..];
      err := Save(fault);
    }

    method AddComment(taskId: string, author: string, content: string, stamp: nat, now: int, fault: SaveFault)
      returns (err: Option<string>)
      modifies this
      ensures Step(State(), err, ()) == AddCommentStep(old(State()), taskId, author, content, stamp, now, fault)
    {
      err := Load();
      if err.Some? {
        return;
      }
      var i := FindTask(tasks, taskId);
      if i.None? {
        return Some("task not found: " + taskId);
      }
      var comment := TaskComment("CMT-" + Itoa(stamp % 1000000), author, content, now);
      var t := tasks[i.value];
      tasks := tasks[i.value := t.(comments := t.comments + [comment], updatedAt := now)];
      err := Save(fault);
    }

    method Stats(now: int) returns (r: Result<TaskStats, string>)
      modifies this
      ensures Step(State(), if r.Err? then Some(r.error) else None, r) == StatsStep(old(State()), now)
    {
      var err := Load();
      if err.Some? {
        return Err(err.value);
      }
      var stats := CountTasks(tasks, now);
      return Ok(stats);
    }
  }
}
