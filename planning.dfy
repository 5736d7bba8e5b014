/**
 * The planning tools: a task list kept in one JSON file, and the tools that
 * create, update, list, assign and delegate tasks and write reports.
 *
 * The file is modelled by what reading it gives (`FileState`): missing, an
 * error (unreadable or not valid JSON), or a task list. Writing it either
 * fails with the store's fixed `writeError` or replaces the list. The clock
 * and `uuid` are parameters (`now`, `freshId`).
 */
module Planning {
  import opened Wrappers
  import opened ProviderTypes
  import opened FilePath
  import Tools

  datatype Task = Task(
    id: string,
    title: string,
    description: string,
    status: string,
    priority: string,
    assignedTo: string,
    createdBy: string,
    createdAt: int,
    updatedAt: int,
    tags: seq<string>)

  /** What reading the task file gives. */
  datatype FileState = Missing | Unreadable(err: string) | Holds(tasks: seq<Task>)

  /** `load`: a missing file is an empty list; any other read or decode error is returned. */
  function Loaded(f: FileState): (r: Result<seq<Task>, string>)
    ensures r.Err? <==> f.Unreadable?
    ensures f.Missing? ==> r == Ok([])
    ensures f.Holds? ==> r == Ok(f.tasks)
  {
    match f
    case Missing => Ok([])
    case Unreadable(e) => Err(e)
    case Holds(ts) => Ok(ts)
  }

  /** The position of the first task with the ID. */
  function FirstIndex(ts: seq<Task>, id: string): (r: Option<nat>)
    ensures r.Some? ==> r.value < |ts| && ts[r.value].id == id
    ensures r.Some? ==> forall j :: 0 <= j < r.value ==> ts[j].id != id
    ensures r.None? ==> forall j :: 0 <= j < |ts| ==> ts[j].id != id
  {
    if ts == [] then None
    else if ts[0].id == id then Some(0)
    else match FirstIndex(ts[1..], id)
      case None => None
      case Some(i) => Some(i + 1)
  }

  /** The first index is the only one before which no task has the ID. */
  lemma FirstIndexUnique(ts: seq<Task>, id: string, i: nat)
    requires i < |ts| && ts[i].id == id
    requires forall j :: 0 <= j < i ==> ts[j].id != id
    ensures FirstIndex(ts, id) == Some(i)
  {
  }

  /** A command's result paired with the file it leaves behind. */
  datatype Outcome<T> = Outcome(result: Result<T, string>, file: FileState)

  /** `save`: the list is written unless writing fails, in which case the file is as it was. */
  function Saved<T>(f: FileState, writeError: Option<string>, ts: seq<Task>, v: T): (o: Outcome<T>)
    ensures writeError.Some? ==> o == Outcome(Err(writeError.value), f)
    ensures writeError.None? ==> o == Outcome(Ok(v), Holds(ts))
  {
    if writeError.Some? then Outcome(Err(writeError.value), f) else Outcome(Ok(v), Holds(ts))
  }

  /** `Get`: a copy of the first task with the ID. */
  function GetResult(f: FileState, id: string): (r: Result<Task, string>)
  {
    match Loaded(f)
    case Err(e) => Err(e)
    case Ok(ts) =>
      match FirstIndex(ts, id)
      case None => Err("task not found: " + id)
      case Some(i) => Ok(ts[i])
  }

  /** `Get` finds a task exactly when one with the ID is stored, and then it is the first such task. */
  lemma GetFindsFirst(f: FileState, id: string)
    requires Loaded(f).Ok?
    ensures GetResult(f, id).Ok? <==> exists j :: 0 <= j < |Loaded(f).value| && Loaded(f).value[j].id == id
    ensures GetResult(f, id).Err? ==> GetResult(f, id) == Err("task not found: " + id)
    ensures GetResult(f, id).Ok? ==>
      var ts := Loaded(f).value;
      exists i :: 0 <= i < |ts| && ts[i] == GetResult(f, id).value
        && (forall j :: 0 <= j < i ==> ts[j].id != id) && ts[i].id == id
  {
    var ts := Loaded(f).value;
    match FirstIndex(ts, id)
    case None =>
    case Some(i) =>
      assert ts[i] == GetResult(f, id).value;
  }

  /** The task `Create` stores: the fresh ID when it had none, both stamps now, status "pending" when empty. */
  function Filled(task: Task, freshId: string, now: int): (t: Task)
  {
    task.(id := if task.id == "" then freshId else task.id,
          createdAt := now,
          updatedAt := now,
          status := if task.status == "" then "pending" else task.status)
  }

  /** `Create`. */
  function CreateOutcome(f: FileState, writeError: Option<string>, task: Task, freshId: string, now: int): Outcome<Task>
  {
    match Loaded(f)
    case Err(e) => Outcome(Err(e), f)
    case Ok(ts) =>
      var t := Filled(task, freshId, now);
      Saved(f, writeError, ts + [t], t)
  }

  /** `Update`: the first task with the same ID is replaced, with `updatedAt` refreshed. */
  function UpdateOutcome(f: FileState, writeError: Option<string>, task: Task, now: int): Outcome<Task>
  {
    match Loaded(f)
    case Err(e) => Outcome(Err(e), f)
    case Ok(ts) =>
      match FirstIndex(ts, task.id)
      case None => Outcome(Err("task not found: " + task.id), f)
      case Some(i) =>
        var t := task.(updatedAt := now);
        Saved(f, writeError, ts[i := t], t)
  }

  /** `Delete`: the first task with the ID is spliced out. */
  function DeleteOutcome(f: FileState, writeError: Option<string>, id: string): Outcome<()>
  {
    match Loaded(f)
    case Err(e) => Outcome(Err(e), f)
    case Ok(ts) =>
      match FirstIndex(ts, id)
      case None => Outcome(Err("task not found: " + id), f)
      case Some(i) => Saved(f, writeError, ts[..i] + ts[i + 1..], ())
  }

  /** `FileTaskStore`. */
  class FileTaskStore {
    const path: string
    /** What `os.MkdirAll` or `os.WriteFile` fails with, if writing this file fails. */
    const writeError: Option<string>
    /** What reading the file at `path` gives. */
    var file: FileState

    constructor (path: string, writeError: Option<string>, file: FileState)
      ensures this.path == path && this.writeError == writeError && this.file == file
    {
      this.path := path;
      this.writeError := writeError;
      this.file := file;
    }

    /** `save`. */
    method Save(tasks: seq<Task>) returns (err: Option<string>)
      modifies this
      ensures err == writeError
      ensures file == if writeError.None? then Holds(tasks) else old(file)
    {
      err := writeError;
      if err.None? {
        file := Holds(tasks);
      }
    }

    /** `List`. */
    method List() returns (r: Result<seq<Task>, string>)
      ensures r == Loaded(file)
    {
      r := Loaded(file);
    }

    /** `Get`. */
    method Get(id: string) returns (r: Result<Task, string>)
      ensures r == GetResult(file, id)
    {
      var loaded := Loaded(file);
      if loaded.Err? {
        return Err(loaded.error);
      }
      var tasks := loaded.value;
      for i := 0 to |tasks|
        invariant forall j :: 0 <= j < i ==> tasks[j].id != id
      {
        if tasks[i].id == id {
          FirstIndexUnique(tasks, id, i);
          return Ok(tasks[i]);
        }
      }
      return Err("task not found: " + id);
    }

    /** `Create`. */
    method Create(task: Task, freshId: string, now: int) returns (r: Result<Task, string>)
      modifies this
      ensures Outcome(r, file) == CreateOutcome(old(file), writeError, task, freshId, now)
    {
      var loaded := Loaded(file);
      if loaded.Err? {
        return Err(loaded.error);
      }
      var t := task;
      if t.id == "" {
        t := t.(id := freshId);
      }
      t := t.(createdAt := now, updatedAt := now);
      if t.status == "" {
        t := t.(status := "pending");
      }
      var err := Save(loaded.value + [t]);
      if err.Some? {
        return Err(err.value);
      }
      return Ok(t);
    }

    /** `Update`. */
    method Update(task: Task, now: int) returns (r: Result<Task, string>)
      modifies this
      ensures Outcome(r, file) == UpdateOutcome(old(file), writeError, task, now)
    {
      var loaded := Loaded(file);
      if loaded.Err? {
        return Err(loaded.error);
      }
      var tasks := loaded.value;
      for i := 0 to |tasks|
        invariant forall j :: 0 <= j < i ==> tasks[j].id != task.id
      {
        if tasks[i].id == task.id {
          FirstIndexUnique(tasks, task.id, i);
          var t := task.(updatedAt := now);
          var err := Save(tasks[i := t]);
          if err.Some? {
            return Err(err.value);
          }
          return Ok(t);
        }
      }
      return Err("task not found: " + task.id);
    }

    /** `Delete`. */
    method Delete(id: string) returns (r: Result<(), string>)
      modifies this
      ensures Outcome(r, file) == DeleteOutcome(old(file), writeError, id)
    {
      var loaded := Loaded(file);
      if loaded.Err? {
        return Err(loaded.error);
      }
      var tasks := loaded.value;
      for i := 0 to |tasks|
        invariant forall j :: 0 <= j < i ==> tasks[j].id != id
      {
        if tasks[i].id == id {
          FirstIndexUnique(tasks, id, i);
          var err := Save(tasks[..i] + tasks[i + 1..]);
          if err.Some? {
            return Err(err.value);
          }
          return Ok(());
        }
      }
      return Err("task not found: " + id);
    }
  }

  // ---------------------------------------------------------------------
  // What the store's commands promise

  /** `Create` appends the filled task at the end and keeps every stored task. */
  lemma CreateAppends(f: FileState, writeError: Option<string>, task: Task, freshId: string, now: int)
    requires Loaded(f).Ok? && writeError.None?
    ensures var o := CreateOutcome(f, writeError, task, freshId, now);
      && o.result.Ok?
      && Loaded(o.file) == Ok(Loaded(f).value + [o.result.value])
      && o.result.value.createdAt == now && o.result.value.updatedAt == now
      && o.result.value.status != ""
      && (task.status != "" ==> o.result.value.status == task.status)
      && o.result.value.id == (if task.id == "" then freshId else task.id)
      && o.result.value.(id := task.id, createdAt := task.createdAt, updatedAt := task.updatedAt, status := task.status) == task
  {
  }

  /** A failed read or write leaves the file as it was. */
  lemma FailuresKeepTheFile(f: FileState, writeError: Option<string>, task: Task, freshId: string, id: string, now: int)
    requires Loaded(f).Err? || writeError.Some?
    ensures CreateOutcome(f, writeError, task, freshId, now).file == f
    ensures UpdateOutcome(f, writeError, task, now).file == f
    ensures DeleteOutcome(f, writeError, id).file == f
    ensures CreateOutcome(f, writeError, task, freshId, now).result.Err?
    ensures UpdateOutcome(f, writeError, task, now).result.Err?
    ensures DeleteOutcome(f, writeError, id).result.Err?
  {
  }

  /** Index of the appended task when no earlier task has its ID. */
  lemma {:induction false} FirstIndexAppend(ts: seq<Task>, t: Task)
    requires forall j :: 0 <= j < |ts| ==> ts[j].id != t.id
    ensures FirstIndex(ts + [t], t.id) == Some(|ts|)
  {
    FirstIndexUnique(ts + [t], t.id, |ts|);
  }

  /** A task created under an unused ID is what `Get` then returns. */
  lemma CreateThenGet(f: FileState, writeError: Option<string>, task: Task, freshId: string, now: int)
    requires Loaded(f).Ok? && writeError.None?
    requires var id := Filled(task, freshId, now).id;
      forall j :: 0 <= j < |Loaded(f).value| ==> Loaded(f).value[j].id != id
    ensures var o := CreateOutcome(f, writeError, task, freshId, now);
      GetResult(o.file, o.result.value.id) == o.result
  {
    FirstIndexAppend(Loaded(f).value, Filled(task, freshId, now));
  }

  /**
   * `Update` on a stored ID replaces the first task with that ID, refreshes its
   * `updatedAt` and leaves every other task where it was; on an unknown ID it
   * fails with "task not found" and saves nothing.
   */
  lemma UpdateReplacesFirst(f: FileState, writeError: Option<string>, task: Task, now: int)
    requires Loaded(f).Ok?
    ensures var ts := Loaded(f).value;
      var o := UpdateOutcome(f, writeError, task, now);
      (forall j :: 0 <= j < |ts| ==> ts[j].id != task.id) ==>
        o == Outcome(Err("task not found: " + task.id), f)
    ensures var ts := Loaded(f).value;
      var o := UpdateOutcome(f, writeError, task, now);
      writeError.None? && (exists j :: 0 <= j < |ts| && ts[j].id == task.id) ==>
        exists i :: 0 <= i < |ts| && ts[i].id == task.id
          && (forall j :: 0 <= j < i ==> ts[j].id != task.id)
          && o.result == Ok(task.(updatedAt := now))
          && Loaded(o.file).Ok?
          && |Loaded(o.file).value| == |ts|
          && Loaded(o.file).value[i] == task.(updatedAt := now)
          && (forall j :: 0 <= j < |ts| && j != i ==> Loaded(o.file).value[j] == ts[j])
  {
    var ts := Loaded(f).value;
    match FirstIndex(ts, task.id)
    case None =>
    case Some(i) =>
      var o := UpdateOutcome(f, writeError, task, now);
      if writeError.None? {
        assert Loaded(o.file).value == ts[i := task.(updatedAt := now)];
      }
  }

  /** After an update the task is found with its new contents. */
  lemma UpdateThenGet(f: FileState, writeError: Option<string>, task: Task, now: int)
    requires Loaded(f).Ok? && writeError.None?
    requires UpdateOutcome(f, writeError, task, now).result.Ok?
    ensures GetResult(UpdateOutcome(f, writeError, task, now).file, task.id) == Ok(task.(updatedAt := now))
  {
    var ts := Loaded(f).value;
    var i := FirstIndex(ts, task.id).value;
    var us := ts[i := task.(updatedAt := now)];
    FirstIndexUnique(us, task.id, i);
  }

  /**
   * `Delete` on a stored ID removes exactly the first task with that ID and keeps
   * the others in order; on an unknown ID it fails with "task not found".
   */
  lemma DeleteRemovesFirst(f: FileState, writeError: Option<string>, id: string)
    requires Loaded(f).Ok?
    ensures var ts := Loaded(f).value;
      (forall j :: 0 <= j < |ts| ==> ts[j].id != id) ==>
        DeleteOutcome(f, writeError, id) == Outcome(Err("task not found: " + id), f)
    ensures var ts := Loaded(f).value;
      var o := DeleteOutcome(f, writeError, id);
      writeError.None? && (exists j :: 0 <= j < |ts| && ts[j].id == id) ==>
        exists i :: 0 <= i < |ts| && ts[i].id == id
          && (forall j :: 0 <= j < i ==> ts[j].id != id)
          && o.result.Ok? && Loaded(o.file).Ok?
          && |Loaded(o.file).value| == |ts| - 1
          && (forall j :: 0 <= j < i ==> Loaded(o.file).value[j] == ts[j])
          && (forall j :: i <= j < |ts| - 1 ==> Loaded(o.file).value[j] == ts[j + 1])
          && multiset(Loaded(o.file).value) + multiset{ts[i]} == multiset(ts)
  {
    var ts := Loaded(f).value;
    match FirstIndex(ts, id)
    case None =>
    case Some(i) =>
      if writeError.None? {
        var rest := ts[..i] + ts[i + 1..];
        var o := DeleteOutcome(f, writeError, id);
        assert o == Outcome(Ok(()), Holds(rest));
        SpliceOut(ts, i);
        assert ts[i].id == id && (forall j :: 0 <= j < i ==> ts[j].id != id);
        assert o.result.Ok? && Loaded(o.file).Ok? && Loaded(o.file).value == rest;
      }
  }

  /** Splicing out position `i` shifts the later tasks down by one and loses exactly that task. */
  lemma SpliceOut(ts: seq<Task>, i: nat)
    requires i < |ts|
    ensures var r := ts[..i] + ts[i + 1..];
      && |r| == |ts| - 1
      && (forall j :: 0 <= j < i ==> r[j] == ts[j])
      && (forall j :: i <= j < |r| ==> r[j] == ts[j + 1])
      && multiset(r) + multiset{ts[i]} == multiset(ts)
  {
    assert ts == ts[..i] + [ts[i]] + ts[i + 1..];
  }

  // ---------------------------------------------------------------------
  // The tools

  /** The `tags` argument's strings, when it is an array. */
  function TagsArg(args: map<string, Json>): (tags: seq<string>)
  {
    if "tags" in args && args["tags"].JArr? then Tools.StringItems(args["tags"].items) else []
  }

  /** The task `create_task` builds before storing it: ID empty and status "pending". */
  function CreateTaskDraft(args: map<string, Json>, createdBy: string): (r: Result<Task, string>)
    ensures Tools.ArgRequired(args, "title").None? <==> r == Err("title is required")
    ensures r.Ok? ==> r.value.id == "" && r.value.status == "pending" && r.value.createdBy == createdBy
  {
    match Tools.ArgRequired(args, "title")
    case None => Err("title is required")
    case Some(title) =>
      Ok(Task("", title, Tools.ArgStringOr(args, "description", ""), "pending", Tools.ArgStringOr(args, "priority", ""),
              Tools.ArgStringOr(args, "assigned_to", ""), createdBy, 0, 0, TagsArg(args)))
  }

  /** The map `create_task` returns. */
  function CreatedJson(t: Task): Json {
    JObj(map["id" := JStr(t.id), "title" := JStr(t.title), "status" := JStr(t.status), "created_at" := JInt(t.createdAt)])
  }

  /** `create_task`. */
  function CreateTaskOutcome(f: FileState, writeError: Option<string>, args: map<string, Json>, createdBy: string,
                             freshId: string, now: int): Outcome<Json>
  {
    match CreateTaskDraft(args, createdBy)
    case Err(e) => Outcome(Err(e), f)
    case Ok(draft) =>
      var o := CreateOutcome(f, writeError, draft, freshId, now);
      match o.result
      case Err(e) => Outcome(Err("create task: " + e), o.file)
      case Ok(t) => Outcome(Ok(CreatedJson(t)), o.file)
  }

  /** `CreateTaskTool.Execute`. */
  method CreateTask(store: FileTaskStore, args: map<string, Json>, createdBy: string, freshId: string, now: int)
    returns (r: Result<Json, string>)
    modifies store
    ensures Outcome(r, store.file) == CreateTaskOutcome(old(store.file), store.writeError, args, createdBy, freshId, now)
  {
    var title := Tools.ArgRequired(args, "title");
    if title.None? {
      return Err("title is required");
    }
    var task := Task("", title.value, "", "pending", "", "", createdBy, 0, 0, []);
    task := task.(description := Tools.ArgStringOr(args, "description", task.description));
    task := task.(priority := Tools.ArgStringOr(args, "priority", task.priority));
    task := task.(assignedTo := Tools.ArgStringOr(args, "assigned_to", task.assignedTo));
    if "tags" in args && args["tags"].JArr? {
      var tags := Tools.CollectStrings(args["tags"].items);
      task := task.(tags := tags);
    }
    var created := store.Create(task, freshId, now);
    if created.Err? {
      return Err("create task: " + created.error);
    }
    return Ok(CreatedJson(created.value));
  }

  /** A created task has a fresh ID, the title given, status "pending", and only the string tags. */
  lemma CreateTaskStores(f: FileState, writeError: Option<string>, args: map<string, Json>, createdBy: string,
                         freshId: string, now: int)
    requires Loaded(f).Ok? && writeError.None? && Tools.ArgRequired(args, "title").Some?
    ensures var o := CreateTaskOutcome(f, writeError, args, createdBy, freshId, now);
      && Loaded(o.file).Ok?
      && |Loaded(o.file).value| == |Loaded(f).value| + 1
      && Loaded(o.file).value[..|Loaded(f).value|] == Loaded(f).value
      && var t := Loaded(o.file).value[|Loaded(f).value|];
      && t.id == freshId && t.title == args["title"].s && t.status == "pending"
      && t.createdBy == createdBy && t.createdAt == now
      && (forall s :: s in t.tags ==> "tags" in args && args["tags"].JArr? && JStr(s) in args["tags"].items)
      && o.result == Ok(CreatedJson(t))
  {
    var draft := CreateTaskDraft(args, createdBy).value;
    if "tags" in args && args["tags"].JArr? {
      Tools.StringItemsMembership(args["tags"].items);
    }
    var o := CreateOutcome(f, writeError, draft, freshId, now);
    assert Loaded(o.file).value == Loaded(f).value + [Filled(draft, freshId, now)];
  }

  /** `update_task`'s overrides: every string argument among these five replaces the field. */
  function Overridden(t: Task, args: map<string, Json>): (u: Task)
    ensures u.id == t.id && u.createdBy == t.createdBy && u.createdAt == t.createdAt && u.tags == t.tags
  {
    t.(title := Tools.ArgStringOr(args, "title", t.title),
       description := Tools.ArgStringOr(args, "description", t.description),
       status := Tools.ArgStringOr(args, "status", t.status),
       priority := Tools.ArgStringOr(args, "priority", t.priority),
       assignedTo := Tools.ArgStringOr(args, "assigned_to", t.assignedTo))
  }

  /** The map `update_task` returns. */
  function UpdatedJson(t: Task): Json {
    JObj(map["id" := JStr(t.id), "title" := JStr(t.title), "status" := JStr(t.status), "updated_at" := JInt(t.updatedAt)])
  }

  /** `update_task`: the store's `Get` error is returned as it is, its `Update` error wrapped. */
  function UpdateTaskOutcome(f: FileState, writeError: Option<string>, args: map<string, Json>, now: int): Outcome<Json>
  {
    match Tools.ArgRequired(args, "id")
    case None => Outcome(Err("id is required"), f)
    case Some(id) =>
      match GetResult(f, id)
      case Err(e) => Outcome(Err(e), f)
      case Ok(t) =>
        var o := UpdateOutcome(f, writeError, Overridden(t, args), now);
        match o.result
        case Err(e) => Outcome(Err("update task: " + e), o.file)
        case Ok(u) => Outcome(Ok(UpdatedJson(u)), o.file)
  }

  /** `UpdateTaskTool.Execute`. */
  method UpdateTask(store: FileTaskStore, args: map<string, Json>, now: int) returns (r: Result<Json, string>)
    modifies store
    ensures Outcome(r, store.file) == UpdateTaskOutcome(old(store.file), store.writeError, args, now)
  {
    var id := Tools.ArgRequired(args, "id");
    if id.None? {
      return Err("id is required");
    }
    var task := store.Get(id.value);
    if task.Err? {
      return Err(task.error);
    }
    var t := task.value;
    t := t.(title := Tools.ArgStringOr(args, "title", t.title));
    t := t.(description := Tools.ArgStringOr(args, "description", t.description));
    t := t.(status := Tools.ArgStringOr(args, "status", t.status));
    t := t.(priority := Tools.ArgStringOr(args, "priority", t.priority));
    t := t.(assignedTo := Tools.ArgStringOr(args, "assigned_to", t.assignedTo));
    var updated := store.Update(t, now);
    if updated.Err? {
      return Err("update task: " + updated.error);
    }
    return Ok(UpdatedJson(updated.value));
  }

  /** Storing `t` again over the first task with its ID when `t` came from that task. */
  lemma RewriteFirst(f: FileState, writeError: Option<string>, id: string, u: Task, now: int)
    requires Loaded(f).Ok? && writeError.None?
    requires GetResult(f, id).Ok? && u.id == id
    ensures var ts := Loaded(f).value;
      var i := FirstIndex(ts, id).value;
      UpdateOutcome(f, writeError, u, now) == Outcome(Ok(u.(updatedAt := now)), Holds(ts[i := u.(updatedAt := now)]))
  {
  }

  /**
   * Once the task is found, `update_task` cannot miss it again: with a writable
   * file it rewrites the first task with the ID in place and nothing else.
   */
  lemma UpdateTaskRewritesInPlace(f: FileState, writeError: Option<string>, args: map<string, Json>, now: int)
    requires Loaded(f).Ok? && writeError.None?
    requires Tools.ArgRequired(args, "id").Some? && GetResult(f, args["id"].s).Ok?
    ensures var ts := Loaded(f).value;
      var i := FirstIndex(ts, args["id"].s).value;
      var u := Overridden(ts[i], args).(updatedAt := now);
      UpdateTaskOutcome(f, writeError, args, now) == Outcome(Ok(UpdatedJson(u)), Holds(ts[i := u]))
  {
    var id := args["id"].s;
    var t := GetResult(f, id).value;
    RewriteFirst(f, writeError, id, Overridden(t, args), now);
  }

  /** Both filters of `list_tasks`: a filter that is not a string argument is not applied. */
  predicate Matches(t: Task, args: map<string, Json>) {
    && (Tools.ArgString(args, "status").Some? ==> t.status == args["status"].s)
    && (Tools.ArgString(args, "assigned_to").Some? ==> t.assignedTo == args["assigned_to"].s)
  }

  /** The tasks that pass the filters, in stored order. */
  function Filtered(ts: seq<Task>, args: map<string, Json>): (r: seq<Task>)
    ensures |r| <= |ts|
  {
    if ts == [] then []
    else if Matches(ts[|ts| - 1], args) then Filtered(ts[..|ts| - 1], args) + [ts[|ts| - 1]]
    else Filtered(ts[..|ts| - 1], args)
  }

  /** The filtered list holds exactly the stored tasks that pass both filters. */
  lemma {:induction false} FilteredExact(ts: seq<Task>, args: map<string, Json>)
    ensures forall t :: t in Filtered(ts, args) <==> t in ts && Matches(t, args)
  {
    if ts != [] {
      var init := ts[..|ts| - 1];
      FilteredExact(init, args);
      assert ts == init + [ts[|ts| - 1]];
    }
  }

  /** The map `list_tasks` returns. */
  datatype TaskList = TaskList(tasks: seq<Task>, count: int)

  /** `ListTasksTool.Execute`. */
  method ListTasks(store: FileTaskStore, args: map<string, Json>) returns (r: Result<TaskList, string>)
    ensures Loaded(store.file).Err? ==> r == Err("list tasks: " + Loaded(store.file).error)
    ensures Loaded(store.file).Ok? ==> r.Ok? && r.value.tasks == Filtered(Loaded(store.file).value, args)
    ensures r.Ok? ==> r.value.count == |r.value.tasks|
    ensures r.Ok? ==> forall t :: t in r.value.tasks <==> t in Loaded(store.file).value && Matches(t, args)
  {
    var tasks := store.List();
    if tasks.Err? {
      return Err("list tasks: " + tasks.error);
    }
    var status := Tools.ArgString(args, "status");
    var assignee := Tools.ArgString(args, "assigned_to");
    var filtered: seq<Task> := [];
    for i := 0 to |tasks.value|
      invariant filtered == Filtered(tasks.value[..i], args)
    {
      var task := tasks.value[i];
      assert tasks.value[..i + 1][..i] == tasks.value[..i];
      if status.Some? && task.status != status.value {
        continue;
      }
      if assignee.Some? && task.assignedTo != assignee.value {
        continue;
      }
      filtered := filtered + [task];
    }
    assert tasks.value[..|tasks.value|] == tasks.value;
    FilteredExact(tasks.value, args);
    return Ok(TaskList(filtered, |filtered|));
  }

  /** `assign_task`: the assignee replaces the task's one; a store error on update is wrapped. */
  function AssignTaskOutcome(f: FileState, writeError: Option<string>, args: map<string, Json>, now: int): Outcome<Json>
    ensures Tools.ArgRequired(args, "id").None? ==> AssignTaskOutcome(f, writeError, args, now) == Outcome(Err("id is required"), f)
    ensures Tools.ArgRequired(args, "id").Some? && Tools.ArgRequired(args, "assigned_to").None? ==>
      AssignTaskOutcome(f, writeError, args, now) == Outcome(Err("assigned_to is required"), f)
  {
    match Tools.ArgRequired(args, "id")
    case None => Outcome(Err("id is required"), f)
    case Some(id) =>
      match Tools.ArgRequired(args, "assigned_to")
      case None => Outcome(Err("assigned_to is required"), f)
      case Some(assignee) =>
        match GetResult(f, id)
        case Err(e) => Outcome(Err(e), f)
        case Ok(t) =>
          var o := UpdateOutcome(f, writeError, t.(assignedTo := assignee), now);
          match o.result
          case Err(e) => Outcome(Err("assign task: " + e), o.file)
          case Ok(u) => Outcome(Ok(JObj(map["id" := JStr(u.id), "title" := JStr(u.title),
                                           "assigned_to" := JStr(u.assignedTo)])), o.file)
  }

  /** `AssignTaskTool.Execute`. */
  method AssignTask(store: FileTaskStore, args: map<string, Json>, now: int) returns (r: Result<Json, string>)
    modifies store
    ensures Outcome(r, store.file) == AssignTaskOutcome(old(store.file), store.writeError, args, now)
  {
    var id := Tools.ArgRequired(args, "id");
    if id.None? {
      return Err("id is required");
    }
    var assignee := Tools.ArgRequired(args, "assigned_to");
    if assignee.None? {
      return Err("assigned_to is required");
    }
    var task := store.Get(id.value);
    if task.Err? {
      return Err(task.error);
    }
    var updated := store.Update(task.value.(assignedTo := assignee.value), now);
    if updated.Err? {
      return Err("assign task: " + updated.error);
    }
    var u := updated.value;
    return Ok(JObj(map["id" := JStr(u.id), "title" := JStr(u.title), "assigned_to" := JStr(u.assignedTo)]));
  }

  /** With a writable file, assigning a stored task changes only that task's assignee and stamp. */
  lemma AssignTaskReassigns(f: FileState, writeError: Option<string>, args: map<string, Json>, now: int)
    requires Loaded(f).Ok? && writeError.None?
    requires Tools.ArgRequired(args, "id").Some? && Tools.ArgRequired(args, "assigned_to").Some?
    requires GetResult(f, args["id"].s).Ok?
    ensures var ts := Loaded(f).value;
      var i := FirstIndex(ts, args["id"].s).value;
      AssignTaskOutcome(f, writeError, args, now).file == Holds(ts[i := ts[i].(assignedTo := args["assigned_to"].s, updatedAt := now)])
  {
    var id := args["id"].s;
    var t := GetResult(f, id).value;
    RewriteFirst(f, writeError, id, t.(assignedTo := args["assigned_to"].s), now);
  }

  /** `DelegateFunc`: the error of handing the task to the role, if any. */
  type Delegate = (string, string, string) -> Option<string>

  /**
   * `delegate_task`: the task is reassigned to the role, then handed over. Store
   * errors are returned unwrapped; a failed hand-over does not undo the reassignment.
   */
  function DelegateTaskOutcome(f: FileState, writeError: Option<string>, args: map<string, Json>, now: int,
                               delegate: Option<Delegate>): Outcome<Json>
    ensures Tools.ArgRequired(args, "task_id").None? ==>
      DelegateTaskOutcome(f, writeError, args, now, delegate) == Outcome(Err("task_id is required"), f)
    ensures Tools.ArgRequired(args, "task_id").Some? && Tools.ArgRequired(args, "to_role").None? ==>
      DelegateTaskOutcome(f, writeError, args, now, delegate) == Outcome(Err("to_role is required"), f)
  {
    match Tools.ArgRequired(args, "task_id")
    case None => Outcome(Err("task_id is required"), f)
    case Some(taskId) =>
      match Tools.ArgRequired(args, "to_role")
      case None => Outcome(Err("to_role is required"), f)
      case Some(role) =>
        var message := Tools.ArgStringOr(args, "message", "");
        match GetResult(f, taskId)
        case Err(e) => Outcome(Err(e), f)
        case Ok(t) =>
          var o := UpdateOutcome(f, writeError, t.(assignedTo := role), now);
          if o.result.Err? then Outcome(Err(o.result.error), o.file)
          else if delegate.Some? && delegate.value(role, taskId, message).Some? then
            Outcome(Err("delegate: " + delegate.value(role, taskId, message).value), o.file)
          else
            Outcome(Ok(JObj(map["task_id" := JStr(taskId), "delegated_to" := JStr(role), "message" := JStr(message)])), o.file)
  }

  /** `DelegateTaskTool.Execute`. */
  method DelegateTask(store: FileTaskStore, args: map<string, Json>, now: int, delegate: Option<Delegate>)
    returns (r: Result<Json, string>)
    modifies store
    ensures Outcome(r, store.file) == DelegateTaskOutcome(old(store.file), store.writeError, args, now, delegate)
  {
    var taskId := Tools.ArgRequired(args, "task_id");
    if taskId.None? {
      return Err("task_id is required");
    }
    var role := Tools.ArgRequired(args, "to_role");
    if role.None? {
      return Err("to_role is required");
    }
    var message := "";
    if Tools.ArgString(args, "message").Some? {
      message := args["message"].s;
    }
    var task := store.Get(taskId.value);
    if task.Err? {
      return Err(task.error);
    }
    var updated := store.Update(task.value.(assignedTo := role.value), now);
    if updated.Err? {
      return Err(updated.error);
    }
    if delegate.Some? {
      var err := delegate.value(role.value, taskId.value, message);
      if err.Some? {
        return Err("delegate: " + err.value);
      }
    }
    return Ok(JObj(map["task_id" := JStr(taskId.value), "delegated_to" := JStr(role.value), "message" := JStr(message)]));
  }

  /** With a writable file the task is reassigned to the role whether or not the hand-over succeeds. */
  lemma DelegateReassignsEvenOnFailure(f: FileState, writeError: Option<string>, args: map<string, Json>, now: int,
                                       d1: Option<Delegate>, d2: Option<Delegate>)
    requires Loaded(f).Ok? && writeError.None?
    requires Tools.ArgRequired(args, "task_id").Some? && Tools.ArgRequired(args, "to_role").Some?
    requires GetResult(f, args["task_id"].s).Ok?
    ensures var ts := Loaded(f).value;
      var i := FirstIndex(ts, args["task_id"].s).value;
      && DelegateTaskOutcome(f, writeError, args, now, d1).file == Holds(ts[i := ts[i].(assignedTo := args["to_role"].s, updatedAt := now)])
      && DelegateTaskOutcome(f, writeError, args, now, d1).file == DelegateTaskOutcome(f, writeError, args, now, d2).file
  {
    var id := args["task_id"].s;
    var t := GetResult(f, id).value;
    RewriteFirst(f, writeError, id, t.(assignedTo := args["to_role"].s), now);
  }

  // ---------------------------------------------------------------------
  // create_report

  /** The report `create_report` writes: under `reports/`, named by type and timestamp. */
  datatype Report = Report(path: string, content: string)

  /** The header and body of a report. */
  function ReportContent(title: string, createdBy: string, date: string, content: string): string {
    "# " + title + "\n\n*Created by: " + createdBy + "*\n*Date: " + date + "*\n\n---\n\n" + content
  }

  /**
   * `create_report` up to the write. `stamp` is the time as "2006-01-02-150405",
   * `date` as RFC 3339; `mkdirAll` gives the error of `os.MkdirAll`.
   */
  function ReportPlan(args: map<string, Json>, artifactPath: string, createdBy: string, stamp: string, date: string,
                      mkdirAll: string -> Option<string>): (r: Result<Report, string>)
    ensures Tools.ArgRequired(args, "title").None? ==> r == Err("title is required")
    ensures Tools.ArgRequired(args, "title").Some? && Tools.ArgRequired(args, "content").None? ==> r == Err("content is required")
    ensures r.Ok? ==> r.value.path == JoinAll([artifactPath, "reports", Tools.ArgStringOr(args, "type", "general") + "-" + stamp + ".md"])
  {
    match Tools.ArgRequired(args, "title")
    case None => Err("title is required")
    case Some(title) =>
      match Tools.ArgRequired(args, "content")
      case None => Err("content is required")
      case Some(content) =>
        var reportType := Tools.ArgStringOr(args, "type", "general");
        var reportPath := JoinAll([artifactPath, "reports", reportType + "-" + stamp + ".md"]);
        match mkdirAll(Dir(reportPath))
        case Some(e) => Err("create report directory: " + e)
        case None => Ok(Report(reportPath, ReportContent(title, createdBy, date, content)))
  }

  /** `CreateReportTool.Execute`: `write` gives the error of `os.WriteFile`. */
  function CreateReport(args: map<string, Json>, artifactPath: string, createdBy: string, stamp: string, date: string,
                        now: int, mkdirAll: string -> Option<string>, write: Report -> Option<string>): (r: Result<Json, string>)
    ensures ReportPlan(args, artifactPath, createdBy, stamp, date, mkdirAll).Err? ==>
      r == Err(ReportPlan(args, artifactPath, createdBy, stamp, date, mkdirAll).error)
    ensures r.Ok? ==> write(ReportPlan(args, artifactPath, createdBy, stamp, date, mkdirAll).value).None?
  {
    match ReportPlan(args, artifactPath, createdBy, stamp, date, mkdirAll)
    case Err(e) => Err(e)
    case Ok(report) =>
      match write(report)
      case Some(e) => Err("write report: " + e)
      case None =>
        Ok(JObj(map["path" := JStr(report.path), "title" := JStr(args["title"].s),
                    "type" := JStr(Tools.ArgStringOr(args, "type", "general")), "created_at" := JInt(now)]))
  }

  /** The written report starts with the title as a heading and ends with the content unchanged. */
  lemma ReportKeepsContent(args: map<string, Json>, artifactPath: string, createdBy: string, stamp: string, date: string,
                           mkdirAll: string -> Option<string>)
    requires ReportPlan(args, artifactPath, createdBy, stamp, date, mkdirAll).Ok?
    ensures var c := ReportPlan(args, artifactPath, createdBy, stamp, date, mkdirAll).value.content;
      var title := args["title"].s;
      var body := args["content"].s;
      && |c| >= |title| + 2 + |body|
      && c[..|title| + 2] == "# " + title
      && c[|c| - |body|..] == body
  {
    var c := ReportPlan(args, artifactPath, createdBy, stamp, date, mkdirAll).value.content;
    var title := args["title"].s;
    var body := args["content"].s;
    var head := "# " + title + "\n\n*Created by: " + createdBy + "*\n*Date: " + date + "*\n\n---\n\n";
    assert c == head + body;
    assert head[..|title| + 2] == "# " + title;
  }
}
