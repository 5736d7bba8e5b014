/**
 * Activity entries: what an agent did (a tool call, a delegation, a task
 * update, a message, a progress report or an error), stamped with an
 * instant in nanoseconds since Go's zero time. The clock and the
 * time-formatted ID `generateID` gives are parameters (`now`, `id`); the
 * free-form data values are JSON values.
 */
module Activity {
  import opened Wrappers
  import opened GoStrings
  import opened ProviderTypes

  const ToolCall: string := "tool_call"
  const Delegation: string := "delegation"
  const TaskUpdate: string := "task_update"
  const MessageKind: string := "message"
  const ProgressKind: string := "progress"
  const ErrorKind: string := "error"

  datatype ActivityEntry = ActivityEntry(
    id: string,
    timestamp: int,
    kind: string,
    agentId: string,
    agentRole: string,
    taskId: string,
    data: map<string, Json>,
    success: bool,
    durationMs: int,
    error: string)

  /** `NewActivityEntry`: a successful entry of the kind, with no task, data, duration or error. */
  function NewActivityEntry(kind: string, agentId: string, agentRole: string, id: string, now: int): (e: ActivityEntry)
    ensures e.success && e.data == map[] && e.taskId == "" && e.error == "" && e.durationMs == 0
    ensures e.kind == kind && e.agentId == agentId && e.agentRole == agentRole && e.timestamp == now && e.id == id
  {
    ActivityEntry(id, now, kind, agentId, agentRole, "", map[], true, 0, "")
  }

  /** `WithTask`. */
  function WithTask(e: ActivityEntry, taskId: string): (r: ActivityEntry)
    ensures r.taskId == taskId && r.(taskId := e.taskId) == e
  {
    e.(taskId := taskId)
  }

  /** `WithData`: one data key set, the others kept. */
  function WithData(e: ActivityEntry, key: string, value: Json): (r: ActivityEntry)
    ensures r.data.Keys == e.data.Keys + {key} && r.data[key] == value
    ensures forall k :: k in e.data && k != key ==> r.data[k] == e.data[k]
    ensures r.(data := e.data) == e
  {
    e.(data := e.data[key := value])
  }

  /** `WithError`: always unsuccessful; the message is recorded only for an actual error. */
  function WithError(e: ActivityEntry, err: Option<string>): (r: ActivityEntry)
    ensures !r.success
    ensures err.Some? ==> r.error == err.value
    ensures err.None? ==> r.error == e.error
    ensures r.(success := e.success, error := e.error) == e
  {
    var r := e.(success := false);
    if err.Some? then r.(error := err.value) else r
  }

  /** `time.Duration.Milliseconds`: nanoseconds to milliseconds, truncated toward zero. */
  function Milliseconds(ns: int): (ms: int)
    ensures ns >= 0 ==> 0 <= ms && ms * 1_000_000 <= ns < (ms + 1) * 1_000_000
    ensures ns < 0 ==> ms <= 0 && -ms * 1_000_000 <= -ns < (-ms + 1) * 1_000_000
  {
    if ns >= 0 then ns / 1_000_000 else -((-ns) / 1_000_000)
  }

  /** `WithDuration`. */
  function WithDuration(e: ActivityEntry, ns: int): (r: ActivityEntry)
    ensures r.durationMs == Milliseconds(ns) && r.(durationMs := e.durationMs) == e
  {
    e.(durationMs := Milliseconds(ns))
  }

  /** The argument keys whose values are never logged. */
  predicate Sensitive(k: string) {
    k == "password" || k == "secret" || k == "token" || k == "api_key" || k == "apikey"
  }

  /** The value `sanitizeArgs` logs for one argument. */
  function SanitizedValue(k: string, v: Json): Json {
    if Sensitive(k) then JStr("[REDACTED]")
    else if v.JStr? && |v.s| > 1000 then JStr(Truncate(v.s, 1000))
    else v
  }

  /** What `sanitizeArgs` makes of the arguments. */
  function Sanitized(args: map<string, Json>): map<string, Json> {
    map k | k in args :: SanitizedValue(k, args[k])
  }

  /** `sanitizeArgs`: the loop over the arguments, filling a new map. */
  method SanitizeArgs(args: map<string, Json>) returns (sanitized: map<string, Json>)
    ensures sanitized == Sanitized(args)
  {
    sanitized := map[];
    var left := args.Keys;
    while left != {}
      invariant left <= args.Keys
      invariant sanitized.Keys == args.Keys - left
      invariant forall k :: k in sanitized ==> sanitized[k] == SanitizedValue(k, args[k])
      decreases left
    {
      var k :| k in left;
      var v := args[k];
      if Sensitive(k) {
        sanitized := sanitized[k := JStr("[REDACTED]")];
      } else if v.JStr? && |v.s| > 1000 {
        sanitized := sanitized[k := JStr(Truncate(v.s, 1000))];
      } else {
        sanitized := sanitized[k := v];
      }
      left := left - {k};
    }
  }

  /**
   * The sanitised arguments have the same keys; every sensitive one is
   * redacted, every long string cut to 1000 bytes and "...", and every other
   * value kept.
   */
  lemma SanitizedArgs(args: map<string, Json>)
    ensures Sanitized(args).Keys == args.Keys
    ensures forall k :: k in args && Sensitive(k) ==> Sanitized(args)[k] == JStr("[REDACTED]")
    ensures forall k :: k in args && !Sensitive(k) && args[k].JStr? && |args[k].s| > 1000 ==>
      Sanitized(args)[k].JStr? && |Sanitized(args)[k].s| == 1003 && Sanitized(args)[k].s[..1000] == args[k].s[..1000]
    ensures forall k :: k in args && !Sensitive(k) && !(args[k].JStr? && |args[k].s| > 1000) ==> Sanitized(args)[k] == args[k]
  {
  }

  /** Sanitising twice is sanitising once: a cut string is cut to the same string again. */
  lemma SanitizedIdempotent(args: map<string, Json>)
    ensures Sanitized(Sanitized(args)) == Sanitized(args)
  {
    forall k | k in args
      ensures SanitizedValue(k, SanitizedValue(k, args[k])) == SanitizedValue(k, args[k])
    {
      var v := args[k];
      if !Sensitive(k) && v.JStr? && |v.s| > 1000 {
        var t := Truncate(v.s, 1000);
        assert t[..1000] == v.s[..1000];
        assert Truncate(t, 1000) == t[..1000] + "...";
      }
    }
  }

  /** `ToolCallActivity`: the tool's name and its sanitised arguments. */
  function ToolCallActivity(agentId: string, agentRole: string, toolName: string, args: map<string, Json>,
                            id: string, now: int): (e: ActivityEntry)
    ensures e.kind == ToolCall && e.success && e.data.Keys == {"tool", "args"}
    ensures e.data["tool"] == JStr(toolName) && e.data["args"] == JObj(Sanitized(args))
  {
    var e := NewActivityEntry(ToolCall, agentId, agentRole, id, now);
    e.(data := e.data["tool" := JStr(toolName)]["args" := JObj(Sanitized(args))])
  }

  /** `DelegationActivity`. */
  function DelegationActivity(agentId: string, agentRole: string, toRole: string, taskId: string, message: string,
                              id: string, now: int): (e: ActivityEntry)
    ensures e.kind == Delegation && e.success && e.taskId == taskId && e.data.Keys == {"to_role", "message"}
    ensures e.data["to_role"] == JStr(toRole) && e.data["message"] == JStr(message)
  {
    var e := NewActivityEntry(Delegation, agentId, agentRole, id, now);
    e.(taskId := taskId, data := e.data["to_role" := JStr(toRole)]["message" := JStr(message)])
  }

  /** `TaskUpdateActivity`: the task and its old and new status. */
  function TaskUpdateActivity(agentId: string, agentRole: string, taskId: string, oldStatus: string, newStatus: string,
                              id: string, now: int): (e: ActivityEntry)
    ensures e.kind == TaskUpdate && e.success && e.taskId == taskId && e.data.Keys == {"old_status", "new_status"}
    ensures e.data["old_status"] == JStr(oldStatus) && e.data["new_status"] == JStr(newStatus)
    ensures e.agentId == agentId && e.agentRole == agentRole && e.timestamp == now
  {
    var e := NewActivityEntry(TaskUpdate, agentId, agentRole, id, now);
    e.(taskId := taskId, data := e.data["old_status" := JStr(oldStatus)]["new_status" := JStr(newStatus)])
  }

  /** `MessageActivity`: the content is logged cut to 500 bytes. */
  function MessageActivity(agentId: string, agentRole: string, direction: string, toFrom: string, content: string,
                           id: string, now: int): (e: ActivityEntry)
    ensures e.kind == MessageKind && e.success && e.data.Keys == {"direction", "to_from", "content"}
    ensures e.data["content"] == JStr(Truncate(content, 500))
    ensures e.data["direction"] == JStr(direction) && e.data["to_from"] == JStr(toFrom)
  {
    var e := NewActivityEntry(MessageKind, agentId, agentRole, id, now);
    e.(data := e.data["direction" := JStr(direction)]["to_from" := JStr(toFrom)]["content" := JStr(Truncate(content, 500))])
  }

  /** `ProgressActivity`. */
  function ProgressActivity(agentId: string, agentRole: string, taskId: string, status: string, percent: real,
                            id: string, now: int): (e: ActivityEntry)
    ensures e.kind == ProgressKind && e.success && e.taskId == taskId && e.data.Keys == {"status", "percent_complete"}
    ensures e.data["status"] == JStr(status) && e.data["percent_complete"] == JReal(percent)
  {
    var e := NewActivityEntry(ProgressKind, agentId, agentRole, id, now);
    e.(taskId := taskId, data := e.data["status" := JStr(status)]["percent_complete" := JReal(percent)])
  }

  /** `ErrorActivity`: always unsuccessful; the message is recorded only for an actual error. */
  function ErrorActivity(agentId: string, agentRole: string, context: string, err: Option<string>,
                         id: string, now: int): (e: ActivityEntry)
    ensures e.kind == ErrorKind && !e.success && e.data.Keys == {"context"} && e.data["context"] == JStr(context)
    ensures e.error == (if err.Some? then err.value else "")
  {
    var e := NewActivityEntry(ErrorKind, agentId, agentRole, id, now);
    var e := e.(success := false, data := e.data["context" := JStr(context)]);
    if err.Some? then e.(error := err.value) else e
  }
}
