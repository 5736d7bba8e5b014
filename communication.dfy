/**
 * The communication tools: ask_colleague, which puts a question to another
 * role through a configured function, and report_progress, which hands a
 * progress report to an optional one. Either function is `None` when it is
 * not configured; `now` is the instant stamped on the reply.
 */
module Communication {
  import opened Wrappers
  import opened ProviderTypes
  import Tools

  // ---------------------------------------------------------------------
  // ask_colleague

  /** Asks `role` a question and gives the answer or an error. */
  type ColleagueFunc = (string, string) -> Result<string, string>

  /** `AskColleagueTool.Execute`. */
  function AskColleague(args: map<string, Json>, fromRole: string, ask: Option<ColleagueFunc>, now: int): (r: Result<Json, string>)
    ensures Tools.ArgRequired(args, "role").None? ==> r == Err("role is required (e.g., engineer, pm, qa, ba)")
    ensures Tools.ArgRequired(args, "role").Some? && Tools.ArgRequired(args, "question").None? ==>
      r == Err("question is required")
    ensures Tools.ArgRequired(args, "role").Some? && Tools.ArgRequired(args, "question").Some? && ask.None? ==>
      r == Err("ask function not configured")
    ensures r.Ok? <==> (&& Tools.ArgRequired(args, "role").Some? && Tools.ArgRequired(args, "question").Some?
                        && ask.Some? && ask.value(args["role"].s, args["question"].s).Ok?)
    ensures r.Ok? ==>
      var role := args["role"].s;
      var question := args["question"].s;
      r.value == JObj(map["role" := JStr(role), "question" := JStr(question),
                          "response" := JStr(ask.value(role, question).value),
                          "asked_by" := JStr(fromRole), "timestamp" := JInt(now)])
  {
    match Tools.ArgRequired(args, "role")
    case None => Err("role is required (e.g., engineer, pm, qa, ba)")
    case Some(role) =>
      match Tools.ArgRequired(args, "question")
      case None => Err("question is required")
      case Some(question) =>
        match ask
        case None => Err("ask function not configured")
        case Some(f) =>
          match f(role, question)
          case Err(e) => Err("ask " + role + ": " + e)
          case Ok(response) =>
            Ok(JObj(map["role" := JStr(role), "question" := JStr(question), "response" := JStr(response),
                        "asked_by" := JStr(fromRole), "timestamp" := JInt(now)]))
  }

  /** A failed question names the role it was put to, and keeps the colleague's error. */
  lemma AskColleagueFailure(args: map<string, Json>, fromRole: string, ask: Option<ColleagueFunc>, now: int)
    requires Tools.ArgRequired(args, "role").Some? && Tools.ArgRequired(args, "question").Some?
    requires ask.Some? && ask.value(args["role"].s, args["question"].s).Err?
    ensures AskColleague(args, fromRole, ask, now)
      == Err("ask " + args["role"].s + ": " + ask.value(args["role"].s, args["question"].s).error)
  {
  }

  // ---------------------------------------------------------------------
  // report_progress

  /** Receives a status and the details of a report, and gives an error or nothing. */
  type ProgressFunc = (string, Json) -> Option<string>

  /** `args["percent_complete"].(float64)`: every JSON number decodes to a float, anything else leaves 0. */
  function PercentArg(args: map<string, Json>): (p: real)
    ensures "percent_complete" !in args ==> p == 0.0
    ensures "percent_complete" in args && args["percent_complete"].JReal? ==> p == args["percent_complete"].r
    ensures "percent_complete" in args && args["percent_complete"].JInt? ==> p == args["percent_complete"].i as real
    ensures "percent_complete" in args && !args["percent_complete"].JReal? && !args["percent_complete"].JInt? ==> p == 0.0
  {
    if "percent_complete" !in args then 0.0
    else match args["percent_complete"]
      case JReal(x) => x
      case JInt(i) => i as real
      case _ => 0.0
  }

  function Strings(xs: seq<string>): seq<Json> {
    seq(|xs|, i requires 0 <= i < |xs| => JStr(xs[i]))
  }

  /** A progress report as the tool assembles it. */
  datatype Progress = Progress(status: string, message: string, percent: real, blockers: seq<string>, nextSteps: seq<string>)

  /** The report `report_progress` makes of its arguments, or the missing-status error. */
  function ProgressOf(args: map<string, Json>): (r: Result<Progress, string>)
    ensures Tools.ArgRequired(args, "status").None? <==> r == Err("status is required (e.g., in_progress, blocked, completed)")
    ensures r.Ok? ==> && r.value.status == args["status"].s
                      && r.value.message == Tools.ArgStringOr(args, "message", "")
                      && r.value.percent == PercentArg(args)
                      && r.value.blockers == Tools.StringsArg(args, "blockers")
                      && r.value.nextSteps == Tools.StringsArg(args, "next_steps")
  {
    match Tools.ArgRequired(args, "status")
    case None => Err("status is required (e.g., in_progress, blocked, completed)")
    case Some(status) =>
      Ok(Progress(status, Tools.ArgStringOr(args, "message", ""), PercentArg(args),
                  Tools.StringsArg(args, "blockers"), Tools.StringsArg(args, "next_steps")))
  }

  /** The details handed to the progress function. */
  function Details(p: Progress, fromRole: string, taskId: string): Json {
    JObj(map["message" := JStr(p.message), "percent_complete" := JReal(p.percent),
             "blockers" := JArr(Strings(p.blockers)), "next_steps" := JArr(Strings(p.nextSteps)),
             "from_role" := JStr(fromRole), "task_id" := JStr(taskId)])
  }

  /** The reply of a report that went through. */
  function ProgressReply(p: Progress, now: int): Json {
    JObj(map["reported" := JBool(true), "status" := JStr(p.status), "message" := JStr(p.message),
             "percent_complete" := JReal(p.percent), "blockers" := JArr(Strings(p.blockers)),
             "next_steps" := JArr(Strings(p.nextSteps)), "timestamp" := JInt(now)])
  }

  /** `report_progress` as a value. */
  function ReportProgressOutcome(args: map<string, Json>, fromRole: string, taskId: string, report: Option<ProgressFunc>,
                                 now: int): Result<Json, string>
  {
    match ProgressOf(args)
    case Err(e) => Err(e)
    case Ok(p) =>
      if report.Some? && report.value(p.status, Details(p, fromRole, taskId)).Some? then
        Err("report progress: " + report.value(p.status, Details(p, fromRole, taskId)).value)
      else Ok(ProgressReply(p, now))
  }

  /** The first half of `ReportProgressTool.Execute`: the arguments, with blockers and next steps collected in loops. */
  method CollectProgress(args: map<string, Json>) returns (r: Result<Progress, string>)
    ensures r == ProgressOf(args)
  {
    var status := Tools.ArgRequired(args, "status");
    if status.None? {
      return Err("status is required (e.g., in_progress, blocked, completed)");
    }
    var message := "";
    if Tools.ArgString(args, "message").Some? {
      message := args["message"].s;
    }
    var percentComplete := 0.0;
    if "percent_complete" in args && (args["percent_complete"].JReal? || args["percent_complete"].JInt?) {
      percentComplete := PercentArg(args);
    }
    var blockers := [];
    if "blockers" in args && args["blockers"].JArr? {
      blockers := Tools.CollectStrings(args["blockers"].items);
    }
    var nextSteps := [];
    if "next_steps" in args && args["next_steps"].JArr? {
      nextSteps := Tools.CollectStrings(args["next_steps"].items);
    }
    assert message == Tools.ArgStringOr(args, "message", "");
    assert percentComplete == PercentArg(args);
    assert blockers == Tools.StringsArg(args, "blockers");
    assert nextSteps == Tools.StringsArg(args, "next_steps");
    return Ok(Progress(status.value, message, percentComplete, blockers, nextSteps));
  }

  /** `ReportProgressTool.Execute`. */
  method ReportProgress(args: map<string, Json>, fromRole: string, taskId: string, report: Option<ProgressFunc>, now: int)
    returns (r: Result<Json, string>)
    ensures r == ReportProgressOutcome(args, fromRole, taskId, report, now)
  {
    var progress := CollectProgress(args);
    if progress.Err? {
      return Err(progress.error);
    }
    var p := progress.value;
    if report.Some? {
      var err := report.value(p.status, Details(p, fromRole, taskId));
      if err.Some? {
        return Err("report progress: " + err.value);
      }
    }
    return Ok(ProgressReply(p, now));
  }

  /**
   * Without a progress function every report with a status goes through:
   * the reply says it was reported and carries only the string blockers
   * and next steps, percent_complete defaulting to 0.
   */
  lemma ReportedWithoutFunction(args: map<string, Json>, fromRole: string, taskId: string, now: int)
    requires Tools.ArgRequired(args, "status").Some?
    ensures var r := ReportProgressOutcome(args, fromRole, taskId, None, now);
      && r.Ok? && r.value.JObj? && r.value.fields["reported"] == JBool(true)
      && r.value.fields["status"] == JStr(args["status"].s)
      && ("percent_complete" !in args ==> r.value.fields["percent_complete"] == JReal(0.0))
      && r.value.fields["blockers"] == JArr(Strings(Tools.StringsArg(args, "blockers")))
      && (forall s :: JStr(s) in r.value.fields["blockers"].items <==>
            "blockers" in args && args["blockers"].JArr? && JStr(s) in args["blockers"].items)
  {
    var p := ProgressOf(args).value;
    assert ReportProgressOutcome(args, fromRole, taskId, None, now) == Ok(ProgressReply(p, now));
    StringsMembership(p.blockers);
    ProgressReplyFields(p, now);
  }

  lemma ProgressReplyFields(p: Progress, now: int)
    ensures var f := ProgressReply(p, now).fields;
      && f["reported"] == JBool(true) && f["status"] == JStr(p.status)
      && f["percent_complete"] == JReal(p.percent) && f["blockers"] == JArr(Strings(p.blockers))
  {
  }

  /** The JSON array of strings holds exactly the strings of the list. */
  lemma StringsMembership(xs: seq<string>)
    ensures forall s :: JStr(s) in Strings(xs) <==> s in xs
  {
    forall s ensures JStr(s) in Strings(xs) <==> s in xs {
      if s in xs {
        var i :| 0 <= i < |xs| && xs[i] == s;
        assert Strings(xs)[i] == JStr(s);
      }
    }
  }

  /** A report without a status is refused whatever function is configured. */
  lemma StatusRequired(args: map<string, Json>, fromRole: string, taskId: string, report: Option<ProgressFunc>, now: int)
    requires Tools.ArgRequired(args, "status").None?
    ensures ReportProgressOutcome(args, fromRole, taskId, report, now)
      == Err("status is required (e.g., in_progress, blocked, completed)")
  {
  }
}
