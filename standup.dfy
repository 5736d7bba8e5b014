/**
 * Standup reports: the reporting period, and the team, member, task,
 * highlight, blocker and next-step sections computed from a period's
 * activity entries and the project's tasks. The clock is a UTC reading
 * `now`; success rates are exact ratios.
 */
module Standup {
  import opened Wrappers
  import opened GoStrings
  import opened Activity
  import PT = ProviderTypes
  import opened Clock
  import Tally
  import Sorting
  import TS = TaskStore

  // ---------------------------------------------------------------------------
  // The reporting period
  // ---------------------------------------------------------------------------

  const PeriodDaily: string := "daily"
  const PeriodWeekly: string := "weekly"

  /** The days since the last Monday, Sunday counting as the seventh day of the week. */
  function DaysBack(now: Reading): (n: int)
    ensures 0 <= n <= 6
  {
    var weekday := WeekdayOf(now);
    (if weekday == 0 then 7 else weekday) - 1
  }

  /**
   * `GetPeriodBounds`: the period ends now; a week starts at the midnight
   * of its Monday, any other period at the midnight of today.
   */
  function GetPeriodBounds(period: string, now: Reading): (int, int) {
    if period == PeriodWeekly then (Midnight(now.year, now.month, now.day - DaysBack(now)), Instant(now))
    else (Midnight(now.year, now.month, now.day), Instant(now))
  }

  /**
   * The period ends now and starts at a midnight no later; a day is at most
   * a day long and starts at today's midnight; a week starts at most six
   * days before today, on a Monday.
   */
  lemma PeriodBounds(period: string, now: Reading)
    ensures var (start, end) := GetPeriodBounds(period, now);
      && end == Instant(now) && start <= end && start % Day == 0
      && (period != PeriodWeekly ==> start == Today(now) * Day && end - start < Day)
      && (period == PeriodWeekly ==>
            && start == (Today(now) - DaysBack(now)) * Day && end - start < 7 * Day
            && Weekday(start / Day) == Monday)
      && (DaysBack(now) == 0 <==> WeekdayOf(now) == Monday)
  {
    var (start, end) := GetPeriodBounds(period, now);
    var t := Today(now);
    var back := DaysBack(now);
    if period == PeriodWeekly {
      assert start == (t - back) * Day;
      assert start / Day == t - back;
      MondayBack(t, back);
    } else {
      assert start == t * Day;
    }
  }

  lemma MondayBack(t: int, back: int)
    requires back == (if Weekday(t) == 0 then 7 else Weekday(t)) - 1
    ensures Weekday(t - back) == Monday
  {
    var w := Weekday(t);
    assert (t + 1) % 7 == w;
    assert t + 1 == ((t + 1) / 7) * 7 + w;
    if w == 0 {
      assert t - back + 1 == ((t + 1) / 7 - 1) * 7 + 1;
    } else {
      assert t - back + 1 == ((t + 1) / 7) * 7 + 1;
    }
  }

  // ---------------------------------------------------------------------------
  // Counting activity entries
  // ---------------------------------------------------------------------------

  /** The entries `keep` accepts, in order. */
  function Keep(es: seq<ActivityEntry>, keep: ActivityEntry -> bool): (r: seq<ActivityEntry>)
    ensures |r| <= |es|
  {
    if es == [] then []
    else Keep(es[..|es| - 1], keep) + (if keep(es[|es| - 1]) then [es[|es| - 1]] else [])
  }

  function IsToolCall(): ActivityEntry -> bool {
    (a: ActivityEntry) => a.kind == ToolCall
  }

  function IsSuccessfulToolCall(): ActivityEntry -> bool {
    (a: ActivityEntry) => a.kind == ToolCall && a.success
  }

  function IsDelegation(): ActivityEntry -> bool {
    (a: ActivityEntry) => a.kind == Delegation
  }

  function RoleIs(role: string): ActivityEntry -> bool {
    (a: ActivityEntry) => a.agentRole == role
  }

  /** The roles the entries were logged under. */
  function RoleSet(es: seq<ActivityEntry>): set<string> {
    set a | a in es :: a.agentRole
  }

  /** A non-empty list is its front followed by its last entry. */
  lemma Split(es: seq<ActivityEntry>)
    requires es != []
    ensures es == es[..|es| - 1] + [es[|es| - 1]]
    ensures forall a :: a in es <==> a in es[..|es| - 1] || a == es[|es| - 1]
  {
  }

  /** `Keep` gives exactly the entries it accepts, in order, each as often as it occurs. */
  lemma {:induction false} KeepExactly(es: seq<ActivityEntry>, keep: ActivityEntry -> bool)
    ensures forall a :: a in Keep(es, keep) <==> a in es && keep(a)
    ensures forall a :: a in Keep(es, keep) ==> keep(a)
    decreases |es|
  {
    if es != [] {
      Split(es);
      KeepExactly(es[..|es| - 1], keep);
    }
  }

  // ---------------------------------------------------------------------------
  // generateTeamSummary
  // ---------------------------------------------------------------------------

  datatype TeamSummary = TeamSummary(activeMembers: int, totalToolCalls: int, totalDelegations: int,
                                     successRate: real, totalDuration: int)

  /** The variables of the loop of `generateTeamSummary`. */
  datatype TeamTally = TeamTally(roles: set<string>, toolCalls: nat, successes: nat, duration: int, delegations: nat)

  /** One pass of that loop. */
  function TeamStep(t: TeamTally, a: ActivityEntry): TeamTally {
    var t := t.(roles := t.roles + {a.agentRole});
    var t := if a.kind == ToolCall then
               t.(toolCalls := t.toolCalls + 1, successes := t.successes + (if a.success then 1 else 0),
                  duration := t.duration + a.durationMs)
             else t;
    if a.kind == Delegation then t.(delegations := t.delegations + 1) else t
  }

  function TeamTallyOf(es: seq<ActivityEntry>): TeamTally {
    if es == [] then TeamTally({}, 0, 0, 0, 0) else TeamStep(TeamTallyOf(es[..|es| - 1]), es[|es| - 1])
  }

  /** The summary `generateTeamSummary` builds from the loop's result. */
  function TeamSummaryOf(es: seq<ActivityEntry>): TeamSummary {
    var t := TeamTallyOf(es);
    TeamSummary(|t.roles|, t.toolCalls, t.delegations,
                if t.toolCalls > 0 then t.successes as real / t.toolCalls as real * 100.0 else 0.0,
                t.duration)
  }

  /** The total duration of the tool calls, in milliseconds. */
  function ToolDuration(es: seq<ActivityEntry>): int {
    if es == [] then 0
    else ToolDuration(es[..|es| - 1]) + (if es[|es| - 1].kind == ToolCall then es[|es| - 1].durationMs else 0)
  }

  method GenerateTeamSummary(activities: seq<ActivityEntry>) returns (summary: TeamSummary)
    ensures summary == TeamSummaryOf(activities)
  {
    var roles: set<string> := {};
    var toolCalls, successCount, totalDuration, delegations := 0, 0, 0, 0;
    for i := 0 to |activities|
      invariant TeamTally(roles, toolCalls, successCount, totalDuration, delegations) == TeamTallyOf(activities[..i])
    {
      var a := activities[i];
      assert activities[..i + 1][..i] == activities[..i];
      roles := roles + {a.agentRole};
      if a.kind == ToolCall {
        toolCalls := toolCalls + 1;
        if a.success {
          successCount := successCount + 1;
        }
        totalDuration := totalDuration + a.durationMs;
      }
      if a.kind == Delegation {
        delegations := delegations + 1;
      }
    }
    assert activities[..|activities|] == activities;
    summary := TeamSummary(|roles|, toolCalls, delegations, 0.0, totalDuration);
    if toolCalls > 0 {
      summary := summary.(successRate := successCount as real / toolCalls as real * 100.0);
    }
  }

  /** What the loop of `generateTeamSummary` counts. */
  lemma TeamTallyCounts(es: seq<ActivityEntry>)
    ensures var t := TeamTallyOf(es);
      && t.roles == RoleSet(es)
      && t.toolCalls == |Keep(es, IsToolCall())|
      && t.successes == |Keep(es, IsSuccessfulToolCall())|
      && t.delegations == |Keep(es, IsDelegation())|
      && t.duration == ToolDuration(es)
      && t.successes <= t.toolCalls && t.toolCalls + t.delegations <= |es|
  {
    TallyRoles(es);
    TallyCalls(es);
    TallyDelegations(es);
  }

  lemma {:induction false} TallyRoles(es: seq<ActivityEntry>)
    ensures TeamTallyOf(es).roles == RoleSet(es)
    decreases |es|
  {
    if es != [] {
      Split(es);
      TallyRoles(es[..|es| - 1]);
    }
  }

  lemma {:induction false} TallyCalls(es: seq<ActivityEntry>)
    ensures var t := TeamTallyOf(es);
      && t.toolCalls == |Keep(es, IsToolCall())|
      && t.successes == |Keep(es, IsSuccessfulToolCall())|
      && t.duration == ToolDuration(es)
      && t.successes <= t.toolCalls
    decreases |es|
  {
    if es != [] {
      TallyCalls(es[..|es| - 1]);
    }
  }

  lemma {:induction false} TallyDelegations(es: seq<ActivityEntry>)
    ensures var t := TeamTallyOf(es);
      && t.delegations == |Keep(es, IsDelegation())|
      && t.toolCalls + t.delegations <= |es|
    decreases |es|
  {
    if es != [] {
      TallyDelegations(es[..|es| - 1]);
    }
  }

  /**
   * The active members are the distinct roles that logged anything, the
   * tool calls and delegations are counted by kind, the duration is that of
   * the tool calls alone, and the success rate is a percentage: 0 when
   * there was no tool call.
   */
  lemma TeamSummaryCounts(es: seq<ActivityEntry>)
    ensures var s := TeamSummaryOf(es);
      && s.activeMembers == |RoleSet(es)|
      && s.totalToolCalls == |Keep(es, IsToolCall())|
      && s.totalDelegations == |Keep(es, IsDelegation())|
      && s.totalDuration == ToolDuration(es)
      && 0.0 <= s.successRate <= 100.0
      && (s.totalToolCalls == 0 ==> s.successRate == 0.0)
      && (s.activeMembers == 0 <==> es == [])
  {
    TeamTallyCounts(es);
    var t := TeamTallyOf(es);
    if t.toolCalls > 0 {
      Percentage(t.successes, t.toolCalls);
    }
    if es != [] {
      assert es[0].agentRole in RoleSet(es);
    }
  }

  /** A part over a positive whole, in per cent. */
  lemma Percentage(part: nat, whole: nat)
    requires part <= whole && whole > 0
    ensures 0.0 <= part as real / whole as real * 100.0 <= 100.0
  {
    var q := part as real / whole as real;
    assert q * whole as real == part as real;
  }

  // ---------------------------------------------------------------------------
  // generateSingleMemberReport
  // ---------------------------------------------------------------------------

  datatype ToolUsage = ToolUsage(tool: string, count: int, avgDuration: int)

  datatype MemberReport = MemberReport(
    role: string,
    agentId: string,
    status: string,
    toolCalls: int,
    successfulCalls: int,
    failedCalls: int,
    delegations: int,
    tasksCompleted: int,
    tasksInProgress: int,
    topTools: seq<ToolUsage>,
    recentActivity: seq<ActivityEntry>,
    blockers: seq<string>)

  /** `a.Data[key].(string)`: the value under the key when it is a string. */
  function DataString(a: ActivityEntry, key: string): Option<string> {
    if key in a.data && a.data[key].JStr? then Some(a.data[key].s) else None
  }

  /** The report and the tool counts the loop of `generateSingleMemberReport` fills. */
  datatype MemberTally = MemberTally(report: MemberReport, toolCounts: map<string, int>)

  /** One pass of that loop: a switch on the entry's kind. */
  function MemberStep(t: MemberTally, a: ActivityEntry): MemberTally {
    var r := if t.report.agentId == "" then t.report.(agentId := a.agentId) else t.report;
    if a.kind == ToolCall then
      var r := r.(toolCalls := r.toolCalls + 1);
      var r := if a.success then r.(successfulCalls := r.successfulCalls + 1) else r.(failedCalls := r.failedCalls + 1);
      match DataString(a, "tool")
      case Some(tool) => MemberTally(r, Tally.Bump(t.toolCounts, tool))
      case None => MemberTally(r, t.toolCounts)
    else if a.kind == Delegation then MemberTally(r.(delegations := r.delegations + 1), t.toolCounts)
    else if a.kind == TaskUpdate then
      match DataString(a, "new_status")
      case Some(st) =>
        if st == "completed" then MemberTally(r.(tasksCompleted := r.tasksCompleted + 1), t.toolCounts)
        else if st == "in_progress" then MemberTally(r.(tasksInProgress := r.tasksInProgress + 1), t.toolCounts)
        else MemberTally(r, t.toolCounts)
      case None => MemberTally(r, t.toolCounts)
    else if a.kind == ErrorKind && a.error != "" then MemberTally(r.(blockers := r.blockers + [a.error]), t.toolCounts)
    else MemberTally(r, t.toolCounts)
  }

  function MemberTallyOf(role: string, es: seq<ActivityEntry>): MemberTally {
    if es == [] then MemberTally(MemberReport(role, "", "active", 0, 0, 0, 0, 0, 0, [], [], []), map[])
    else MemberStep(MemberTallyOf(role, es[..|es| - 1]), es[|es| - 1])
  }

  /** The loop leaves the role and the initial status alone. */
  lemma {:induction false} MemberTallyFixed(role: string, es: seq<ActivityEntry>)
    ensures MemberTallyOf(role, es).report.role == role
    ensures MemberTallyOf(role, es).report.status == "active"
    decreases |es|
  {
    if es != [] {
      MemberTallyFixed(role, es[..|es| - 1]);
      MemberStepKeeps(MemberTallyOf(role, es[..|es| - 1]), es[|es| - 1]);
    }
  }

  lemma MemberStepKeeps(t: MemberTally, a: ActivityEntry)
    ensures MemberStep(t, a).report.role == t.report.role
    ensures MemberStep(t, a).report.status == t.report.status
  {
  }

  function IsFailedToolCall(): ActivityEntry -> bool {
    (a: ActivityEntry) => a.kind == ToolCall && !a.success
  }

  /** A task update that moved its task to `status`. */
  function NewStatusIs(status: string): ActivityEntry -> bool {
    (a: ActivityEntry) => a.kind == TaskUpdate && DataString(a, "new_status") == Some(status)
  }

  /** The names of the tools the tool-call entries name, in order. */
  function ToolNames(es: seq<ActivityEntry>): seq<string> {
    if es == [] then []
    else
      var a := es[|es| - 1];
      ToolNames(es[..|es| - 1]) + (if a.kind == ToolCall && DataString(a, "tool").Some? then [DataString(a, "tool").value] else [])
  }

  /** The non-empty messages of the error entries, in order. */
  function ErrorTexts(es: seq<ActivityEntry>): seq<string> {
    if es == [] then []
    else
      var a := es[|es| - 1];
      ErrorTexts(es[..|es| - 1]) + (if a.kind == ErrorKind && a.error != "" then [a.error] else [])
  }

  function Count(keep: ActivityEntry -> bool, a: ActivityEntry): nat {
    if keep(a) then 1 else 0
  }

  /** What one pass of the loop adds to each counter. */
  lemma MemberStepCounts(t: MemberTally, a: ActivityEntry)
    ensures var r := MemberStep(t, a).report;
      && r.toolCalls == t.report.toolCalls + Count(IsToolCall(), a)
      && r.successfulCalls == t.report.successfulCalls + Count(IsSuccessfulToolCall(), a)
      && r.failedCalls == t.report.failedCalls + Count(IsFailedToolCall(), a)
      && r.delegations == t.report.delegations + Count(IsDelegation(), a)
      && r.tasksCompleted == t.report.tasksCompleted + Count(NewStatusIs("completed"), a)
      && r.tasksInProgress == t.report.tasksInProgress + Count(NewStatusIs("in_progress"), a)
  {
  }

  /** The loop's counters count the entries of each kind. */
  lemma {:induction false} MemberTallyCounts(role: string, es: seq<ActivityEntry>)
    ensures var r := MemberTallyOf(role, es).report;
      && r.toolCalls == |Keep(es, IsToolCall())|
      && r.successfulCalls == |Keep(es, IsSuccessfulToolCall())|
      && r.failedCalls == |Keep(es, IsFailedToolCall())|
      && r.toolCalls == r.successfulCalls + r.failedCalls
      && r.delegations == |Keep(es, IsDelegation())|
      && r.tasksCompleted == |Keep(es, NewStatusIs("completed"))|
      && r.tasksInProgress == |Keep(es, NewStatusIs("in_progress"))|
    decreases |es|
  {
    if es != [] {
      var init, a := es[..|es| - 1], es[|es| - 1];
      MemberTallyCounts(role, init);
      MemberStepCounts(MemberTallyOf(role, init), a);
      assert Count(IsToolCall(), a) == Count(IsSuccessfulToolCall(), a) + Count(IsFailedToolCall(), a);
      forall keep: ActivityEntry -> bool
        ensures |Keep(es, keep)| == |Keep(init, keep)| + Count(keep, a)
      {
      }
    }
  }

  /** What one pass of the loop does to the blockers, the tool counts and the agent identifier. */
  lemma MemberStepCollects(t: MemberTally, a: ActivityEntry)
    ensures var n := MemberStep(t, a);
      && n.report.blockers == t.report.blockers + (if a.kind == ErrorKind && a.error != "" then [a.error] else [])
      && n.toolCounts == (if a.kind == ToolCall && DataString(a, "tool").Some?
                          then Tally.Bump(t.toolCounts, DataString(a, "tool").value) else t.toolCounts)
      && n.report.agentId == (if t.report.agentId == "" then a.agentId else t.report.agentId)
  {
  }

  /** The loop keeps the error messages in order and counts each tool name as often as it occurs. */
  lemma {:induction false} MemberTallyCollects(role: string, es: seq<ActivityEntry>)
    ensures MemberTallyOf(role, es).report.blockers == ErrorTexts(es)
    ensures MemberTallyOf(role, es).toolCounts == Tally.Counts(ToolNames(es))
    decreases |es|
  {
    if es != [] {
      var init, a := es[..|es| - 1], es[|es| - 1];
      MemberTallyCollects(role, init);
      MemberStepCollects(MemberTallyOf(role, init), a);
      if a.kind == ToolCall && DataString(a, "tool").Some? {
        var tool := DataString(a, "tool").value;
        assert ToolNames(es) == ToolNames(init) + [tool];
        Tally.CountsSnoc(ToolNames(init), tool);
      } else {
        assert ToolNames(es) == ToolNames(init);
      }
    }
  }

  /** The agent identifier is the first non-empty one, or "" when every entry has none. */
  lemma {:induction false} MemberTallyAgent(role: string, es: seq<ActivityEntry>)
    ensures var id := MemberTallyOf(role, es).report.agentId;
      && (id == "" <==> forall k :: 0 <= k < |es| ==> es[k].agentId == "")
      && (id != "" ==> exists k :: 0 <= k < |es| && es[k].agentId == id &&
                          forall j :: 0 <= j < k ==> es[j].agentId == "")
    decreases |es|
  {
    if es != [] {
      var init, a := es[..|es| - 1], es[|es| - 1];
      MemberTallyAgent(role, init);
      var id0 := MemberTallyOf(role, init).report.agentId;
      MemberStepCollects(MemberTallyOf(role, init), a);
      assert forall k :: 0 <= k < |init| ==> es[k] == init[k];
      if id0 != "" {
        var k :| 0 <= k < |init| && init[k].agentId == id0 && forall j :: 0 <= j < k ==> init[j].agentId == "";
        assert es[k].agentId == id0;
      }
    }
  }

  /** There are error messages exactly when some error entry has a message. */
  lemma {:induction false} ErrorTextsPresent(es: seq<ActivityEntry>)
    ensures ErrorTexts(es) != [] <==> exists a :: a in es && a.kind == ErrorKind && a.error != ""
    decreases |es|
  {
    if es != [] {
      Split(es);
      ErrorTextsPresent(es[..|es| - 1]);
    }
  }

  /**
   * A member report: the tool calls split into successes and failures; the
   * member is "blocked" exactly when an error entry carries a message and
   * "idle" exactly when there was no activity; the top tools are at most
   * five tools the member called, each with the number of calls naming it;
   * the recent activity is the first five entries.
   */
  lemma MemberReportMeans(role: string, es: seq<ActivityEntry>, r: MemberReport)
    requires MemberReportFor(role, es, r)
    ensures r.role == role
    ensures r.toolCalls == r.successfulCalls + r.failedCalls == |Keep(es, IsToolCall())|
    ensures r.status == "blocked" <==> exists a :: a in es && a.kind == ErrorKind && a.error != ""
    ensures r.status == "idle" <==> es == []
    ensures |r.topTools| <= 5
    ensures forall u :: u in r.topTools ==> u.tool in ToolNames(es) && u.count == multiset(ToolNames(es))[u.tool]
    ensures |r.recentActivity| <= 5 && r.recentActivity <= es
  {
    MemberTallyFixed(role, es);
    MemberTallyCounts(role, es);
    MemberTallyCollects(role, es);
    ErrorTextsPresent(es);
    Tally.CountsOccurrences(ToolNames(es));
    if es != [] {
      assert es[0] in es;
    }
  }

  /** `sort.Slice`'s order for the top tools: the most used first. */
  function ByCount(): (ToolUsage, ToolUsage) -> bool {
    (x: ToolUsage, y: ToolUsage) => x.count >= y.count
  }

  /**
   * The tools `generateSingleMemberReport` reports: the five most used, or
   * all when there are fewer, each once with its count, the most used first.
   */
  predicate TopToolsOf(counts: map<string, int>, top: seq<ToolUsage>) {
    && |top| == (if |counts| < 5 then |counts| else 5)
    && Sorting.SortedBy(top, ByCount())
    && (forall u :: u in top ==> u.tool in counts && u == ToolUsage(u.tool, counts[u.tool], 0))
    && (forall i, j :: 0 <= i < j < |top| ==> top[i].tool != top[j].tool)
    && (forall k :: k in counts && (forall u :: u in top ==> u.tool != k) ==>
          forall u :: u in top ==> u.count >= counts[k])
  }

  /** The status of a member: "blocked" with a blocker, "idle" without activity, else "active". */
  function StatusOf(blockers: seq<string>, es: seq<ActivityEntry>): string {
    if |blockers| > 0 then "blocked" else if |es| == 0 then "idle" else "active"
  }

  /** The first five entries, or all of them. */
  function Recent(es: seq<ActivityEntry>): seq<ActivityEntry> {
    if |es| > 5 then es[..5] else es
  }

  /** The report `generateSingleMemberReport` gives for the role's entries. */
  predicate MemberReportFor(role: string, es: seq<ActivityEntry>, r: MemberReport) {
    var t := MemberTallyOf(role, es);
    && r == t.report.(topTools := r.topTools, recentActivity := Recent(es), status := StatusOf(t.report.blockers, es))
    && TopToolsOf(t.toolCounts, r.topTools)
  }

  method GenerateSingleMemberReport(role: string, activities: seq<ActivityEntry>) returns (report: MemberReport)
    ensures report.role == role
    ensures MemberReportFor(role, activities, report)
  {
    MemberTallyFixed(role, activities);
    report := MemberReport(role, "", "active", 0, 0, 0, 0, 0, 0, [], [], []);
    var toolCounts: map<string, int> := map[];
    for i := 0 to |activities|
      invariant MemberTally(report, toolCounts) == MemberTallyOf(role, activities[..i])
    {
      var a := activities[i];
      assert activities[..i + 1][..i] == activities[..i];
      ghost var next := MemberStep(MemberTally(report, toolCounts), a);
      report, toolCounts := CountEntry(report, toolCounts, a);
      assert MemberTally(report, toolCounts) == next;
    }
    assert activities[..|activities|] == activities;
    var usages := CollectUsages(toolCounts);
    var top := TopTools(toolCounts, usages);
    report := report.(topTools := top);
    if |activities| > 5 {
      report := report.(recentActivity := activities[..5]);
    } else {
      report := report.(recentActivity := activities);
    }
    if |report.blockers| > 0 {
      report := report.(status := "blocked");
    } else if |activities| == 0 {
      report := report.(status := "idle");
    }
  }

  /** The body of the loop of `generateSingleMemberReport`. */
  method CountEntry(report: MemberReport, toolCounts: map<string, int>, a: ActivityEntry)
    returns (r: MemberReport, counts: map<string, int>)
    ensures MemberTally(r, counts) == MemberStep(MemberTally(report, toolCounts), a)
  {
    r, counts := report, toolCounts;
    if r.agentId == "" {
      r := r.(agentId := a.agentId);
    }
    if a.kind == ToolCall {
      r := r.(toolCalls := r.toolCalls + 1);
      if a.success {
        r := r.(successfulCalls := r.successfulCalls + 1);
      } else {
        r := r.(failedCalls := r.failedCalls + 1);
      }
      var tool := DataString(a, "tool");
      if tool.Some? {
        counts := Tally.Bump(counts, tool.value);
      }
    } else if a.kind == Delegation {
      r := r.(delegations := r.delegations + 1);
    } else if a.kind == TaskUpdate {
      var newStatus := DataString(a, "new_status");
      if newStatus.Some? {
        if newStatus.value == "completed" {
          r := r.(tasksCompleted := r.tasksCompleted + 1);
        } else if newStatus.value == "in_progress" {
          r := r.(tasksInProgress := r.tasksInProgress + 1);
        }
      }
    } else if a.kind == ErrorKind {
      if a.error != "" {
        r := r.(blockers := r.blockers + [a.error]);
      }
    }
  }

  /** The loop over the tool-count map, in whatever order the map yields its keys. */
  method CollectUsages(counts: map<string, int>) returns (us: seq<ToolUsage>)
    ensures |us| == |counts|
    ensures forall u :: u in us ==> u.tool in counts && u == ToolUsage(u.tool, counts[u.tool], 0)
    ensures forall k :: k in counts ==> ToolUsage(k, counts[k], 0) in us
    ensures forall i, j :: 0 <= i < j < |us| ==> us[i].tool != us[j].tool
  {
    us := [];
    var left := counts.Keys;
    ghost var done: set<string> := {};
    while left != {}
      invariant left !! done && left + done == counts.Keys
      invariant forall u :: u in us ==> u.tool in done && u == ToolUsage(u.tool, counts[u.tool], 0)
      invariant forall k :: k in done ==> ToolUsage(k, counts[k], 0) in us
      invariant forall i, j :: 0 <= i < j < |us| ==> us[i].tool != us[j].tool
      invariant |us| == |done|
      decreases left
    {
      var k :| k in left;
      var u := ToolUsage(k, counts[k], 0);
      Collected(us, done, u);
      us := us + [u];
      done := done + {k};
      left := left - {k};
    }
  }

  /** A usage of a tool not collected yet extends the collected usages. */
  lemma Collected(us: seq<ToolUsage>, done: set<string>, u: ToolUsage)
    requires forall v :: v in us ==> v.tool in done
    requires forall i, j :: 0 <= i < j < |us| ==> us[i].tool != us[j].tool
    requires |us| == |done| && u.tool !in done
    ensures forall i, j :: 0 <= i < j < |us + [u]| ==> (us + [u])[i].tool != (us + [u])[j].tool
    ensures |us + [u]| == |done + {u.tool}|
  {
    forall i, j | 0 <= i < j < |us + [u]|
      ensures (us + [u])[i].tool != (us + [u])[j].tool
    {
      if j == |us| {
        assert us[i] in us;
      }
    }
  }

  lemma ByCountOrders()
    ensures Sorting.TotalPreorder(ByCount())
  {
  }

  /** Sorting the usages by count, in place, and keeping the first five. */
  method TopTools(counts: map<string, int>, usages: seq<ToolUsage>) returns (top: seq<ToolUsage>)
    requires |usages| == |counts|
    requires forall u :: u in usages ==> u.tool in counts && u == ToolUsage(u.tool, counts[u.tool], 0)
    requires forall k :: k in counts ==> ToolUsage(k, counts[k], 0) in usages
    requires forall i, j :: 0 <= i < j < |usages| ==> usages[i].tool != usages[j].tool
    ensures TopToolsOf(counts, top)
  {
    var a := new ToolUsage[|usages|](i requires 0 <= i < |usages| => usages[i]);
    assert a[..] == usages;
    ByCountOrders();
    Sorting.SortSlice(a, ByCount());
    var sorted := a[..];
    top := if |sorted| > 5 then sorted[..5] else sorted;
    SortedTools(counts, usages, sorted, top);
  }

  lemma SortedTools(counts: map<string, int>, usages: seq<ToolUsage>, sorted: seq<ToolUsage>, top: seq<ToolUsage>)
    requires |usages| == |counts|
    requires forall u :: u in usages ==> u.tool in counts && u == ToolUsage(u.tool, counts[u.tool], 0)
    requires forall k :: k in counts ==> ToolUsage(k, counts[k], 0) in usages
    requires forall i, j :: 0 <= i < j < |usages| ==> usages[i].tool != usages[j].tool
    requires multiset(sorted) == multiset(usages) && Sorting.SortedBy(sorted, ByCount())
    requires top == if |sorted| > 5 then sorted[..5] else sorted
    ensures TopToolsOf(counts, top)
  {
    Sorting.SamePermutation(sorted, usages);
    SortedToolsDistinct(counts, usages, sorted);
    var n := |top|;
    assert top == sorted[..n];
    Sorting.SortedPrefix(sorted, n, ByCount());
    LeftOutCountLess(counts, sorted, n);
  }

  /** Sorting keeps each tool once. */
  lemma SortedToolsDistinct(counts: map<string, int>, usages: seq<ToolUsage>, sorted: seq<ToolUsage>)
    requires forall u :: u in usages ==> u.tool in counts && u == ToolUsage(u.tool, counts[u.tool], 0)
    requires forall i, j :: 0 <= i < j < |usages| ==> usages[i].tool != usages[j].tool
    requires multiset(sorted) == multiset(usages)
    requires forall u :: u in sorted <==> u in usages
    ensures forall i, j :: 0 <= i < j < |sorted| ==> sorted[i].tool != sorted[j].tool
  {
    Sorting.DistinctElements(usages);
    Sorting.DistinctElements(sorted);
    forall i, j | 0 <= i < j < |sorted|
      ensures sorted[i].tool != sorted[j].tool
    {
      assert sorted[i] in usages && sorted[j] in usages;
    }
  }

  /** A tool cut off from the sorted prefix was used no more than any tool kept. */
  lemma LeftOutCountLess(counts: map<string, int>, sorted: seq<ToolUsage>, n: nat)
    requires Sorting.SortedBy(sorted, ByCount()) && n <= |sorted|
    requires forall k :: k in counts ==> ToolUsage(k, counts[k], 0) in sorted
    ensures forall k :: k in counts && (forall u :: u in sorted[..n] ==> u.tool != k) ==>
              forall u :: u in sorted[..n] ==> u.count >= counts[k]
  {
    Sorting.PrefixFirst(sorted, n, ByCount());
    forall k | k in counts && (forall u :: u in sorted[..n] ==> u.tool != k)
      ensures forall u :: u in sorted[..n] ==> u.count >= counts[k]
    {
      var w := ToolUsage(k, counts[k], 0);
      var m :| 0 <= m < |sorted| && sorted[m] == w;
      assert m >= n;
      assert sorted[n..][m - n] == w;
    }
  }

  // ---------------------------------------------------------------------------
  // generateMemberReports
  // ---------------------------------------------------------------------------

  /** The map `generateMemberReports` builds: each role's entries, in order. */
  function Grouped(es: seq<ActivityEntry>): map<string, seq<ActivityEntry>> {
    if es == [] then map[]
    else
      var g := Grouped(es[..|es| - 1]);
      var a := es[|es| - 1];
      g[a.agentRole := (if a.agentRole in g then g[a.agentRole] else []) + [a]]
  }

  /** Every role that logged anything has a group, and its group is its entries. */
  lemma {:induction false} GroupedByRole(es: seq<ActivityEntry>)
    ensures forall role :: role in Grouped(es) <==> role in RoleSet(es)
    ensures forall role :: role in Grouped(es) ==> Grouped(es)[role] == Keep(es, RoleIs(role))
    decreases |es|
  {
    if es != [] {
      var init, a := es[..|es| - 1], es[|es| - 1];
      Split(es);
      GroupedByRole(init);
      if a.agentRole !in Grouped(init) {
        KeepExactly(init, RoleIs(a.agentRole));
        NothingKept(Keep(init, RoleIs(a.agentRole)));
      }
    }
  }

  lemma NothingKept(es: seq<ActivityEntry>)
    ensures (forall a :: a !in es) ==> es == []
  {
    if es != [] {
      assert es[0] in es;
    }
  }

  /** Go's `reports[i].Role < reports[j].Role`, as the order `sort.Slice` produces. */
  function ByRole(): (MemberReport, MemberReport) -> bool {
    (x: MemberReport, y: MemberReport) => !Less(y.role, x.role)
  }

  lemma ByRoleOrders()
    ensures Sorting.TotalPreorder(ByRole())
  {
    forall x: MemberReport, y: MemberReport
      ensures ByRole()(x, y) || ByRole()(y, x)
    {
      LessTotal(x.role, y.role);
    }
    forall x: MemberReport, y: MemberReport, z: MemberReport | ByRole()(x, y) && ByRole()(y, z)
      ensures ByRole()(x, z)
    {
      LessTotal(x.role, y.role);
      if Less(z.role, x.role) {
        if Less(x.role, y.role) {
          LessTransitive(z.role, x.role, y.role);
        }
      }
    }
  }

  function Roles(rs: seq<MemberReport>): set<string> {
    set r | r in rs :: r.role
  }

  /** Each report is the report of its role's group. */
  predicate ReportsFor(groups: map<string, seq<ActivityEntry>>, rs: seq<MemberReport>) {
    forall r :: r in rs ==> r.role in groups && MemberReportFor(r.role, groups[r.role], r)
  }

  lemma ReportsForAppend(groups: map<string, seq<ActivityEntry>>, rs: seq<MemberReport>, r: MemberReport)
    requires ReportsFor(groups, rs) && r.role in groups && MemberReportFor(r.role, groups[r.role], r)
    ensures ReportsFor(groups, rs + [r])
  {
  }

  /** The reports made so far cover the roles not left, one report each. */
  predicate RolesLeft(keys: set<string>, rs: seq<MemberReport>, left: set<string>) {
    Roles(rs) !! left && Roles(rs) + left == keys && |rs| + |left| == |keys|
  }

  lemma RolesLeftStep(keys: set<string>, rs: seq<MemberReport>, left: set<string>, r: MemberReport)
    requires RolesLeft(keys, rs, left) && r.role in left
    ensures RolesLeft(keys, rs + [r], left - {r.role})
  {
    RolesAppend(rs, r);
    assert |left - {r.role}| == |left| - 1;
  }

  lemma RolesAppend(rs: seq<MemberReport>, r: MemberReport)
    ensures Roles(rs + [r]) == Roles(rs) + {r.role}
  {
  }

  /**
   * The reports of `generateMemberReports`: one per role that logged
   * anything, in strictly ascending order of role, each the report of the
   * role's own entries.
   */
  predicate MemberReportsOf(activities: seq<ActivityEntry>, reports: seq<MemberReport>) {
    && |reports| == |RoleSet(activities)|
    && Roles(reports) == RoleSet(activities)
    && (forall i, j :: 0 <= i < j < |reports| ==> Less(reports[i].role, reports[j].role))
    && (forall r :: r in reports ==> MemberReportFor(r.role, Keep(activities, RoleIs(r.role)), r))
  }

  method GenerateMemberReports(activities: seq<ActivityEntry>) returns (reports: seq<MemberReport>)
    ensures MemberReportsOf(activities, reports)
  {
    var byRole := GroupByRole(activities);
    var list := ReportEach(byRole);
    var arr := new MemberReport[|list|](i requires 0 <= i < |list| => list[i]);
    assert arr[..] == list;
    ByRoleOrders();
    Sorting.SortSlice(arr, ByRole());
    reports := arr[..];
    GroupedReports(activities, list, reports);
  }

  /** The first loop of `generateMemberReports`. */
  method GroupByRole(activities: seq<ActivityEntry>) returns (byRole: map<string, seq<ActivityEntry>>)
    ensures byRole == Grouped(activities)
  {
    byRole := map[];
    for i := 0 to |activities|
      invariant byRole == Grouped(activities[..i])
    {
      var a := activities[i];
      assert activities[..i + 1][..i] == activities[..i];
      var group := if a.agentRole in byRole then byRole[a.agentRole] else [];
      byRole := byRole[a.agentRole := group + [a]];
    }
    assert activities[..|activities|] == activities;
  }

  /** The second loop: one report per group, in whatever order the map yields its keys. */
  method ReportEach(byRole: map<string, seq<ActivityEntry>>) returns (list: seq<MemberReport>)
    ensures Roles(list) == byRole.Keys && |list| == |byRole.Keys|
    ensures ReportsFor(byRole, list)
  {
    list := [];
    var left := byRole.Keys;
    while left != {}
      invariant RolesLeft(byRole.Keys, list, left)
      invariant ReportsFor(byRole, list)
      decreases left
    {
      var role :| role in left;
      var report := AddReport(byRole, list, role);
      RolesLeftStep(byRole.Keys, list, left, report);
      list, left := list + [report], left - {role};
    }
    assert Roles(list) == byRole.Keys;
  }

  /** The body of the second loop: the report of one more role. */
  method AddReport(byRole: map<string, seq<ActivityEntry>>, list: seq<MemberReport>, role: string)
    returns (report: MemberReport)
    requires role in byRole && ReportsFor(byRole, list)
    ensures report.role == role && ReportsFor(byRole, list + [report])
  {
    report := GenerateSingleMemberReport(role, byRole[role]);
    ReportsForAppend(byRole, list, report);
  }

  /** The sorted reports are those of the role groups of the entries. */
  lemma GroupedReports(activities: seq<ActivityEntry>, list: seq<MemberReport>, reports: seq<MemberReport>)
    requires var byRole := Grouped(activities); Roles(list) == byRole.Keys && |list| == |byRole.Keys| && ReportsFor(byRole, list)
    requires multiset(reports) == multiset(list) && Sorting.SortedBy(reports, ByRole())
    ensures MemberReportsOf(activities, reports)
  {
    SortedReports(list, reports);
    GroupedByRole(activities);
    assert Grouped(activities).Keys == RoleSet(activities);
    GroupReportsKept(activities, list, reports);
  }

  /** Reports drawn from a list of group reports are the reports of their roles' own entries. */
  lemma GroupReportsKept(activities: seq<ActivityEntry>, list: seq<MemberReport>, reports: seq<MemberReport>)
    requires ReportsFor(Grouped(activities), list)
    requires forall r :: r in reports <==> r in list
    ensures forall r :: r in reports ==> MemberReportFor(r.role, Keep(activities, RoleIs(r.role)), r)
  {
    GroupedByRole(activities);
    forall r | r in reports
      ensures MemberReportFor(r.role, Keep(activities, RoleIs(r.role)), r)
    {
      assert r in list;
      assert Grouped(activities)[r.role] == Keep(activities, RoleIs(r.role));
    }
  }

  /** Sorting a report list with one report per role orders the roles strictly. */
  lemma SortedReports(list: seq<MemberReport>, sorted: seq<MemberReport>)
    requires |Roles(list)| == |list|
    requires multiset(sorted) == multiset(list) && Sorting.SortedBy(sorted, ByRole())
    ensures |sorted| == |list| && Roles(sorted) == Roles(list)
    ensures forall r :: r in sorted <==> r in list
    ensures forall i, j :: 0 <= i < j < |sorted| ==> Less(sorted[i].role, sorted[j].role)
  {
    assert |sorted| == |list| by {
      assert |multiset(sorted)| == |multiset(list)|;
    }
    forall r ensures r in sorted <==> r in list {
      assert r in sorted <==> r in multiset(sorted);
      assert r in list <==> r in multiset(list);
    }
    assert Roles(sorted) == Roles(list);
    RolesDistinct(sorted);
    forall i, j | 0 <= i < j < |sorted|
      ensures Less(sorted[i].role, sorted[j].role)
    {
      LessTotal(sorted[i].role, sorted[j].role);
    }
  }

  /** A list with as many roles as reports has no role twice. */
  lemma {:induction false} RolesDistinct(rs: seq<MemberReport>)
    requires |Roles(rs)| == |rs|
    ensures forall i, j :: 0 <= i < j < |rs| ==> rs[i].role != rs[j].role
    decreases |rs|
  {
    if rs != [] {
      var init, last := rs[..|rs| - 1], rs[|rs| - 1];
      assert rs == init + [last];
      assert Roles(rs) == Roles(init) + {last.role};
      RolesAtMost(init);
      assert last.role !in Roles(init) && |Roles(init)| == |init|;
      RolesDistinct(init);
      forall i, j | 0 <= i < j < |rs|
        ensures rs[i].role != rs[j].role
      {
        if j == |rs| - 1 {
          assert rs[i] in init;
        } else {
          assert rs[i] == init[i] && rs[j] == init[j];
        }
      }
    }
  }

  lemma {:induction false} RolesAtMost(rs: seq<MemberReport>)
    ensures |Roles(rs)| <= |rs|
    decreases |rs|
  {
    if rs != [] {
      var init := rs[..|rs| - 1];
      assert rs == init + [rs[|rs| - 1]];
      assert Roles(rs) == Roles(init) + {rs[|rs| - 1].role};
      RolesAtMost(init);
    }
  }

  // ---------------------------------------------------------------------------
  // generateTaskSummary
  // ---------------------------------------------------------------------------

  datatype TaskSummary = TaskSummary(
    totalTasks: int,
    completed: int,
    inProgress: int,
    pending: int,
    blocked: int,
    completedToday: int,
    completedPeriod: int,
    byAssignee: map<string, int>)

  /** One pass of the loop of `generateTaskSummary`: a switch on the status, then the assignee. */
  function TaskStep(s: TaskSummary, t: TS.Task, periodStart: int, today: int): TaskSummary {
    var s :=
      if t.status == "completed" then
        s.(completed := s.completed + 1,
           completedPeriod := s.completedPeriod + (if t.updatedAt > periodStart then 1 else 0),
           completedToday := s.completedToday + (if t.updatedAt > today then 1 else 0))
      else if t.status == "in_progress" then s.(inProgress := s.inProgress + 1)
      else if t.status == "pending" then s.(pending := s.pending + 1)
      else if t.status == "blocked" then s.(blocked := s.blocked + 1)
      else s;
    if t.assignedTo != "" then s.(byAssignee := Tally.Bump(s.byAssignee, t.assignedTo)) else s
  }

  /** The loop over `ts`, starting from a summary that records `total` tasks. */
  function TaskCounts(total: int, ts: seq<TS.Task>, periodStart: int, today: int): TaskSummary {
    if ts == [] then TaskSummary(total, 0, 0, 0, 0, 0, 0, map[])
    else TaskStep(TaskCounts(total, ts[..|ts| - 1], periodStart, today), ts[|ts| - 1], periodStart, today)
  }

  function TaskSummaryOf(ts: seq<TS.Task>, periodStart: int, today: int): TaskSummary {
    TaskCounts(|ts|, ts, periodStart, today)
  }

  /** `time.Now().Truncate(24 * time.Hour)`: the last midnight, UTC. */
  function Truncated(now: Reading): int {
    Instant(now) / Day * Day
  }

  method GenerateTaskSummary(tasks: seq<TS.Task>, periodStart: int, now: Reading) returns (summary: TaskSummary)
    ensures summary == TaskSummaryOf(tasks, periodStart, Truncated(now))
  {
    summary := TaskSummary(|tasks|, 0, 0, 0, 0, 0, 0, map[]);
    var today := Instant(now) / Day * Day;
    for i := 0 to |tasks|
      invariant summary == TaskCounts(|tasks|, tasks[..i], periodStart, today)
    {
      var t := tasks[i];
      assert tasks[..i + 1][..i] == tasks[..i];
      if t.status == "completed" {
        summary := summary.(completed := summary.completed + 1);
        if t.updatedAt > periodStart {
          summary := summary.(completedPeriod := summary.completedPeriod + 1);
        }
        if t.updatedAt > today {
          summary := summary.(completedToday := summary.completedToday + 1);
        }
      } else if t.status == "in_progress" {
        summary := summary.(inProgress := summary.inProgress + 1);
      } else if t.status == "pending" {
        summary := summary.(pending := summary.pending + 1);
      } else if t.status == "blocked" {
        summary := summary.(blocked := summary.blocked + 1);
      }
      if t.assignedTo != "" {
        summary := summary.(byAssignee := Tally.Bump(summary.byAssignee, t.assignedTo));
      }
    }
    assert tasks[..|tasks|] == tasks;
  }

  /** A completed task last updated after `instant`. */
  function CompletedAfter(instant: int): TS.Task -> bool {
    (t: TS.Task) => t.status == "completed" && t.updatedAt > instant
  }

  function Tick(keep: TS.Task -> bool, t: TS.Task): nat {
    if keep(t) then 1 else 0
  }

  /** What one pass adds to each counter. */
  lemma TaskStepCounts(s: TaskSummary, t: TS.Task, periodStart: int, today: int)
    ensures var n := TaskStep(s, t, periodStart, today);
      && n.totalTasks == s.totalTasks
      && n.completed == s.completed + Tick(TS.StatusIs("completed"), t)
      && n.inProgress == s.inProgress + Tick(TS.StatusIs("in_progress"), t)
      && n.pending == s.pending + Tick(TS.StatusIs("pending"), t)
      && n.blocked == s.blocked + Tick(TS.StatusIs("blocked"), t)
      && n.completedPeriod == s.completedPeriod + Tick(CompletedAfter(periodStart), t)
      && n.completedToday == s.completedToday + Tick(CompletedAfter(today), t)
      && n.byAssignee == if t.assignedTo != "" then Tally.Bump(s.byAssignee, t.assignedTo) else s.byAssignee
  {
  }

  /**
   * The task summary: the total is the number of tasks, each status
   * counter counts the tasks with that status, the period and today counts
   * count the completed tasks updated after the period start and after
   * midnight, and the per-assignee counts count the assigned tasks.
   */
  lemma {:induction false} TaskSummaryCounts(ts: seq<TS.Task>, periodStart: int, today: int)
    ensures var s := TaskSummaryOf(ts, periodStart, today);
      && s.totalTasks == |ts|
      && s.completed == |TS.WithStatus(ts, "completed")|
      && s.inProgress == |TS.WithStatus(ts, "in_progress")|
      && s.pending == |TS.WithStatus(ts, "pending")|
      && s.blocked == |TS.WithStatus(ts, "blocked")|
      && s.completedPeriod == |TS.Where(ts, CompletedAfter(periodStart))|
      && s.completedToday == |TS.Where(ts, CompletedAfter(today))|
      && s.byAssignee == Tally.Counts(TS.Assignees(ts))
  {
    TaskCountsAre(|ts|, ts, periodStart, today);
  }

  lemma {:induction false} TaskCountsAre(total: int, ts: seq<TS.Task>, periodStart: int, today: int)
    ensures var s := TaskCounts(total, ts, periodStart, today);
      && s.totalTasks == total
      && s.completed == |TS.Where(ts, TS.StatusIs("completed"))|
      && s.inProgress == |TS.Where(ts, TS.StatusIs("in_progress"))|
      && s.pending == |TS.Where(ts, TS.StatusIs("pending"))|
      && s.blocked == |TS.Where(ts, TS.StatusIs("blocked"))|
      && s.completedPeriod == |TS.Where(ts, CompletedAfter(periodStart))|
      && s.completedToday == |TS.Where(ts, CompletedAfter(today))|
      && s.byAssignee == Tally.Counts(TS.Assignees(ts))
    decreases |ts|
  {
    if ts != [] {
      var init, t := ts[..|ts| - 1], ts[|ts| - 1];
      TaskCountsAre(total, init, periodStart, today);
      TaskStepCounts(TaskCounts(total, init, periodStart, today), t, periodStart, today);
      forall keep: TS.Task -> bool
        ensures |TS.Where(ts, keep)| == |TS.Where(init, keep)| + Tick(keep, t)
      {
      }
      if t.assignedTo != "" {
        assert TS.Assignees(ts) == TS.Assignees(init) + [t.assignedTo];
        Tally.CountsSnoc(TS.Assignees(init), t.assignedTo);
      } else {
        assert TS.Assignees(ts) == TS.Assignees(init);
      }
    }
  }

  /**
   * The counters are consistent: the completed tasks of the period, and
   * of today when the period starts no later than midnight, are among the
   * completed tasks, and no task is counted under two statuses.
   */
  lemma {:induction false} TaskSummaryBounds(ts: seq<TS.Task>, periodStart: int, today: int)
    ensures var s := TaskSummaryOf(ts, periodStart, today);
      && s.completedToday <= s.completed && s.completedPeriod <= s.completed
      && (periodStart <= today ==> s.completedToday <= s.completedPeriod)
      && s.completed + s.inProgress + s.pending + s.blocked <= s.totalTasks
  {
    TaskCountsBounded(|ts|, ts, periodStart, today);
  }

  lemma {:induction false} TaskCountsBounded(total: int, ts: seq<TS.Task>, periodStart: int, today: int)
    ensures var s := TaskCounts(total, ts, periodStart, today);
      && s.completedToday <= s.completed && s.completedPeriod <= s.completed
      && (periodStart <= today ==> s.completedToday <= s.completedPeriod)
      && s.completed + s.inProgress + s.pending + s.blocked <= |ts|
      && s.totalTasks == total
    decreases |ts|
  {
    if ts != [] {
      var init, t := ts[..|ts| - 1], ts[|ts| - 1];
      TaskCountsBounded(total, init, periodStart, today);
      TaskStepCounts(TaskCounts(total, init, periodStart, today), t, periodStart, today);
    }
  }

  // ---------------------------------------------------------------------------
  // extractHighlights
  // ---------------------------------------------------------------------------

  const TasksCompletedLine: string := " task(s) completed"
  const OperationsLine: string := " successful operations executed"
  const CommitsLine: string := " git commit(s) made"

  /** A tool call to `git_commit`. */
  function IsCommit(): ActivityEntry -> bool {
    (a: ActivityEntry) => a.kind == ToolCall && DataString(a, "tool") == Some("git_commit")
  }

  /** The highlights for the counts of completed tasks, successful tool calls and commits. */
  function HighlightsOf(completed: nat, successful: nat, commits: nat): seq<string> {
    (if completed > 0 then [Itoa(completed) + TasksCompletedLine] else [])
    + (if successful > 10 then [Itoa(successful) + OperationsLine] else [])
    + (if commits > 0 then [Itoa(commits) + CommitsLine] else [])
  }

  method ExtractHighlights(activities: seq<ActivityEntry>, tasks: seq<TS.Task>) returns (highlights: seq<string>)
    ensures highlights == HighlightsOf(|TS.WithStatus(tasks, "completed")|,
                                       |Keep(activities, IsSuccessfulToolCall())|,
                                       |Keep(activities, IsCommit())|)
  {
    highlights := [];
    var completedCount := CountCompleted(tasks);
    if completedCount > 0 {
      highlights := highlights + [Itoa(completedCount) + TasksCompletedLine];
    }
    var successfulOps := CountSuccessful(activities);
    if successfulOps > 10 {
      highlights := highlights + [Itoa(successfulOps) + OperationsLine];
    }
    var commitCount := CountCommits(activities);
    if commitCount > 0 {
      highlights := highlights + [Itoa(commitCount) + CommitsLine];
    }
  }

  /** The first loop of `extractHighlights`. */
  method CountCompleted(tasks: seq<TS.Task>) returns (completedCount: nat)
    ensures completedCount == |TS.WithStatus(tasks, "completed")|
  {
    completedCount := 0;
    for i := 0 to |tasks|
      invariant completedCount == |TS.Where(tasks[..i], TS.StatusIs("completed"))|
    {
      assert tasks[..i + 1][..i] == tasks[..i];
      if tasks[i].status == "completed" {
        completedCount := completedCount + 1;
      }
    }
    assert tasks[..|tasks|] == tasks;
  }

  /** The second loop of `extractHighlights`. */
  method CountSuccessful(activities: seq<ActivityEntry>) returns (successfulOps: nat)
    ensures successfulOps == |Keep(activities, IsSuccessfulToolCall())|
  {
    successfulOps := 0;
    for i := 0 to |activities|
      invariant successfulOps == |Keep(activities[..i], IsSuccessfulToolCall())|
    {
      assert activities[..i + 1][..i] == activities[..i];
      if activities[i].kind == ToolCall && activities[i].success {
        successfulOps := successfulOps + 1;
      }
    }
    assert activities[..|activities|] == activities;
  }

  /** The third loop of `extractHighlights`. */
  method CountCommits(activities: seq<ActivityEntry>) returns (commitCount: nat)
    ensures commitCount == |Keep(activities, IsCommit())|
  {
    commitCount := 0;
    for i := 0 to |activities|
      invariant commitCount == |Keep(activities[..i], IsCommit())|
    {
      assert activities[..i + 1][..i] == activities[..i];
      var a := activities[i];
      if a.kind == ToolCall {
        var tool := DataString(a, "tool");
        if tool.Some? && tool.value == "git_commit" {
          commitCount := commitCount + 1;
        }
      }
    }
    assert activities[..|activities|] == activities;
  }

  /** Digits followed by a text that starts with a non-digit determine both. */
  lemma DigitsThen(a: string, x: string, b: string, y: string)
    requires AllDigits(a) && AllDigits(b) && x != [] && y != []
    requires !('0' <= x[0] <= '9') && !('0' <= y[0] <= '9')
    requires a + x == b + y
    ensures a == b && x == y
  {
    var k := if |a| < |b| then |a| else |b|;
    assert (a + x)[k] == (b + y)[k];
    assert ('0' <= (a + x)[k] <= '9') <==> k < |a|;
    assert ('0' <= (b + y)[k] <= '9') <==> k < |b|;
    assert a == (a + x)[..|a|] && b == (b + y)[..|b|];
    assert x == (a + x)[|a|..] && y == (b + y)[|b|..];
  }

  /** A highlight line names the count it was made from. */
  lemma SameLine(n: nat, m: nat, x: string, y: string)
    requires x != [] && y != [] && x[0] == ' ' && y[0] == ' '
    ensures Itoa(n) + x == Itoa(m) + y ==> n == m && x == y
  {
    if Itoa(n) + x == Itoa(m) + y {
      AtoiItoa(n);
      AtoiItoa(m);
      DigitsThen(Itoa(n), x, Itoa(m), y);
    }
  }

  /** The line for `x` with count `n` is among the highlights exactly when it is the line made for `x`. */
  lemma LineIn(n: nat, x: string, completed: nat, successful: nat, commits: nat)
    requires x == TasksCompletedLine || x == OperationsLine || x == CommitsLine
    ensures Itoa(n) + x in HighlightsOf(completed, successful, commits) <==>
      || (x == TasksCompletedLine && completed > 0 && n == completed)
      || (x == OperationsLine && successful > 10 && n == successful)
      || (x == CommitsLine && commits > 0 && n == commits)
  {
    SameLine(n, completed, x, TasksCompletedLine);
    SameLine(n, successful, x, OperationsLine);
    SameLine(n, commits, x, CommitsLine);
  }

  /**
   * Each highlight appears exactly when its condition holds, and with the
   * count it reports: some task was completed, more than ten tool calls
   * succeeded, some commit was made.
   */
  lemma HighlightLines(completed: nat, successful: nat, commits: nat)
    ensures |HighlightsOf(completed, successful, commits)| <= 3
    ensures forall n: nat :: Itoa(n) + TasksCompletedLine in HighlightsOf(completed, successful, commits) <==>
              completed > 0 && n == completed
    ensures forall n: nat :: Itoa(n) + OperationsLine in HighlightsOf(completed, successful, commits) <==>
              successful > 10 && n == successful
    ensures forall n: nat :: Itoa(n) + CommitsLine in HighlightsOf(completed, successful, commits) <==>
              commits > 0 && n == commits
  {
    forall n: nat
      ensures Itoa(n) + TasksCompletedLine in HighlightsOf(completed, successful, commits) <==>
                completed > 0 && n == completed
      ensures Itoa(n) + OperationsLine in HighlightsOf(completed, successful, commits) <==>
                successful > 10 && n == successful
      ensures Itoa(n) + CommitsLine in HighlightsOf(completed, successful, commits) <==>
                commits > 0 && n == commits
    {
      LineIn(n, TasksCompletedLine, completed, successful, commits);
      LineIn(n, OperationsLine, completed, successful, commits);
      LineIn(n, CommitsLine, completed, successful, commits);
    }
  }

  // ---------------------------------------------------------------------------
  // extractBlockers
  // ---------------------------------------------------------------------------

  /** The blocker line of a blocked task. */
  function BlockedTaskLine(t: TS.Task): string {
    "Task '" + t.title + "' is blocked"
  }

  /** The blocker lines of the blocked tasks. */
  function TaskBlockers(ts: seq<TS.Task>): set<string> {
    if ts == [] then {}
    else TaskBlockers(ts[..|ts| - 1]) + (if ts[|ts| - 1].status == "blocked" then {BlockedTaskLine(ts[|ts| - 1])} else {})
  }

  /** The blocker lines an entry contributes: its error, or its failed tool call, cut to 100 bytes. */
  function EntryBlockers(a: ActivityEntry): set<string> {
    (if a.kind == ErrorKind && a.error != "" then {Truncate(a.error, 100)} else {})
    + (if a.kind == ToolCall && !a.success && a.error != "" then {"Tool error: " + Truncate(a.error, 100)} else {})
  }

  function ActivityBlockers(es: seq<ActivityEntry>): set<string> {
    if es == [] then {} else ActivityBlockers(es[..|es| - 1]) + EntryBlockers(es[|es| - 1])
  }

  /** The set `extractBlockers` fills. */
  function BlockerSet(es: seq<ActivityEntry>, ts: seq<TS.Task>): set<string> {
    TaskBlockers(ts) + ActivityBlockers(es)
  }

  method ExtractBlockers(activities: seq<ActivityEntry>, tasks: seq<TS.Task>) returns (blockers: seq<string>)
    ensures forall b :: b in blockers <==> b in BlockerSet(activities, tasks)
    ensures forall i, j :: 0 <= i < j < |blockers| ==> blockers[i] != blockers[j]
  {
    var blockerSet: set<string> := {};
    for i := 0 to |tasks|
      invariant blockerSet == TaskBlockers(tasks[..i])
    {
      assert tasks[..i + 1][..i] == tasks[..i];
      var t := tasks[i];
      if t.status == "blocked" {
        blockerSet := blockerSet + {"Task '" + t.title + "' is blocked"};
      }
    }
    assert tasks[..|tasks|] == tasks;
    for i := 0 to |activities|
      invariant blockerSet == TaskBlockers(tasks) + ActivityBlockers(activities[..i])
    {
      assert activities[..i + 1][..i] == activities[..i];
      var a := activities[i];
      if a.kind == ErrorKind && a.error != "" {
        var errMsg := a.error;
        if |errMsg| > 100 {
          errMsg := errMsg[..100] + "...";
        }
        blockerSet := blockerSet + {errMsg};
      }
      if a.kind == ToolCall && !a.success && a.error != "" {
        var errMsg := a.error;
        if |errMsg| > 100 {
          errMsg := errMsg[..100] + "...";
        }
        blockerSet := blockerSet + {"Tool error: " + errMsg};
      }
    }
    assert activities[..|activities|] == activities;
    blockers := ListSet(blockerSet);
  }

  /** The loop over the set, in whatever order the map yields its keys. */
  method ListSet(xs: set<string>) returns (list: seq<string>)
    ensures forall b :: b in list <==> b in xs
    ensures forall i, j :: 0 <= i < j < |list| ==> list[i] != list[j]
  {
    list := [];
    var left := xs;
    while left != {}
      invariant left <= xs
      invariant forall b :: b in list <==> b in xs - left
      invariant forall i, j :: 0 <= i < j < |list| ==> list[i] != list[j]
      decreases left
    {
      var b :| b in left;
      assert b !in list;
      ghost var before := list;
      list := list + [b];
      assert forall i :: 0 <= i < |before| ==> list[i] == before[i];
      assert forall x :: x in list <==> x in before || x == b;
      left := left - {b};
    }
  }

  /**
   * The blockers are exactly the lines for the blocked tasks, the messages
   * of the error entries and the messages of the failed tool calls, each
   * message cut to 100 bytes.
   */
  lemma BlockersAre(es: seq<ActivityEntry>, ts: seq<TS.Task>)
    ensures forall b :: b in BlockerSet(es, ts) <==>
      || (exists t :: t in ts && t.status == "blocked" && b == BlockedTaskLine(t))
      || (exists a :: a in es && a.kind == ErrorKind && a.error != "" && b == Truncate(a.error, 100))
      || (exists a :: a in es && a.kind == ToolCall && !a.success && a.error != "" &&
                       b == "Tool error: " + Truncate(a.error, 100))
  {
    TaskBlockersAre(ts);
    ActivityBlockersAre(es);
  }

  lemma {:induction false} TaskBlockersAre(ts: seq<TS.Task>)
    ensures forall b :: b in TaskBlockers(ts) <==> exists t :: t in ts && t.status == "blocked" && b == BlockedTaskLine(t)
    decreases |ts|
  {
    if ts != [] {
      TS.Split(ts);
      TaskBlockersAre(ts[..|ts| - 1]);
    }
  }

  lemma {:induction false} ActivityBlockersAre(es: seq<ActivityEntry>)
    ensures forall b :: b in ActivityBlockers(es) <==> exists a :: a in es && b in EntryBlockers(a)
    decreases |es|
  {
    if es != [] {
      Split(es);
      ActivityBlockersAre(es[..|es| - 1]);
    }
  }

  /** Every message-derived blocker is short: at most 103 bytes, or 115 with its prefix. */
  lemma EntryBlockersShort(a: ActivityEntry)
    ensures forall b :: b in EntryBlockers(a) ==> |b| <= 115
  {
  }

  // ---------------------------------------------------------------------------
  // suggestNextSteps
  // ---------------------------------------------------------------------------

  const DefaultStep: string := "Review completed work and plan next sprint"

  function PendingHigh(): TS.Task -> bool {
    (t: TS.Task) => t.status == "pending" && t.priority == "high"
  }

  /** The titles of the tasks, in order. */
  function Titles(ts: seq<TS.Task>): (r: seq<string>)
    ensures |r| == |ts|
  {
    if ts == [] then [] else Titles(ts[..|ts| - 1]) + [ts[|ts| - 1].title]
  }

  /** `xs[:min(3, len(xs))]`. */
  function FirstThree(xs: seq<string>): seq<string> {
    xs[..if |xs| < 3 then |xs| else 3]
  }

  function NextStepsOf(high: seq<string>, inProgress: seq<string>): seq<string> {
    var steps := (if |high| > 0 then ["High priority: " + Join(FirstThree(high), ", ")] else [])
                 + (if |inProgress| > 0 then ["Continue: " + Join(FirstThree(inProgress), ", ")] else []);
    if steps == [] then [DefaultStep] else steps
  }

  method SuggestNextSteps(tasks: seq<TS.Task>) returns (steps: seq<string>)
    ensures steps == NextStepsOf(Titles(TS.Where(tasks, PendingHigh())), Titles(TS.WithStatus(tasks, "in_progress")))
  {
    var highPriority: seq<string> := [];
    var inProgress: seq<string> := [];
    for i := 0 to |tasks|
      invariant highPriority == Titles(TS.Where(tasks[..i], PendingHigh()))
      invariant inProgress == Titles(TS.Where(tasks[..i], TS.StatusIs("in_progress")))
    {
      assert tasks[..i + 1][..i] == tasks[..i];
      var t := tasks[i];
      if t.status == "pending" && t.priority == "high" {
        TitlesSnoc(TS.Where(tasks[..i], PendingHigh()), t);
        highPriority := highPriority + [t.title];
      } else {
        assert TS.Where(tasks[..i + 1], PendingHigh()) == TS.Where(tasks[..i], PendingHigh());
      }
      if t.status == "in_progress" {
        TitlesSnoc(TS.Where(tasks[..i], TS.StatusIs("in_progress")), t);
        inProgress := inProgress + [t.title];
      } else {
        assert TS.Where(tasks[..i + 1], TS.StatusIs("in_progress")) == TS.Where(tasks[..i], TS.StatusIs("in_progress"));
      }
    }
    assert tasks[..|tasks|] == tasks;
    steps := [];
    if |highPriority| > 0 {
      steps := steps + ["High priority: " + Join(highPriority[..if 3 < |highPriority| then 3 else |highPriority|], ", ")];
    }
    if |inProgress| > 0 {
      steps := steps + ["Continue: " + Join(inProgress[..if 3 < |inProgress| then 3 else |inProgress|], ", ")];
    }
    if |steps| == 0 {
      steps := steps + [DefaultStep];
    }
  }

  /** Each title is the title of a task of the list. */
  lemma {:induction false} TitlesOf(ts: seq<TS.Task>)
    ensures forall i :: 0 <= i < |ts| ==> Titles(ts)[i] == ts[i].title
    decreases |ts|
  {
    if ts != [] {
      TitlesOf(ts[..|ts| - 1]);
    }
  }

  lemma TitlesSnoc(ts: seq<TS.Task>, t: TS.Task)
    ensures Titles(ts + [t]) == Titles(ts) + [t.title]
  {
    assert (ts + [t])[..|ts|] == ts;
  }

  /** One or two steps: the default exactly when both lists are empty, two exactly when neither is. */
  lemma NextStepsShape(high: seq<string>, inProgress: seq<string>)
    ensures var steps := NextStepsOf(high, inProgress);
      && 1 <= |steps| <= 2
      && (steps == [DefaultStep] <==> high == [] && inProgress == [])
      && (|steps| == 2 <==> high != [] && inProgress != [])
  {
    assert ("High priority: " + Join(FirstThree(high), ", "))[0] == 'H';
    assert ("Continue: " + Join(FirstThree(inProgress), ", "))[0] == 'C';
  }

  /** The tasks `Where` keeps are the tasks of the list it accepts. */
  lemma WhereMembers(ts: seq<TS.Task>, keep: TS.Task -> bool)
    ensures forall t :: t in TS.Where(ts, keep) <==> t in ts && keep(t)
    ensures TS.Where(ts, keep) != [] <==> exists t :: t in ts && keep(t)
  {
    var r := TS.Where(ts, keep);
    TS.WhereExactly(ts, keep);
    forall t ensures t in r <==> t in ts && keep(t) {
      assert t in r <==> multiset(r)[t] > 0;
      assert t in ts <==> multiset(ts)[t] > 0;
    }
    if r != [] {
      assert r[0] in r;
    }
  }

  /** A title among the first three of a list of tasks is the title of one of them. */
  lemma ListedTitle(ts: seq<TS.Task>, title: string)
    requires title in FirstThree(Titles(ts))
    ensures exists t :: t in ts && t.title == title
  {
    TitlesOf(ts);
    var i :| 0 <= i < |FirstThree(Titles(ts))| && FirstThree(Titles(ts))[i] == title;
    assert ts[i] in ts;
  }

  /**
   * One or two next steps: the default step exactly when no task is both
   * pending and of high priority and none is in progress, two steps
   * exactly when there are both, and the steps name at most three titles
   * each, all of them titles of pending high-priority or in-progress tasks.
   */
  lemma NextStepsFor(tasks: seq<TS.Task>)
    ensures var high, inProgress := Titles(TS.Where(tasks, PendingHigh())), Titles(TS.WithStatus(tasks, "in_progress"));
      var steps := NextStepsOf(high, inProgress);
      && 1 <= |steps| <= 2
      && (steps == [DefaultStep] <==>
            forall t :: t in tasks ==> !(t.status == "pending" && t.priority == "high") && t.status != "in_progress")
      && (|steps| == 2 <==>
            (exists t :: t in tasks && t.status == "pending" && t.priority == "high") &&
            (exists t :: t in tasks && t.status == "in_progress"))
      && |FirstThree(high)| <= 3 && |FirstThree(inProgress)| <= 3
      && (forall title :: title in FirstThree(high) ==>
            exists t :: t in tasks && t.status == "pending" && t.priority == "high" && t.title == title)
      && (forall title :: title in FirstThree(inProgress) ==>
            exists t :: t in tasks && t.status == "in_progress" && t.title == title)
  {
    var hs, ps := TS.Where(tasks, PendingHigh()), TS.WithStatus(tasks, "in_progress");
    WhereMembers(tasks, PendingHigh());
    WhereMembers(tasks, TS.StatusIs("in_progress"));
    NextStepsShape(Titles(hs), Titles(ps));
    forall title | title in FirstThree(Titles(hs))
      ensures exists t :: t in tasks && t.status == "pending" && t.priority == "high" && t.title == title
    {
      ListedTitle(hs, title);
    }
    forall title | title in FirstThree(Titles(ps))
      ensures exists t :: t in tasks && t.status == "in_progress" && t.title == title
    {
      ListedTitle(ps, title);
    }
  }
}
