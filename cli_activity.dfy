/**
 * The `ugudu activity` command (`cmd/ugudu/activity.go`): reading the
 * `--since` duration, building the query from the flags, and the rows of
 * the activity table. Durations are nanoseconds in Go's 64-bit
 * `time.Duration`; the standard `time.ParseDuration`, the local time zone
 * and `fmt`'s `%v` rendering of a data value are parameters.
 */
module CliActivity {
  import opened Wrappers
  import opened GoStrings
  import opened ProviderTypes
  import opened Activity
  import ActivityLog
  import Clock
  import Logger

  // ---------------------------------------------------------------- durations

  /** The blanks `fmt.Sscanf` skips before a number: white space other than a newline. */
  function Blanks(s: string): (n: nat)
    ensures n <= |s|
    ensures forall k :: 0 <= k < n ==> IsSpace(s[k]) && s[k] != '\n'
    ensures n < |s| ==> !IsSpace(s[n]) || s[n] == '\n'
  {
    if s != [] && IsSpace(s[0]) && s[0] != '\n' then 1 + Blanks(s[1..]) else 0
  }

  /** The length of the run of decimal digits `s` starts with. */
  function DigitRun(s: string): (n: nat)
    ensures n <= |s| && AllDigits(s[..n])
    ensures n < |s| ==> !('0' <= s[n] <= '9')
  {
    if s != [] && '0' <= s[0] <= '9' then
      var n := 1 + DigitRun(s[1..]);
      assert s[..n] == [s[0]] + s[1..][..n - 1];
      n
    else 0
  }

  /**
   * `fmt.Sscanf(s, "%d", &days)`: blanks skipped, an optional sign, at least
   * one digit, a value that fits an `int`; whatever follows the digits is
   * left unread and is no error.
   */
  function ScanInt(s: string): (r: Option<int>)
    ensures r.Some? ==> MinInt64 <= r.value <= MaxInt64
  {
    var t := s[Blanks(s)..];
    var sign := if t != [] && (t[0] == '+' || t[0] == '-') then 1 else 0;
    var n := DigitRun(t[sign..]);
    if n == 0 then None
    else
      var magnitude: int := DigitsValue(t[sign..][..n]);
      var v := if sign == 1 && t[0] == '-' then -magnitude else magnitude;
      if MinInt64 <= v <= MaxInt64 then Some(v) else None
  }

  /**
   * `parseDuration`: a trailing "d" counts whole days, 24 hours each, in
   * 64-bit arithmetic; a day count that does not scan is an error naming
   * it; anything else is `time.ParseDuration` (`std`).
   */
  function ParseDuration(s: string, std: string -> Result<int, string>): (r: Result<int, string>)
    ensures !HasSuffix(s, "d") ==> r == std(s)
    ensures HasSuffix(s, "d") ==> r.Ok? == ScanInt(s[..|s| - 1]).Some?
    ensures HasSuffix(s, "d") && r.Err? ==> r.error == "invalid day format: " + s[..|s| - 1]
    ensures HasSuffix(s, "d") && r.Ok? ==> r.value == Wrap64(ScanInt(s[..|s| - 1]).value * Clock.Day)
  {
    if HasSuffix(s, "d") then
      var days := s[..|s| - 1];
      match ScanInt(days)
      case None => Err("invalid day format: " + days)
      case Some(n) => Ok(Wrap64(n * Clock.Day))
    else std(s)
  }

  /** The most days a 64-bit duration holds. */
  const MaxDays: nat := 106751

  /** `<n>d` is `n` days, for every `n` a duration can hold. */
  lemma DaysRoundTrip(n: nat, std: string -> Result<int, string>)
    requires n <= MaxDays
    ensures ParseDuration(Itoa(n) + "d", std) == Ok(n * Clock.Day)
  {
    DaysSuffix(n);
    ScanItoa(n);
    DaysFit(n);
  }

  /** `<n>d` has the suffix "d" after the digits of `n`. */
  lemma DaysSuffix(n: nat)
    ensures HasSuffix(Itoa(n) + "d", "d") && (Itoa(n) + "d")[..|Itoa(n) + "d"| - 1] == Itoa(n)
  {
    var s := Itoa(n) + "d";
    assert s[|s| - 1..] == "d";
    assert s[..|s| - 1] == Itoa(n);
  }

  /** The decimal digits of `n` scan as `n`. */
  lemma ScanItoa(n: nat)
    requires n <= MaxInt64
    ensures ScanInt(Itoa(n)) == Some(n)
  {
    AtoiItoa(n);
    ScanDigits(Itoa(n));
  }

  lemma DaysFit(n: nat)
    requires n <= MaxDays
    ensures 0 <= n * Clock.Day <= MaxInt64
  {
    assert n * Clock.Day <= MaxDays * Clock.Day;
  }

  /** A string of digits scans as its value. */
  lemma ScanDigits(s: string)
    requires s != [] && AllDigits(s) && DigitsValue(s) <= MaxInt64
    ensures ScanInt(s) == Some(DigitsValue(s))
  {
    assert Blanks(s) == 0;
    assert s[0..] == s;
    DigitRunAll(s);
    assert s[..|s|] == s;
  }

  lemma {:induction false} DigitRunAll(s: string)
    requires AllDigits(s)
    ensures DigitRun(s) == |s|
  {
    if s != [] {
      DigitRunAll(s[1..]);
    }
  }

  /** A day count with text after its digits is read as the digits alone. */
  lemma TrailingTextIgnored(std: string -> Result<int, string>)
    ensures ParseDuration("3xd", std) == Ok(3 * Clock.Day)
  {
    var t := "3x";
    assert "3xd"[..2] == t;
    assert Blanks(t) == 0;
    assert t[0..] == t;
    assert DigitRun(t[1..]) == 0;
    assert DigitRun(t) == 1;
    assert t[..1] == "3";
    assert DigitsValue("3") == 3 by {
      assert "3"[..0] == "";
    }
    assert ScanInt(t) == Some(3);
  }

  /** A count past `MaxDays` (up to twice it) wraps around to a negative duration. */
  lemma TooManyDaysWrap(n: nat, std: string -> Result<int, string>)
    requires MaxDays < n <= 2 * MaxDays
    ensures ParseDuration(Itoa(n) + "d", std) == Ok(n * Clock.Day - TwoTo64)
    ensures n * Clock.Day - TwoTo64 < 0
  {
    DaysSuffix(n);
    ScanItoa(n);
    assert MaxInt64 < n * Clock.Day < TwoTo64 + MinInt64 + TwoTo64 by {
      assert (MaxDays + 1) * Clock.Day <= n * Clock.Day <= 2 * MaxDays * Clock.Day;
    }
    WrapOnce(n * Clock.Day);
  }

  lemma WrapOnce(x: int)
    requires MaxInt64 < x <= MaxInt64 + TwoTo64
    ensures Wrap64(x) == x - TwoTo64
  {
  }

  // ---------------------------------------------------------------- the query

  /**
   * The query options of the flags: `--since` becomes the instant that long
   * before `now` (an unreadable duration is an error naming it), `--type`
   * a one-type filter, `--task` the task filter; `--limit` is passed on.
   */
  function QueryFor(since: string, kind: string, taskId: string, limit: int, now: int,
                    std: string -> Result<int, string>): (r: Result<ActivityLog.QueryOptions, string>)
    ensures since != "" && ParseDuration(since, std).Err? <==> r.Err?
    ensures r.Err? ==> r.error == "Invalid duration: " + ParseDuration(since, std).error
    ensures r.Ok? ==> r.value.limit == limit && r.value.taskId == taskId && r.value.until == 0 && r.value.offset == 0
    ensures r.Ok? ==> r.value.types == if kind != "" then [kind] else []
    ensures r.Ok? && since == "" ==> r.value.since == 0
    ensures r.Ok? && since != "" && MinInt64 < ParseDuration(since, std).value <= MaxInt64 ==>
      r.value.since == now - ParseDuration(since, std).value
  {
    var types := if kind != "" then [kind] else [];
    if since == "" then Ok(ActivityLog.QueryOptions(0, 0, types, taskId, limit, 0))
    else match ParseDuration(since, std)
      case Err(e) => Err("Invalid duration: " + e)
      case Ok(d) => Ok(ActivityLog.QueryOptions(now + Wrap64(-d), 0, types, taskId, limit, 0))
  }

  /** `--since <n>d` reaches back exactly `n` days. */
  lemma SinceDays(n: nat, kind: string, taskId: string, limit: int, now: int, std: string -> Result<int, string>)
    requires n <= MaxDays
    ensures QueryFor(Itoa(n) + "d", kind, taskId, limit, now, std).Ok?
    ensures QueryFor(Itoa(n) + "d", kind, taskId, limit, now, std).value.since == now - n * Clock.Day
  {
    DaysRoundTrip(n, std);
  }

  // ---------------------------------------------------------------- the table

  /** The detail the entry's kind calls for, when its data has it. */
  function Specific(e: ActivityEntry): (d: Option<string>)
    ensures e.kind !in {Activity.ToolCall, Delegation, TaskUpdate, MessageKind, ProgressKind, ErrorKind} ==> d.None?
  {
    if e.kind == Activity.ToolCall then Labelled("tool: ", e.data, "tool")
    else if e.kind == Delegation then Labelled("to: ", e.data, "to_role")
    else if e.kind == TaskUpdate then Labelled("status: ", e.data, "new_status")
    else if e.kind == MessageKind then
      (if "direction" in e.data && e.data["direction"].JStr? && "to_from" in e.data && e.data["to_from"].JStr?
       then Some(e.data["direction"].s + " " + e.data["to_from"].s) else None)
    else if e.kind == ProgressKind then Labelled("progress: ", e.data, "status")
    else if e.kind == ErrorKind && e.error != "" then Some(e.error)
    else None
  }

  /** `prefix` and the string under `key`, when there is a string there. */
  function Labelled(prefix: string, data: map<string, Json>, key: string): (d: Option<string>)
    ensures d.Some? <==> key in data && data[key].JStr?
    ensures d.Some? ==> d.value == prefix + data[key].s
  {
    if key in data && data[key].JStr? then Some(prefix + data[key].s) else None
  }

  /**
   * What `formatActivityDetails` may give for an entry: the specific detail
   * when there is one, otherwise one data entry as "key: value" (whichever
   * the map yields first), or "" when there is no data.
   */
  ghost predicate IsDetails(e: ActivityEntry, show: Json -> string, d: string) {
    if Specific(e).Some? then d == Specific(e).value
    else if e.data == map[] then d == ""
    else exists k :: k in e.data && d == k + ": " + show(e.data[k])
  }

  /** `formatActivityDetails`. */
  method FormatActivityDetails(e: ActivityEntry, show: Json -> string) returns (d: string)
    ensures IsDetails(e, show, d)
  {
    var specific := Specific(e);
    if specific.Some? {
      return specific.value;
    }
    if e.data == map[] {
      return "";
    }
    var k :| k in e.data;
    d := k + ": " + show(e.data[k]);
  }

  /** With at most one data entry the details do not depend on map order. */
  lemma DetailsDetermined(e: ActivityEntry, show: Json -> string, d1: string, d2: string)
    requires |e.data.Keys| <= 1 && IsDetails(e, show, d1) && IsDetails(e, show, d2)
    ensures d1 == d2
  {
    if Specific(e).None? && e.data != map[] {
      var k1 :| k1 in e.data && d1 == k1 + ": " + show(e.data[k1]);
      var k2 :| k2 in e.data && d2 == k2 + ": " + show(e.data[k2]);
      if k1 != k2 {
        assert {k1, k2} <= e.data.Keys;
        assert |{k1, k2}| == 2;
        SubsetSize({k1, k2}, e.data.Keys);
      }
    }
  }

  lemma SubsetSize<T>(a: set<T>, b: set<T>)
    requires a <= b
    ensures |a| <= |b|
  {
    assert b == a + (b - a);
  }

  /** The details cell: more than 50 bytes cut to 47 and "...". */
  function Cell(d: string): (c: string)
    ensures |c| <= 50
    ensures |d| <= 50 ==> c == d
    ensures |d| > 50 ==> |c| == 50 && c[..47] == d[..47] && c[47..] == "..."
  {
    if |d| > 50 then d[..47] + "..." else d
  }

  /** The status cell. */
  function Status(e: ActivityEntry): (s: string)
    ensures s == "OK" <==> e.success
    ensures s == "FAIL" <==> !e.success
  {
    if e.success then "OK" else "FAIL"
  }

  /** One row of the table: time of day, role, kind, details and status. */
  datatype Row = Row(time: string, role: string, kind: string, details: string, status: string)

  /** A row `printActivityTable` may print for an entry, `local` being the local time zone. */
  ghost predicate RowFor(e: ActivityEntry, row: Row, local: int -> Clock.Reading, show: Json -> string) {
    && row.time == Logger.Timestamp(local(e.timestamp))
    && row.role == e.agentRole
    && row.kind == e.kind
    && row.status == Status(e)
    && exists d :: IsDetails(e, show, d) && row.details == Cell(d)
  }

  /** `printActivityTable`: one row per entry, in order, below the two header lines. */
  method PrintActivityTable(entries: seq<ActivityEntry>, local: int -> Clock.Reading, show: Json -> string)
    returns (rows: seq<Row>)
    ensures |rows| == |entries|
    ensures forall i :: 0 <= i < |entries| ==> RowFor(entries[i], rows[i], local, show)
  {
    rows := [];
    for i := 0 to |entries|
      invariant |rows| == i
      invariant forall j :: 0 <= j < i ==> RowFor(entries[j], rows[j], local, show)
    {
      var e := entries[i];
      var details := FormatActivityDetails(e, show);
      var row := Row(Logger.Timestamp(local(e.timestamp)), e.agentRole, e.kind, Cell(details), Status(e));
      rows := rows + [row];
    }
  }

  /** Every details cell fits the column. */
  lemma CellsFit(e: ActivityEntry, row: Row, local: int -> Clock.Reading, show: Json -> string)
    requires RowFor(e, row, local, show)
    ensures |row.details| <= 50
  {
  }
}
