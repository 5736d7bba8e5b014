/**
 * Rate-limit bookkeeping of the provider package: the per-provider
 * `RateLimitState`, the parser of Anthropic's HTTP 429 answers with its reset
 * calendar, and the bounded FIFO `RequestQueue` of requests waiting for a
 * limit to clear. Instants are `Clock` nanosecond counts; the clock is a
 * parameter.
 */
module RateLimit {
  import opened Wrappers
  import opened Clock
  import GoStrings
  import ProviderTypes

  datatype LimitType = MinuteLimit | DailyLimit | WeeklyLimit | MonthlyLimit {
    function Name(): string {
      match this
      case MinuteLimit => "minute"
      case DailyLimit => "daily"
      case WeeklyLimit => "weekly"
      case MonthlyLimit => "monthly"
    }
  }

  datatype RateLimitInfo = RateLimitInfo(
    kind: LimitType,
    limit: int,
    remaining: int,
    resetAt: int,
    retryAfter: int,
    hitAt: int,
    message: string)

  function Max(a: int, b: int): int {
    if a >= b then a else b
  }

  /**
   * The rate-limit state of one provider. The registered callbacks are kept
   * only as their number: each one is started once per recorded limit.
   */
  class RateLimitState {
    var limits: map<LimitType, RateLimitInfo>
    var isRateLimited: bool
    var resumeAt: int
    var callbacks: nat
    var hasResumeCallback: bool

    constructor()
      ensures limits == map[] && !isRateLimited && resumeAt == 0
      ensures callbacks == 0 && !hasResumeCallback
    {
      limits := map[];
      isRateLimited := false;
      resumeAt := 0;
      callbacks := 0;
      hasResumeCallback := false;
    }

    method OnRateLimited()
      modifies this
      ensures callbacks == old(callbacks) + 1
      ensures limits == old(limits) && isRateLimited == old(isRateLimited) && resumeAt == old(resumeAt)
      ensures hasResumeCallback == old(hasResumeCallback)
    {
      callbacks := callbacks + 1;
    }

    /** A later registration replaces the earlier one. */
    method OnResume()
      modifies this
      ensures hasResumeCallback
      ensures limits == old(limits) && isRateLimited == old(isRateLimited) && resumeAt == old(resumeAt)
      ensures callbacks == old(callbacks)
    {
      hasResumeCallback := true;
    }

    /** Limited while a limit is recorded and `now` is not after the resume time. */
    function IsRateLimited(now: int): (b: bool)
      reads this
      ensures b ==> isRateLimited && now <= resumeAt
      ensures isRateLimited && now <= resumeAt ==> b
    {
      if !isRateLimited then false
      else if now > resumeAt then false
      else true
    }

    function GetResumeTime(): int
      reads this
    {
      resumeAt
    }

    /** The time left until the resume instant; never negative, zero when nothing is recorded. */
    function TimeUntilResume(now: int): (d: int)
      reads this
      ensures d >= 0
      ensures !isRateLimited ==> d == 0
      ensures d > 0 ==> IsRateLimited(now)
      ensures IsRateLimited(now) ==> d == resumeAt - now
    {
      if !isRateLimited then 0
      else
        var remaining := resumeAt - now;
        if remaining < 0 then 0 else remaining
    }

    /**
     * Records a limit under its type, replacing older information of that
     * type, and moves the resume time to the latest reset seen. Returns the
     * number of rate-limit callbacks started.
     */
    method RecordRateLimit(info: RateLimitInfo) returns (notified: nat)
      modifies this
      ensures isRateLimited
      ensures limits == old(limits)[info.kind := info]
      ensures resumeAt == Max(old(resumeAt), info.resetAt)
      ensures resumeAt >= old(resumeAt) && resumeAt >= info.resetAt
      ensures forall now :: now <= info.resetAt ==> IsRateLimited(now)
      ensures notified == callbacks
      ensures callbacks == old(callbacks) && hasResumeCallback == old(hasResumeCallback)
    {
      isRateLimited := true;
      limits := limits[info.kind := info];
      if info.resetAt > resumeAt {
        resumeAt := info.resetAt;
      }
      notified := callbacks;
    }

    /**
     * Clears every recorded limit; the resume time is kept. The resume
     * callback is started only when a limit was recorded before.
     */
    method ClearRateLimit() returns (resumed: bool)
      modifies this
      ensures !isRateLimited && limits == map[]
      ensures resumeAt == old(resumeAt)
      ensures resumed <==> old(isRateLimited) && hasResumeCallback
      ensures forall now :: !IsRateLimited(now) && TimeUntilResume(now) == 0
      ensures callbacks == old(callbacks) && hasResumeCallback == old(hasResumeCallback)
    {
      var wasLimited := isRateLimited;
      isRateLimited := false;
      limits := map[];
      resumed := wasLimited && hasResumeCallback;
    }

    function GetLimits(): map<LimitType, RateLimitInfo>
      reads this
    {
      limits
    }
  }

  /** `headers.Get(key)`: the empty string for an absent header. */
  function Header(headers: map<string, string>, key: string): string {
    if key in headers then headers[key] else ""
  }

  /** Midnight UTC at the start of the day after `now`. */
  function NextDailyReset(now: Reading): int {
    Midnight(now.year, now.month, now.day + 1)
  }

  /** `nextWeeklyReset` as written: Monday is skipped only from 01:00 on. */
  function NextWeeklyResetAsWritten(now: Reading): int {
    var w := WeekdayOf(now);
    var days := (8 - w) % 7;
    var days' := if days == 0 && now.hour > 0 then 7 else days;
    Midnight(now.year, now.month, now.day + days')
  }

  /**
   * `nextWeeklyReset` as its comment and tests intend: the first Monday
   * midnight strictly after `now`, so on a Monday it is a week on.
   */
  function NextWeeklyReset(now: Reading): int {
    var w := WeekdayOf(now);
    var days := (8 - w) % 7;
    var days' := if days == 0 then 7 else days;
    Midnight(now.year, now.month, now.day + days')
  }

  /** `nextMonthlyReset`: the first of the next month, December rolling over into January. */
  function NextMonthlyReset(now: Reading): int {
    var year := now.year;
    var month := now.month + 1;
    if month > 12 then Midnight(year + 1, 1, 1) else Midnight(year, month, 1)
  }

  /** An instant that is a midnight UTC of a Monday. */
  predicate MondayMidnight(t: int) {
    t % Day == 0 && Weekday(t / Day) == Monday
  }

  lemma DivMidnight(n: int)
    ensures (n * Day) % Day == 0 && (n * Day) / Day == n
  {
  }

  lemma WeekdayShift(today: int, days: int)
    requires days == (8 - Weekday(today)) % 7
    ensures Weekday(today + days) == Monday
  {
    var w := Weekday(today);
    assert today + 1 == 7 * ((today + 1) / 7) + w;
    if w == 0 {
      assert days == 1;
    } else if w == 1 {
      assert days == 0;
    } else {
      assert days == 8 - w;
      assert today + days + 1 == 7 * ((today + 1) / 7 + 1) + 1;
    }
  }

  /** The corrected weekly reset is a Monday midnight, later than `now`, at most 7 days on. */
  lemma WeeklyResetIsNextMonday(now: Reading)
    ensures MondayMidnight(NextWeeklyReset(now))
    ensures Instant(now) < NextWeeklyReset(now) <= Instant(now) + 7 * Day
  {
    var today := Today(now);
    var days := (8 - WeekdayOf(now)) % 7;
    var days' := if days == 0 then 7 else days;
    assert NextWeeklyReset(now) == (today + days') * Day;
    DivMidnight(today + days');
    WeekdayShift(today, days);
    assert Weekday(today + days') == Weekday(today + days) by {
      if days' == 7 {
        assert today + days' + 1 == (today + days + 1) + 7;
      }
    }
  }

  /** The weekly reset as written is a Monday midnight, but on a Monday before 01:00 it is already past. */
  lemma WeeklyResetAsWrittenCanBePast(now: Reading)
    requires WeekdayOf(now) == Monday && now.hour == 0 && TimeOfDay(now) > 0
    ensures MondayMidnight(NextWeeklyResetAsWritten(now))
    ensures NextWeeklyResetAsWritten(now) < Instant(now)
  {
    assert NextWeeklyResetAsWritten(now) == Today(now) * Day;
    DivMidnight(Today(now));
  }

  /** Outside Monday 00:00-00:59 the weekly reset as written and as intended are the same instant. */
  lemma WeeklyResetsAgree(now: Reading)
    requires !(WeekdayOf(now) == Monday && now.hour == 0)
    ensures NextWeeklyResetAsWritten(now) == NextWeeklyReset(now)
  {
    var w := WeekdayOf(now);
    if w != Monday {
      assert 2 <= 8 - w <= 8 && 8 - w != 7;
      assert (8 - w) % 7 != 0;
    }
  }

  /** A concrete such reading: January 1 of year 1 was a Monday; at 00:30 the reset is 30 minutes past. */
  lemma WeeklyResetAsWrittenExample()
    ensures NextWeeklyResetAsWritten(Civil(1, 1, 1, 0, 30, 0, 0)) == 0
    ensures Instant(Civil(1, 1, 1, 0, 30, 0, 0)) == 30 * Minute
  {
    var c: Reading := Civil(1, 1, 1, 0, 30, 0, 0);
    assert Today(c) == 0;
    assert WeekdayOf(c) == Monday;
  }

  /** The monthly reset is the first of a month at midnight, later than `now`, at most 31 days on. */
  lemma MonthlyResetIsNextFirst(now: Reading)
    ensures now.month < 12 ==> NextMonthlyReset(now) == Midnight(now.year, now.month + 1, 1)
    ensures now.month == 12 ==> NextMonthlyReset(now) == Midnight(now.year + 1, 1, 1)
    ensures Instant(now) < NextMonthlyReset(now) <= Instant(now) + 31 * Day
  {
    NextMonthLater(now);
    var d := if now.month < 12 then DayNumber(now.year, now.month + 1, 1) else DayNumber(now.year + 1, 1, 1);
    assert NextMonthlyReset(now) == d * Day;
    assert Today(now) + 1 <= d <= Today(now) + 31;
  }

  lemma DailyResetIsNextMidnight(now: Reading)
    ensures Instant(now) < NextDailyReset(now) <= Instant(now) + Day
    ensures NextDailyReset(now) % Day == 0
  {
    assert NextDailyReset(now) == (Today(now) + 1) * Day;
    DivMidnight(Today(now) + 1);
  }

  /** The decoded error message mentions `word`, ignoring case. */
  predicate Mentions(errorMessage: Option<string>, word: string) {
    errorMessage.Some? && GoStrings.Contains(GoStrings.ToLower(errorMessage.value), word)
  }

  /** The limit type named by an error message; without a decodable body it is the minute limit. */
  function KindFromMessage(errorMessage: Option<string>): LimitType {
    if errorMessage.None? then MinuteLimit
    else
      var lower := GoStrings.ToLower(errorMessage.value);
      if GoStrings.Contains(lower, "daily") then DailyLimit
      else if GoStrings.Contains(lower, "weekly") then WeeklyLimit
      else if GoStrings.Contains(lower, "monthly") then MonthlyLimit
      else MinuteLimit
  }

  /**
   * `ParseAnthropicRateLimitError`. `errorMessage` is the `error.message` of
   * the body when the body decodes as JSON (`None` when it does not);
   * `parseDuration` stands for `time.ParseDuration`, in nanoseconds.
   */
  function ParseAnthropicRateLimitError(
    statusCode: int,
    headers: map<string, string>,
    errorMessage: Option<string>,
    parseDuration: string -> Option<int>,
    now: Reading): (r: Option<RateLimitInfo>)
    ensures r.Some? <==> statusCode == 429
  {
    if statusCode != 429 then None
    else
      var at := Instant(now);
      var retryHeader := Header(headers, "Retry-After");
      var seconds := GoStrings.ParseInt64(retryHeader);
      var retryAfter := if retryHeader != "" && seconds.Some? then GoStrings.Wrap64(seconds.value * Second) else 0;
      var reset0 := if retryHeader != "" && seconds.Some? then at + retryAfter else 0;
      var limit := if Header(headers, "X-RateLimit-Limit-Requests") != "" then GoStrings.AtoiValue(Header(headers, "X-RateLimit-Limit-Requests")) else 0;
      var remaining := if Header(headers, "X-RateLimit-Remaining-Requests") != "" then GoStrings.AtoiValue(Header(headers, "X-RateLimit-Remaining-Requests")) else 0;
      var resetHeader := Header(headers, "X-RateLimit-Reset-Requests");
      var reset1 := if resetHeader != "" && parseDuration(resetHeader).Some? then at + parseDuration(resetHeader).value else reset0;
      var message := errorMessage.GetOr("");
      var kind := KindFromMessage(errorMessage);
      var reset2 :=
        match kind
        case DailyLimit => NextDailyReset(now)
        case WeeklyLimit => NextWeeklyReset(now)
        case MonthlyLimit => NextMonthlyReset(now)
        case MinuteLimit => reset1;
      var reset3 :=
        if reset2 != 0 then reset2
        else if retryAfter > 0 then at + retryAfter
        else at + Minute;
      Some(RateLimitInfo(kind, limit, remaining, reset3, retryAfter, at, message))
  }

  /** The limit type is read from the message: daily, then weekly, then monthly, else minute. */
  lemma ParseKind(statusCode: int, headers: map<string, string>, errorMessage: Option<string>,
                  parseDuration: string -> Option<int>, now: Reading)
    requires statusCode == 429
    ensures var info := ParseAnthropicRateLimitError(statusCode, headers, errorMessage, parseDuration, now).value;
      && info.hitAt == Instant(now)
      && info.message == errorMessage.GetOr("")
      && (info.kind == DailyLimit <==> Mentions(errorMessage, "daily"))
      && (info.kind == WeeklyLimit <==> !Mentions(errorMessage, "daily") && Mentions(errorMessage, "weekly"))
      && (info.kind == MonthlyLimit <==>
            !Mentions(errorMessage, "daily") && !Mentions(errorMessage, "weekly") && Mentions(errorMessage, "monthly"))
  {
  }

  /** The reset time is never Go's zero time, and a calendar limit resets in the future. */
  lemma ParseResetAt(statusCode: int, headers: map<string, string>, errorMessage: Option<string>,
                     parseDuration: string -> Option<int>, now: Reading)
    requires statusCode == 429
    ensures var info := ParseAnthropicRateLimitError(statusCode, headers, errorMessage, parseDuration, now).value;
      && info.resetAt != 0
      && (info.kind == DailyLimit ==> info.resetAt == NextDailyReset(now))
      && (info.kind == WeeklyLimit ==> info.resetAt == NextWeeklyReset(now))
      && (info.kind == MonthlyLimit ==> info.resetAt == NextMonthlyReset(now))
      && (info.kind != MinuteLimit ==> info.resetAt > Instant(now))
  {
    InstantNotNegative(now);
    DailyResetIsNextMidnight(now);
    WeeklyResetIsNextMonday(now);
    MonthlyResetIsNextFirst(now);
  }

  /**
   * The header fields in Go's 64-bit arithmetic: a Retry-After past the
   * 64-bit range is ignored, and one whose nanoseconds overflow wraps
   * around; the limit and remaining counts are 0 when they do not parse and
   * the nearest 64-bit bound when they overflow.
   */
  lemma ParseHeaders(statusCode: int, headers: map<string, string>, errorMessage: Option<string>,
                     parseDuration: string -> Option<int>, now: Reading)
    requires statusCode == 429
    ensures var info := ParseAnthropicRateLimitError(statusCode, headers, errorMessage, parseDuration, now).value;
      var seconds := GoStrings.ParseInt64(Header(headers, "Retry-After"));
      && (seconds.Some? ==> info.retryAfter == GoStrings.Wrap64(seconds.value * Second))
      && (seconds.None? ==> info.retryAfter == 0)
      && (seconds.Some? && seconds.value * Second > GoStrings.MaxInt64 ==> info.retryAfter != seconds.value * Second)
      && info.limit == GoStrings.AtoiValue(Header(headers, "X-RateLimit-Limit-Requests"))
      && info.remaining == GoStrings.AtoiValue(Header(headers, "X-RateLimit-Remaining-Requests"))
  {
  }

  /** `RateLimitError`: the limit information is absent when the answer carried none. */
  datatype RateLimitError = RateLimitError(info: Option<RateLimitInfo>, message: string)

  /** The errors a provider call returns: a rate limit, or any other failure text. */
  datatype ProviderError = RateLimited(rle: RateLimitError) | Failed(text: string)

  /** `IsRateLimitError`: the limit information exactly when the error is a rate limit. */
  function IsRateLimitError(e: ProviderError): (r: (Option<RateLimitInfo>, bool))
    ensures r.1 <==> e.RateLimited?
    ensures !r.1 ==> r.0 == None
    ensures r.1 ==> r.0 == e.rle.info
  {
    match e
    case RateLimited(rle) => (rle.info, true)
    case Failed(_) => (None, false)
  }

  /**
   * `RateLimitError.Error()`; `until` is the rounded time to the reset,
   * already formatted as Go's `Duration.String` would.
   */
  function ErrorText(e: RateLimitError, until: string): (s: string)
    ensures e.info.None? ==> s == "rate limited: " + e.message
    ensures e.info.Some? ==> GoStrings.HasPrefix(s, "rate limited (" + e.info.value.kind.Name() + "): ")
  {
    match e.info
    case None => "rate limited: " + e.message
    case Some(info) =>
      var head := "rate limited (" + info.kind.Name() + "): ";
      var s := head + e.message + " - retry after " + until;
      assert s[..|head|] == head;
      s
  }

  /** A request parked while a limit is active; its context and reply channels are left out. */
  datatype PendingRequest = PendingRequest(id: string, request: ProviderTypes.ChatRequest, createdAt: int)

  const DefaultQueueSize: int := 100

  /** The bounded FIFO of parked requests. */
  class RequestQueue {
    var requests: seq<PendingRequest>
    var maxSize: int

    predicate Valid()
      reads this
    {
      maxSize > 0 && |requests| <= maxSize
    }

    constructor(maxSize: int)
      ensures this.maxSize == (if maxSize <= 0 then DefaultQueueSize else maxSize)
      ensures requests == []
      ensures Valid()
    {
      this.maxSize := if maxSize <= 0 then DefaultQueueSize else maxSize;
      requests := [];
    }

    /** Appends at the back, or refuses and changes nothing when the queue is full. */
    method Add(req: PendingRequest) returns (err: Option<string>)
      modifies this
      requires Valid()
      ensures Valid()
      ensures old(|requests|) >= maxSize ==> err == Some("request queue full") && requests == old(requests)
      ensures old(|requests|) < maxSize ==> err == None && requests == old(requests) + [req]
      ensures maxSize == old(maxSize)
    {
      if |requests| >= maxSize {
        return Some("request queue full");
      }
      requests := requests + [req];
      err := None;
    }

    /** Removes and returns the oldest request, or nothing when the queue is empty. */
    method Pop() returns (r: Option<PendingRequest>)
      modifies this
      requires Valid()
      ensures Valid()
      ensures old(requests) == [] ==> r == None && requests == []
      ensures old(requests) != [] ==> r == Some(old(requests)[0]) && requests == old(requests)[1..]
      ensures maxSize == old(maxSize)
    {
      if |requests| == 0 {
        return None;
      }
      r := Some(requests[0]);
      requests := requests[1..];
    }

    function Len(): nat
      reads this
    {
      |requests|
    }

    /** Removes and returns every pending request, oldest first. */
    method Clear() returns (reqs: seq<PendingRequest>)
      modifies this
      requires Valid()
      ensures Valid()
      ensures reqs == old(requests) && requests == [] && Len() == 0
      ensures maxSize == old(maxSize)
    {
      reqs := requests;
      requests := [];
    }
  }

  /** What a queue holds after a run of adds: the accepted ones, in order, up to the capacity. */
  function AfterAdds(q: seq<PendingRequest>, adds: seq<PendingRequest>, maxSize: int): (r: seq<PendingRequest>)
    requires |q| <= maxSize
    ensures |r| <= maxSize
    ensures |r| == if |q| + |adds| <= maxSize then |q| + |adds| else maxSize
    ensures |q| + |adds| <= maxSize ==> r == q + adds
    decreases |adds|
  {
    if adds == [] then q
    else if |q| >= maxSize then AfterAdds(q, adds[1..], maxSize)
    else
      var r := AfterAdds(q + [adds[0]], adds[1..], maxSize);
      assert q + [adds[0]] + adds[1..] == q + adds;
      r
  }

  /** First in, first out: requests come back out of the queue in the order they were accepted. */
  lemma {:induction false} FifoOrder(q: seq<PendingRequest>, adds: seq<PendingRequest>, maxSize: int)
    requires |q| <= maxSize
    ensures q <= AfterAdds(q, adds, maxSize)
    decreases |adds|
  {
    if adds != [] {
      if |q| >= maxSize {
        FifoOrder(q, adds[1..], maxSize);
      } else {
        FifoOrder(q + [adds[0]], adds[1..], maxSize);
        var r := AfterAdds(q + [adds[0]], adds[1..], maxSize);
        assert r[..|q|] == (q + [adds[0]])[..|q|];
      }
    }
  }
}
