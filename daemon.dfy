/**
 * The desktop shell's daemon supervisor: a health probe reduced to a bool,
 * a launcher that tries four candidate executables in a fixed order, and
 * `ensure_daemon`, which probes, launches if absent, then polls at most 30
 * times with a 500 ms sleep before each probe.
 *
 * The network and the operating system are oracles: a probe is answered by
 * the next element of a `seq<bool>` (or, for the single probe, by an
 * `HttpOutcome`), and a spawn of a path succeeds exactly when the path is in
 * the set `launchable`. Every method returns the trace of effects it caused.
 */
module Daemon {
  import opened Wrappers

  /** What `reqwest::get` of the health endpoint produced. */
  datatype HttpOutcome = Response(status: int) | TransportError

  /** One observable effect of the supervisor: a probe, a spawn of a program with its arguments, or a sleep. */
  datatype Event = Probe | Spawn(path: string, args: seq<string>) | Sleep(millis: nat)

  /** The arguments every candidate is started with. */
  const DaemonArgs: seq<string> := ["daemon"]

  const HealthUrl: string := "http://localhost:8080/api/health"
  const MaxPolls: nat := 30
  const PollMillis: nat := 500
  const WarmupMillis: nat := 2000

  const NotRunning: string := "Daemon is not running"
  const NotFound: string := "Could not find or start ugudu daemon"
  const FailedToStart: string := "Daemon failed to start"

  /** `StatusCode::is_success`: the 2xx class. */
  predicate IsSuccess(status: int) {
    200 <= status <= 299
  }

  /** `check_daemon`: total, an error of any kind is "not running". */
  function CheckDaemon(o: HttpOutcome): (up: bool)
    ensures up <==> (o.Response? && 200 <= o.status <= 299)
    ensures o.TransportError? ==> !up
  {
    match o
    case Response(status) => IsSuccess(status)
    case TransportError => false
  }

  /** `get_daemon_status`. */
  function GetDaemonStatus(up: bool): (r: Result<string, string>)
    ensures up <==> r.Ok?
    ensures r.Ok? ==> r.value == "running"
    ensures r.Err? ==> r.error == NotRunning
  {
    if up then Ok("running") else Err(NotRunning)
  }

  function BinaryName(windows: bool): (name: string)
    ensures name == (if windows then "ugudu.exe" else "ugudu")
  {
    if windows then "ugudu.exe" else "ugudu"
  }

  /**
   * The candidate executables, in priority order. `home` is the value of
   * $HOME; an unset (or non-Unicode) HOME contributes "".
   */
  function Candidates(windows: bool, home: Option<string>): (paths: seq<string>)
    ensures |paths| == 4
    ensures paths[0] == "/usr/local/bin/" + BinaryName(windows)
    ensures paths[1] == home.GetOr("") + "/.local/bin/" + BinaryName(windows)
    ensures paths[2] == home.GetOr("") + "/go/bin/" + BinaryName(windows)
    ensures paths[3] == BinaryName(windows)
  {
    var binary := BinaryName(windows);
    var h := home.GetOr("");
    ["/usr/local/bin/" + binary, h + "/.local/bin/" + binary, h + "/go/bin/" + binary, binary]
  }

  /** The position of the first element of `paths` that can be launched, or |paths|. */
  function FirstLaunchable(paths: seq<string>, launchable: set<string>): (i: nat)
    ensures i <= |paths|
    ensures forall j :: 0 <= j < i ==> paths[j] !in launchable
    ensures i < |paths| ==> paths[i] in launchable
  {
    if paths == [] then 0
    else if paths[0] in launchable then 0
    else 1 + FirstLaunchable(paths[1..], launchable)
  }

  function Spawns(paths: seq<string>): (trace: seq<Event>)
    ensures |trace| == |paths|
    ensures forall j :: 0 <= j < |paths| ==> trace[j] == Spawn(paths[j], DaemonArgs)
  {
    if paths == [] then [] else [Spawn(paths[0], DaemonArgs)] + Spawns(paths[1..])
  }

  /** Some candidate can be launched exactly when the first launchable index is in range. */
  lemma LaunchableExists(paths: seq<string>, launchable: set<string>)
    ensures FirstLaunchable(paths, launchable) < |paths| <==> exists j :: 0 <= j < |paths| && paths[j] in launchable
  {
  }

  /** The spawns `start_daemon` performs: up to and including the first launchable path. */
  function LaunchTrace(paths: seq<string>, launchable: set<string>): (trace: seq<Event>)
    ensures var k := FirstLaunchable(paths, launchable);
      trace == Spawns(if k < |paths| then paths[..k + 1] else paths)
  {
    var k := FirstLaunchable(paths, launchable);
    Spawns(if k < |paths| then paths[..k + 1] else paths)
  }

  /**
   * `start_daemon`: spawns the candidates in order, with the argument
   * "daemon", and stops at the first spawn that succeeds.
   */
  method StartDaemon(windows: bool, home: Option<string>, launchable: set<string>)
    returns (r: Result<(), string>, trace: seq<Event>)
    ensures var paths := Candidates(windows, home);
      var k := FirstLaunchable(paths, launchable);
      && (r.Ok? <==> k < |paths|)
      && (r.Err? ==> r.error == NotFound && trace == Spawns(paths))
      && (r.Ok? ==> trace == Spawns(paths[..k + 1]))
      && trace == LaunchTrace(paths, launchable)
  {
    var paths := Candidates(windows, home);
    trace := [];
    var i := 0;
    while i < |paths|
      invariant 0 <= i <= |paths|
      invariant forall j :: 0 <= j < i ==> paths[j] !in launchable
      invariant trace == Spawns(paths[..i])
    {
      var path := paths[i];
      trace := trace + [Spawn(path, DaemonArgs)];
      assert paths[..i + 1] == paths[..i] + [path];
      SpawnsAppend(paths[..i], path);
      if path in launchable {
        r := Ok(());
        FirstLaunchableIs(paths, launchable, i);
        return;
      }
      i := i + 1;
    }
    assert paths[..i] == paths;
    r := Err(NotFound);
  }

  lemma {:induction false} SpawnsAppend(paths: seq<string>, p: string)
    ensures Spawns(paths + [p]) == Spawns(paths) + [Spawn(p, DaemonArgs)]
  {
    var a, b := Spawns(paths + [p]), Spawns(paths) + [Spawn(p, DaemonArgs)];
    assert |a| == |b|;
    forall j | 0 <= j < |a| ensures a[j] == b[j] {
      if j < |paths| { assert (paths + [p])[j] == paths[j]; }
    }
  }

  lemma FirstLaunchableIs(paths: seq<string>, launchable: set<string>, i: nat)
    requires i < |paths| && paths[i] in launchable
    requires forall j :: 0 <= j < i ==> paths[j] !in launchable
    ensures FirstLaunchable(paths, launchable) == i
  {
  }

  /** k rounds of the readiness poll: sleep 500 ms, then probe. */
  function Polls(k: nat): (trace: seq<Event>)
    ensures |trace| == 2 * k
  {
    if k == 0 then [] else Polls(k - 1) + [Sleep(PollMillis), Probe]
  }

  /** Round j of the poll is a 500 ms sleep followed by one probe: no probe is issued without a sleep before it. */
  lemma {:induction false} PollsShape(k: nat, j: nat)
    requires j < k
    ensures Polls(k)[2 * j] == Sleep(PollMillis) && Polls(k)[2 * j + 1] == Probe
  {
    if j < k - 1 {
      PollsShape(k - 1, j);
    }
  }

  /** The index (from 1) of the first successful poll among `polls`, or 0 when none succeeds. */
  function FirstUp(polls: seq<bool>): (k: nat)
    ensures k <= |polls|
    ensures k > 0 ==> polls[k - 1] && forall j :: 0 <= j < k - 1 ==> !polls[j]
    ensures k == 0 ==> forall j :: 0 <= j < |polls| ==> !polls[j]
  {
    if polls == [] then 0
    else if polls[0] then 1
    else var k := FirstUp(polls[1..]); if k == 0 then 0 else k + 1
  }

  /**
   * `ensure_daemon`. `probes[0]` answers the initial probe and `probes[n]`
   * the n-th poll; the oracle must be able to answer all 31 probes.
   */
  method EnsureDaemon(probes: seq<bool>, windows: bool, home: Option<string>, launchable: set<string>)
    returns (r: Result<string, string>, trace: seq<Event>)
    requires |probes| > MaxPolls
    ensures probes[0] ==> r == Ok("already_running") && trace == [Probe]
    ensures var paths := Candidates(windows, home);
      var k := FirstLaunchable(paths, launchable);
      var spawned := LaunchTrace(paths, launchable);
      var up := FirstUp(probes[1..MaxPolls + 1]);
      && (!probes[0] && k == |paths| ==> r == Err(NotFound) && trace == [Probe] + spawned)
      && (!probes[0] && k < |paths| && up > 0 ==> r == Ok("started") && trace == [Probe] + spawned + Polls(up))
      && (!probes[0] && k < |paths| && up == 0 ==> r == Err(FailedToStart) && trace == [Probe] + spawned + Polls(MaxPolls))
  {
    trace := [Probe];
    if probes[0] {
      return Ok("already_running"), trace;
    }
    var started, spawned := StartDaemon(windows, home, launchable);
    trace := trace + spawned;
    if started.Err? {
      return Err(started.error), trace;
    }
    var up, polled := Poll(probes[1..MaxPolls + 1]);
    trace := trace + polled;
    r := if up then Ok("started") else Err(FailedToStart);
  }

  /** The poll loop of `ensure_daemon`: up to 30 rounds of a 500 ms sleep and a probe, stopping at the first probe that answers. */
  method Poll(polls: seq<bool>) returns (up: bool, trace: seq<Event>)
    requires |polls| == MaxPolls
    ensures up <==> FirstUp(polls) > 0
    ensures trace == Polls(if up then FirstUp(polls) else MaxPolls)
  {
    trace := [];
    var n := 0;
    while n < MaxPolls
      invariant 0 <= n <= MaxPolls
      invariant forall j :: 0 <= j < n ==> !polls[j]
      invariant trace == Polls(n)
    {
      trace := trace + [Sleep(PollMillis), Probe];
      if polls[n] {
        FirstUpIs(polls, n + 1);
        return true, trace;
      }
      n := n + 1;
    }
    FirstUpIs(polls, 0);
    up := false;
  }

  lemma FirstUpIs(polls: seq<bool>, k: nat)
    requires k <= |polls|
    requires k > 0 ==> polls[k - 1] && forall j :: 0 <= j < k - 1 ==> !polls[j]
    requires k == 0 ==> forall j :: 0 <= j < |polls| ==> !polls[j]
    ensures FirstUp(polls) == k
  {
  }

  /** The setup warm-up: one probe; if down, one launch (its result ignored) and a 2 s grace sleep. */
  method Warmup(up: bool, windows: bool, home: Option<string>, launchable: set<string>)
    returns (trace: seq<Event>)
    ensures up ==> trace == [Probe]
    ensures !up ==> var paths := Candidates(windows, home); trace == [Probe] + LaunchTrace(paths, launchable) + [Sleep(WarmupMillis)]
  {
    trace := [Probe];
    if !up {
      var _, spawned := StartDaemon(windows, home, launchable);
      trace := trace + spawned + [Sleep(WarmupMillis)];
    }
  }

  function CountProbes(trace: seq<Event>): (n: nat)
    ensures n <= |trace|
  {
    if trace == [] then 0 else (if trace[0] == Probe then 1 else 0) + CountProbes(trace[1..])
  }

  function SleptMillis(trace: seq<Event>): nat {
    if trace == [] then 0 else (if trace[0].Sleep? then trace[0].millis else 0) + SleptMillis(trace[1..])
  }

  lemma {:induction false} CountsAppend(a: seq<Event>, b: seq<Event>)
    ensures CountProbes(a + b) == CountProbes(a) + CountProbes(b)
    ensures SleptMillis(a + b) == SleptMillis(a) + SleptMillis(b)
  {
    if a == [] {
      assert a + b == b;
    } else {
      assert (a + b)[1..] == a[1..] + b;
      CountsAppend(a[1..], b);
    }
  }

  lemma {:induction false} SpawnsCost(paths: seq<string>)
    ensures CountProbes(Spawns(paths)) == 0 && SleptMillis(Spawns(paths)) == 0
  {
    if paths != [] {
      assert Spawns(paths) == [Spawn(paths[0], DaemonArgs)] + Spawns(paths[1..]);
      CountsAppend([Spawn(paths[0], DaemonArgs)], Spawns(paths[1..]));
      SpawnsCost(paths[1..]);
    }
  }

  /** k poll rounds issue exactly k probes and sleep exactly k × 500 ms. */
  lemma {:induction false} PollsCost(k: nat)
    ensures CountProbes(Polls(k)) == k && SleptMillis(Polls(k)) == k * PollMillis
  {
    if k > 0 {
      PollsCost(k - 1);
      CountsAppend(Polls(k - 1), [Sleep(PollMillis), Probe]);
      assert [Sleep(PollMillis), Probe][1..] == [Probe];
      assert [Probe][1..] == [];
      assert SleptMillis([Sleep(PollMillis), Probe]) == PollMillis;
      assert (k - 1) * PollMillis + PollMillis == k * PollMillis;
    }
  }

  /**
   * A started daemon that answers on the k-th poll costs exactly k + 1
   * probes and k sleeps of 500 ms; a daemon that never answers costs 31
   * probes and 15 s of sleeping, and no more.
   */
  lemma EnsureDaemonCost(paths: seq<string>, k: nat)
    requires k <= MaxPolls
    ensures CountProbes([Probe] + Spawns(paths) + Polls(k)) == k + 1
    ensures SleptMillis([Probe] + Spawns(paths) + Polls(k)) == k * PollMillis <= 15000
  {
    CountsAppend([Probe], Spawns(paths));
    CountsAppend([Probe] + Spawns(paths), Polls(k));
    assert [Probe][1..] == [];
    SpawnsCost(paths);
    PollsCost(k);
  }

  /** The candidate order does not depend on the platform, only the file name does. */
  lemma CandidatesDifferOnlyInName(home: Option<string>, j: nat)
    requires j < 4
    ensures var w, u := Candidates(true, home)[j], Candidates(false, home)[j];
      |w| >= 4 && w[..|w| - 4] == u && w[|w| - 4..] == ".exe"
  {
    var w, u := Candidates(true, home)[j], Candidates(false, home)[j];
    var pre := if j == 0 then "/usr/local/bin/" else if j == 1 then home.GetOr("") + "/.local/bin/"
               else if j == 2 then home.GetOr("") + "/go/bin/" else "";
    assert w == pre + "ugudu" + ".exe";
    assert u == pre + "ugudu";
  }
}
