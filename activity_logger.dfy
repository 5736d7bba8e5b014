/**
 * The activity log of one role: entries are written as JSON lines to a
 * buffered writer in append mode and flushed on every tenth entry; queries
 * read log files back line by line and filter them.
 *
 * A log file is modelled by the lines a scanner reads from it: an entry that
 * decodes, a malformed line (skipped), or a line the scanner cannot read,
 * which ends the scan with an error. Every I/O step that can fail takes its
 * outcome as a parameter.
 */
module ActivityLog {
  import opened Wrappers
  import opened Activity
  import opened FilePath
  import opened GoStrings
  import Tally
  import WS = Workspace

  datatype LogLine = Parsed(entry: ActivityEntry) | Malformed | Unscannable(err: string)

  /** What opening a log file gives. */
  datatype LogFile = NoLog | Unopenable(err: string) | Lines(lines: seq<LogLine>)

  /** `QueryOptions`; an instant of 0 is Go's zero time, which switches that filter off. */
  datatype QueryOptions = QueryOptions(since: int, until: int, types: seq<string>, taskId: string, limit: int, offset: int)

  /** Every filter that is set lets the entry through. */
  predicate Passes(e: ActivityEntry, opts: QueryOptions) {
    && !(opts.since != 0 && e.timestamp < opts.since)
    && !(opts.until != 0 && e.timestamp > opts.until)
    && (|opts.types| > 0 ==> e.kind in opts.types)
    && (opts.taskId != "" ==> e.taskId == opts.taskId)
  }

  /**
   * The scanning loop of `QueryActivityLog` from some line on, with `skipped`
   * entries already skipped for the offset and `acc` kept so far.
   */
  function Scan(lines: seq<LogLine>, opts: QueryOptions, skipped: int, acc: seq<ActivityEntry>): Result<seq<ActivityEntry>, string>
    decreases |lines|
  {
    if lines == [] then Ok(acc)
    else match lines[0]
      case Unscannable(e) => Err("scan activity log: " + e)
      case Malformed => Scan(lines[1..], opts, skipped, acc)
      case Parsed(e) =>
        if !Passes(e, opts) then Scan(lines[1..], opts, skipped, acc)
        else if opts.offset > 0 && skipped < opts.offset then Scan(lines[1..], opts, skipped + 1, acc)
        else if opts.limit > 0 && |acc + [e]| >= opts.limit then Ok(acc + [e])
        else Scan(lines[1..], opts, skipped, acc + [e])
  }

  /** `QueryActivityLog` as a value: a missing file is empty, an unopenable one an error. */
  function QueryLog(file: LogFile, opts: QueryOptions): Result<seq<ActivityEntry>, string> {
    match file
    case NoLog => Ok([])
    case Unopenable(e) => Err("open activity log: " + e)
    case Lines(ls) => Scan(ls, opts, 0, [])
  }

  /** `QueryActivityLog`: the scanning loop with its `skipped` counter, offset and limit. */
  method QueryActivityLog(file: LogFile, opts: QueryOptions) returns (r: Result<seq<ActivityEntry>, string>)
    ensures r == QueryLog(file, opts)
  {
    if file.NoLog? {
      return Ok([]);
    }
    if file.Unopenable? {
      return Err("open activity log: " + file.err);
    }
    var lines := file.lines;
    var entries: seq<ActivityEntry> := [];
    var skipped := 0;
    var i := 0;
    while i < |lines|
      invariant 0 <= i <= |lines|
      invariant Scan(lines, opts, 0, []) == Scan(lines[i..], opts, skipped, entries)
    {
      assert lines[i..][1..] == lines[i + 1..];
      match lines[i] {
        case Unscannable(e) =>
          return Err("scan activity log: " + e);
        case Malformed =>
        case Parsed(entry) =>
          if Passes(entry, opts) {
            if opts.offset > 0 && skipped < opts.offset {
              skipped := skipped + 1;
            } else {
              entries := entries + [entry];
              if opts.limit > 0 && |entries| >= opts.limit {
                return Ok(entries);
              }
            }
          }
      }
      i := i + 1;
    }
    return Ok(entries);
  }

  /** The entries of the lines that pass the filters, in file order. */
  function Matching(lines: seq<LogLine>, opts: QueryOptions): seq<ActivityEntry> {
    if lines == [] then []
    else (if lines[0].Parsed? && Passes(lines[0].entry, opts) then [lines[0].entry] else []) + Matching(lines[1..], opts)
  }

  /** The number of matching entries the offset skips. */
  function Skip(opts: QueryOptions): nat {
    if opts.offset > 0 then opts.offset else 0
  }

  function Drop(xs: seq<ActivityEntry>, n: nat): seq<ActivityEntry> {
    if n >= |xs| then [] else xs[n..]
  }

  /** At most `limit` entries when the limit is positive. */
  function Cap(xs: seq<ActivityEntry>, limit: int): (r: seq<ActivityEntry>)
    ensures limit > 0 ==> |r| <= limit
  {
    if limit > 0 && |xs| > limit then xs[..limit] else xs
  }

  /** No line of the file stops the scanner. */
  predicate Readable(lines: seq<LogLine>) {
    lines == [] || (!lines[0].Unscannable? && Readable(lines[1..]))
  }

  lemma {:induction false} ScanWindow(lines: seq<LogLine>, opts: QueryOptions, skipped: int, acc: seq<ActivityEntry>)
    requires Readable(lines)
    requires 0 <= skipped <= Skip(opts)
    requires opts.limit > 0 ==> |acc| < opts.limit
    ensures Scan(lines, opts, skipped, acc) == Ok(Cap(acc + Drop(Matching(lines, opts), Skip(opts) - skipped), opts.limit))
    decreases |lines|
  {
    if lines != [] {
      var rest := lines[1..];
      var m := Matching(rest, opts);
      var left := Skip(opts) - skipped;
      if lines[0].Parsed? && Passes(lines[0].entry, opts) {
        var e := lines[0].entry;
        assert Matching(lines, opts) == [e] + m;
        if opts.offset > 0 && skipped < opts.offset {
          assert Scan(lines, opts, skipped, acc) == Scan(rest, opts, skipped + 1, acc);
          ScanWindow(rest, opts, skipped + 1, acc);
          assert Drop([e] + m, left) == Drop(m, left - 1);
          assert acc + Drop(Matching(lines, opts), left) == acc + Drop(m, Skip(opts) - (skipped + 1));
        } else {
          assert left == 0;
          assert Drop([e] + m, 0) == [e] + m;
          assert acc + ([e] + m) == (acc + [e]) + m;
          assert acc + Drop(Matching(lines, opts), left) == (acc + [e]) + m;
          if opts.limit > 0 && |acc + [e]| >= opts.limit {
            assert Scan(lines, opts, skipped, acc) == Ok(acc + [e]);
            CapFull(acc + [e], m, opts.limit);
          } else {
            assert Scan(lines, opts, skipped, acc) == Scan(rest, opts, skipped, acc + [e]);
            ScanWindow(rest, opts, skipped, acc + [e]);
            assert Drop(m, Skip(opts) - skipped) == m;
          }
        }
      } else {
        assert Scan(lines, opts, skipped, acc) == Scan(rest, opts, skipped, acc);
        assert Matching(lines, opts) == m;
        ScanWindow(rest, opts, skipped, acc);
        assert acc + Drop(Matching(lines, opts), left) == acc + Drop(m, left);
      }
    } else {
      assert Drop([], Skip(opts) - skipped) == [];
      assert acc + [] == acc;
    }
  }

  /** Entries that already fill the limit are all a cut keeps. */
  lemma CapFull(xs: seq<ActivityEntry>, ys: seq<ActivityEntry>, limit: int)
    requires limit > 0 && |xs| == limit
    ensures Cap(xs + ys, limit) == xs
  {
    assert (xs + ys)[..limit] == xs;
    if ys == [] {
      assert xs + ys == xs;
    }
  }

  /**
   * On a file every line of which the scanner can read, the query is the
   * window of the matching entries: the first `offset` skipped, then at most
   * `limit` kept.
   */
  lemma QueryWindow(lines: seq<LogLine>, opts: QueryOptions)
    requires Readable(lines)
    ensures QueryLog(Lines(lines), opts) == Ok(Cap(Drop(Matching(lines, opts), Skip(opts)), opts.limit))
  {
    ScanWindow(lines, opts, 0, []);
    assert [] + Drop(Matching(lines, opts), Skip(opts)) == Drop(Matching(lines, opts), Skip(opts));
  }

  /** Without a positive limit nothing is cut: every matching entry past the offset comes back. */
  lemma NoLimitKeepsEveryMatch(lines: seq<LogLine>, opts: QueryOptions)
    requires Readable(lines) && opts.limit <= 0
    ensures QueryLog(Lines(lines), opts) == Ok(Drop(Matching(lines, opts), Skip(opts)))
  {
    QueryWindow(lines, opts);
  }

  lemma {:induction false} MatchingPasses(lines: seq<LogLine>, opts: QueryOptions)
    ensures forall e :: e in Matching(lines, opts) ==> Passes(e, opts)
    decreases |lines|
  {
    if lines != [] {
      MatchingPasses(lines[1..], opts);
    }
  }

  lemma {:induction false} ScanPasses(lines: seq<LogLine>, opts: QueryOptions, skipped: int, acc: seq<ActivityEntry>)
    requires forall e :: e in acc ==> Passes(e, opts)
    ensures Scan(lines, opts, skipped, acc).Ok? ==> forall e :: e in Scan(lines, opts, skipped, acc).value ==> Passes(e, opts)
    decreases |lines|
  {
    if lines != [] {
      match lines[0]
      case Unscannable(_) =>
      case Malformed => ScanPasses(lines[1..], opts, skipped, acc);
      case Parsed(e) =>
        if Passes(e, opts) {
          ScanPasses(lines[1..], opts, skipped + 1, acc);
          ScanPasses(lines[1..], opts, skipped, acc + [e]);
        } else {
          ScanPasses(lines[1..], opts, skipped, acc);
        }
    }
  }

  /** Every entry a query gives passes every filter that is set, and a positive limit bounds their number. */
  lemma QueryFilters(file: LogFile, opts: QueryOptions)
    ensures QueryLog(file, opts).Ok? ==> forall e :: e in QueryLog(file, opts).value ==> Passes(e, opts)
    ensures file.NoLog? ==> QueryLog(file, opts) == Ok([])
    ensures file.Unopenable? ==> QueryLog(file, opts) == Err("open activity log: " + file.err)
  {
    if file.Lines? {
      ScanPasses(file.lines, opts, 0, []);
    }
  }

  // ---------------------------------------------------------------------------
  // sortActivityEntries
  // ---------------------------------------------------------------------------

  /** Newest first. */
  predicate NonIncreasing(s: seq<ActivityEntry>) {
    forall i, j :: 0 <= i < j < |s| ==> s[i].timestamp >= s[j].timestamp
  }

  /** Every entry before `i` is at least as new as every entry after it. */
  predicate SortedBefore(a: array<ActivityEntry>, i: int)
    reads a
  {
    forall k, m :: 0 <= k < m < a.Length && k < i ==> a[k].timestamp >= a[m].timestamp
  }

  /** `sortActivityEntries`: the exchange sort, in place, newest first. */
  method SortActivityEntries(a: array<ActivityEntry>)
    modifies a
    ensures NonIncreasing(a[..])
    ensures multiset(a[..]) == multiset(old(a[..]))
  {
    var i := 0;
    while i + 1 < a.Length
      invariant 0 <= i <= a.Length
      invariant multiset(a[..]) == multiset(old(a[..]))
      invariant SortedBefore(a, i)
    {
      ExchangeNewest(a, i);
      i := i + 1;
    }
    assert SortedBefore(a, a.Length) by {
      if a.Length > 0 {
        assert SortedBefore(a, a.Length - 1);
      }
    }
  }

  /** The inner loop of the exchange sort: the newest entry from `i` on is swapped into place `i`. */
  method ExchangeNewest(a: array<ActivityEntry>, i: int)
    requires 0 <= i < a.Length && SortedBefore(a, i)
    modifies a
    ensures SortedBefore(a, i + 1)
    ensures multiset(a[..]) == multiset(old(a[..]))
  {
    var j := i + 1;
    while j < a.Length
      invariant i < j <= a.Length
      invariant multiset(a[..]) == multiset(old(a[..]))
      invariant SortedBefore(a, i)
      invariant forall m :: i < m < j ==> a[i].timestamp >= a[m].timestamp
    {
      if a[j].timestamp > a[i].timestamp {
        Swap(a, i, j);
      }
      j := j + 1;
    }
  }

  /** `entries[i], entries[j] = entries[j], entries[i]`. */
  method Swap(a: array<ActivityEntry>, i: int, j: int)
    requires 0 <= i < j < a.Length
    modifies a
    ensures a[i] == old(a[j]) && a[j] == old(a[i])
    ensures forall k :: 0 <= k < a.Length && k != i && k != j ==> a[k] == old(a[k])
    ensures multiset(a[..]) == multiset(old(a[..]))
  {
    a[i], a[j] := a[j], a[i];
  }

  // ---------------------------------------------------------------------------
  // QueryProjectActivity
  // ---------------------------------------------------------------------------

  /** One entry of the activity directory, with the log file it names. */
  datatype DirEntry = DirEntry(name: string, isDir: bool, file: LogFile)

  /** What reading the activity directory gives. */
  datatype ActivityDir = DirMissing | DirUnreadable(err: string) | Listing(entries: seq<DirEntry>)

  /** A directory entry `QueryProjectActivity` reads: a file whose extension is ".log". */
  predicate IsLogFile(d: DirEntry) {
    !d.isDir && Ext(d.name) == ".log"
  }

  /** The entries of every log file that can be queried, file after file. */
  function Merged(ds: seq<DirEntry>, opts: QueryOptions): seq<ActivityEntry> {
    if ds == [] then []
    else
      var d := ds[|ds| - 1];
      Merged(ds[..|ds| - 1], opts)
        + (if IsLogFile(d) && QueryLog(d.file, opts).Ok? then QueryLog(d.file, opts).value else [])
  }

  /** The loop of `QueryProjectActivity` over the directory, skipping what cannot be read. */
  method MergeLogs(ds: seq<DirEntry>, opts: QueryOptions) returns (all: seq<ActivityEntry>)
    ensures all == Merged(ds, opts)
  {
    all := [];
    for i := 0 to |ds|
      invariant all == Merged(ds[..i], opts)
    {
      assert ds[..i + 1][..i] == ds[..i];
      var d := ds[i];
      if d.isDir || Ext(d.name) != ".log" {
        continue;
      }
      var logEntries := QueryActivityLog(d.file, opts);
      if logEntries.Err? {
        continue;
      }
      all := all + logEntries.value;
    }
    assert ds[..|ds|] == ds;
  }

  /**
   * `QueryProjectActivity`: a missing directory is empty; otherwise the
   * merged entries, newest first, cut to the limit, so that no entry left
   * out is newer than one kept.
   */
  method QueryProjectActivity(dir: ActivityDir, opts: QueryOptions) returns (r: Result<seq<ActivityEntry>, string>)
    ensures dir.DirMissing? ==> r == Ok([])
    ensures dir.DirUnreadable? ==> r == Err("read activity directory: " + dir.err)
    ensures dir.Listing? ==>
      var all := Merged(dir.entries, opts);
      && r.Ok? && NonIncreasing(r.value)
      && multiset(r.value) <= multiset(all)
      && |r.value| == (if opts.limit > 0 && |all| > opts.limit then opts.limit else |all|)
      && forall x, y :: x in r.value && y in multiset(all) - multiset(r.value) ==> x.timestamp >= y.timestamp
  {
    if dir.DirMissing? {
      return Ok([]);
    }
    if dir.DirUnreadable? {
      return Err("read activity directory: " + dir.err);
    }
    var all := MergeLogs(dir.entries, opts);
    var a := new ActivityEntry[|all|](i requires 0 <= i < |all| => all[i]);
    assert a[..] == all;
    SortActivityEntries(a);
    var sorted := a[..];
    var kept := sorted;
    if opts.limit > 0 && |sorted| > opts.limit {
      kept := sorted[..opts.limit];
    }
    PrefixOfSorted(sorted, |kept|);
    return Ok(kept);
  }

  /** A prefix of a newest-first list is newest first, part of it, and no newer than what follows. */
  lemma PrefixOfSorted(s: seq<ActivityEntry>, n: nat)
    requires NonIncreasing(s) && n <= |s|
    ensures NonIncreasing(s[..n])
    ensures multiset(s[..n]) <= multiset(s)
    ensures forall x, y :: x in s[..n] && y in multiset(s) - multiset(s[..n]) ==> x.timestamp >= y.timestamp
  {
    SplitMultiset(s, n);
    SplitOrder(s, n);
    assert multiset(s) - multiset(s[..n]) == multiset(s[n..]);
  }

  lemma SplitMultiset(s: seq<ActivityEntry>, n: nat)
    requires n <= |s|
    ensures multiset(s) == multiset(s[..n]) + multiset(s[n..])
  {
    assert s == s[..n] + s[n..];
  }

  lemma SplitOrder(s: seq<ActivityEntry>, n: nat)
    requires NonIncreasing(s) && n <= |s|
    ensures forall x, y :: x in s[..n] && y in s[n..] ==> x.timestamp >= y.timestamp
    ensures NonIncreasing(s[..n])
  {
    forall i, j | 0 <= i < j < n ensures s[..n][i].timestamp >= s[..n][j].timestamp {
      assert s[..n][i] == s[i] && s[..n][j] == s[j];
    }
    forall x, y | x in s[..n] && y in s[n..]
      ensures x.timestamp >= y.timestamp
    {
      var i :| 0 <= i < n && s[..n][i] == x;
      var j :| 0 <= j < |s| - n && s[n..][j] == y;
      assert s[i] == x && s[n + j] == y;
    }
  }

  // ---------------------------------------------------------------------------
  // The logger
  // ---------------------------------------------------------------------------

  /** How writing one entry and its newline to the buffer goes. */
  datatype WriteOutcome = Written | EntryFailed(err: string) | NewlineFailed(err: string)

  /** The lines flushing `pending` adds to the file. */
  function AsLines(pending: seq<ActivityEntry>): (r: seq<LogLine>)
    ensures |r| == |pending|
    ensures forall i :: 0 <= i < |pending| ==> r[i] == Parsed(pending[i])
  {
    seq(|pending|, i requires 0 <= i < |pending| => Parsed(pending[i]))
  }

  class ActivityLogger {
    const role: string
    const logPath: string
    /** The lines of the log file: those it had when opened, then every flushed entry. */
    var persisted: seq<LogLine>
    /** Entries written to the buffer and not yet flushed. */
    var pending: seq<ActivityEntry>
    var entryCount: int

    constructor (role: string, logPath: string, existing: seq<LogLine>)
      ensures this.role == role && this.logPath == logPath
      ensures persisted == existing && pending == [] && entryCount == 0
    {
      this.role := role;
      this.logPath := logPath;
      persisted := existing;
      pending := [];
      entryCount := 0;
    }

    /**
     * `Log`: an entry without a role gets the logger's; it is counted once
     * written, and every tenth entry flushes the buffer. The entry as logged
     * is given back.
     */
    method Log(entry: ActivityEntry, write: WriteOutcome, flushErr: Option<string>)
      returns (err: Option<string>, logged: ActivityEntry)
      modifies this
      ensures logged == if entry.agentRole == "" then entry.(agentRole := role) else entry
      ensures write.EntryFailed? ==> err == Some("write activity entry: " + write.err)
      ensures write.NewlineFailed? ==> err == Some("write newline: " + write.err)
      ensures !write.Written? ==> entryCount == old(entryCount) && pending == old(pending) && persisted == old(persisted)
      ensures write.Written? ==> entryCount == old(entryCount) + 1
      ensures write.Written? && entryCount % 10 != 0 ==>
        err == None && pending == old(pending) + [logged] && persisted == old(persisted)
      ensures write.Written? && entryCount % 10 == 0 && flushErr.Some? ==>
        err == Some("flush activity log: " + flushErr.value) && pending == old(pending) + [logged] && persisted == old(persisted)
      ensures write.Written? && entryCount % 10 == 0 && flushErr.None? ==>
        err == None && pending == [] && persisted == old(persisted) + AsLines(old(pending) + [logged])
    {
      logged := entry;
      if logged.agentRole == "" {
        logged := logged.(agentRole := role);
      }
      match write
      case EntryFailed(e) =>
        return Some("write activity entry: " + e), logged;
      case NewlineFailed(e) =>
        return Some("write newline: " + e), logged;
      case Written =>
      pending := pending + [logged];
      entryCount := entryCount + 1;
      if entryCount % 10 == 0 {
        if flushErr.Some? {
          return Some("flush activity log: " + flushErr.value), logged;
        }
        persisted := persisted + AsLines(pending);
        pending := [];
      }
      return None, logged;
    }

    /** `Flush`: the buffer goes to the file, then the file is synced. */
    method Flush(flushErr: Option<string>, syncErr: Option<string>) returns (err: Option<string>)
      modifies this
      ensures flushErr.Some? ==> err == Some("flush activity log: " + flushErr.value) && pending == old(pending) && persisted == old(persisted)
      ensures flushErr.None? ==> err == syncErr && pending == [] && persisted == old(persisted) + AsLines(old(pending))
      ensures entryCount == old(entryCount)
    {
      if flushErr.Some? {
        return Some("flush activity log: " + flushErr.value);
      }
      persisted := persisted + AsLines(pending);
      pending := [];
      return syncErr;
    }

    /** `Close`: the buffer goes to the file before it is closed. */
    method Close(flushErr: Option<string>, closeErr: Option<string>) returns (err: Option<string>)
      modifies this
      ensures flushErr.Some? ==> err == Some("flush on close: " + flushErr.value) && pending == old(pending) && persisted == old(persisted)
      ensures flushErr.None? ==> err == closeErr && pending == [] && persisted == old(persisted) + AsLines(old(pending))
      ensures entryCount == old(entryCount)
    {
      if flushErr.Some? {
        return Some("flush on close: " + flushErr.value);
      }
      persisted := persisted + AsLines(pending);
      pending := [];
      return closeErr;
    }

    /** `Query`: the buffer is flushed (its error ignored), then the log file is queried. */
    method Query(opts: QueryOptions, flushErr: Option<string>) returns (r: Result<seq<ActivityEntry>, string>)
      modifies this
      ensures flushErr.None? ==> pending == [] && persisted == old(persisted) + AsLines(old(pending))
      ensures flushErr.Some? ==> pending == old(pending) && persisted == old(persisted)
      ensures r == QueryLog(Lines(persisted), opts)
      ensures entryCount == old(entryCount)
    {
      if flushErr.None? {
        persisted := persisted + AsLines(pending);
        pending := [];
      }
      r := QueryActivityLog(Lines(persisted), opts);
    }
  }

  /** `NewActivityLogger`: the log lives at the workspace's activity path for the role. */
  method NewActivityLogger(ws: WS.Workspace, role: string, mkdirErr: Option<string>, openErr: Option<string>,
                           existing: seq<LogLine>)
    returns (r: Result<ActivityLogger, string>)
    ensures mkdirErr.Some? ==> r == Err("create activity directory: " + mkdirErr.value)
    ensures mkdirErr.None? && openErr.Some? ==> r == Err("open activity log: " + openErr.value)
    ensures mkdirErr.None? && openErr.None? ==>
      && r.Ok? && fresh(r.value) && r.value.role == role && r.value.logPath == ws.ActivityPath(role)
      && r.value.persisted == existing && r.value.pending == [] && r.value.entryCount == 0
  {
    if mkdirErr.Some? {
      return Err("create activity directory: " + mkdirErr.value);
    }
    if openErr.Some? {
      return Err("open activity log: " + openErr.value);
    }
    var l := new ActivityLogger(role, ws.ActivityPath(role), existing);
    return Ok(l);
  }

  // ---------------------------------------------------------------------------
  // SummarizeActivity
  // ---------------------------------------------------------------------------

  datatype ActivitySummary = ActivitySummary(
    totalEntries: int,
    byType: map<string, int>,
    byRole: map<string, int>,
    successRate: real,
    firstEntry: int,
    lastEntry: int,
    averageDuration: int)

  /** The entries' types, in order. */
  function Kinds(es: seq<ActivityEntry>): (r: seq<string>)
    ensures |r| == |es| && forall i :: 0 <= i < |es| ==> r[i] == es[i].kind
  {
    if es == [] then [] else Kinds(es[..|es| - 1]) + [es[|es| - 1].kind]
  }

  /** The entries' roles, in order. */
  function Roles(es: seq<ActivityEntry>): (r: seq<string>)
    ensures |r| == |es| && forall i :: 0 <= i < |es| ==> r[i] == es[i].agentRole
  {
    if es == [] then [] else Roles(es[..|es| - 1]) + [es[|es| - 1].agentRole]
  }

  function Successes(es: seq<ActivityEntry>): (n: nat)
    ensures n <= |es|
  {
    if es == [] then 0 else Successes(es[..|es| - 1]) + (if es[|es| - 1].success then 1 else 0)
  }

  /** The sum of the positive durations. */
  function PositiveTotal(es: seq<ActivityEntry>): (t: int)
    ensures t >= 0
  {
    if es == [] then 0
    else PositiveTotal(es[..|es| - 1]) + (if es[|es| - 1].durationMs > 0 then es[|es| - 1].durationMs else 0)
  }

  /** The number of positive durations. */
  function PositiveCount(es: seq<ActivityEntry>): (n: nat)
    ensures n <= |es|
  {
    if es == [] then 0 else PositiveCount(es[..|es| - 1]) + (if es[|es| - 1].durationMs > 0 then 1 else 0)
  }

  /** The earliest instant of the entries, starting from `seed`. */
  function Earliest(seed: int, es: seq<ActivityEntry>): int {
    if es == [] then seed
    else
      var e := Earliest(seed, es[..|es| - 1]);
      if es[|es| - 1].timestamp < e then es[|es| - 1].timestamp else e
  }

  /** The latest instant of the entries, starting from `seed`. */
  function Latest(seed: int, es: seq<ActivityEntry>): int {
    if es == [] then seed
    else
      var l := Latest(seed, es[..|es| - 1]);
      if es[|es| - 1].timestamp > l then es[|es| - 1].timestamp else l
  }

  /** What `SummarizeActivity` reports. */
  function Summary(es: seq<ActivityEntry>): ActivitySummary {
    if es == [] then ActivitySummary(0, map[], map[], 0.0, 0, 0, 0)
    else
      ActivitySummary(|es|, Tally.Counts(Kinds(es)), Tally.Counts(Roles(es)),
                      Successes(es) as real / |es| as real * 100.0, Earliest(es[0].timestamp, es), Latest(es[0].timestamp, es),
                      if PositiveCount(es) > 0 then PositiveTotal(es) / PositiveCount(es) else 0)
  }

  /** What the loop of `SummarizeActivity` keeps between entries. */
  datatype Tracked = Tracked(byType: map<string, int>, byRole: map<string, int>, first: int, last: int,
                             successCount: int, totalDuration: int, durationCount: int)

  /** One entry accounted for. */
  function Step(t: Tracked, e: ActivityEntry): Tracked {
    Tracked(Tally.Bump(t.byType, e.kind), Tally.Bump(t.byRole, e.agentRole),
            if e.timestamp < t.first then e.timestamp else t.first,
            if e.timestamp > t.last then e.timestamp else t.last,
            t.successCount + (if e.success then 1 else 0),
            t.totalDuration + (if e.durationMs > 0 then e.durationMs else 0),
            t.durationCount + (if e.durationMs > 0 then 1 else 0))
  }

  /** The loop's state after the entries, starting with both instants at `seed`. */
  function Track(seed: int, es: seq<ActivityEntry>): Tracked {
    if es == [] then Tracked(map[], map[], seed, seed, 0, 0, 0)
    else Step(Track(seed, es[..|es| - 1]), es[|es| - 1])
  }

  /** The loop's state holds the counts, the extreme instants and the duration totals of every entry so far. */
  lemma {:induction false} TrackFields(seed: int, es: seq<ActivityEntry>)
    ensures Track(seed, es) == Tracked(Tally.Counts(Kinds(es)), Tally.Counts(Roles(es)), Earliest(seed, es),
                                       Latest(seed, es), Successes(es), PositiveTotal(es), PositiveCount(es))
    decreases |es|
  {
    if es != [] {
      var init := es[..|es| - 1];
      var e := es[|es| - 1];
      TrackFields(seed, init);
      Tally.CountsSnoc(Kinds(init), e.kind);
      Tally.CountsSnoc(Roles(init), e.agentRole);
      var t := Track(seed, init);
      assert Track(seed, es) == Step(t, e);
      assert Step(t, e).byType == Tally.Counts(Kinds(es));
      assert Step(t, e).byRole == Tally.Counts(Roles(es));
    }
  }

  /** `SummarizeActivity`: one pass over the entries, counting and tracking the first and last instants. */
  method SummarizeActivity(es: seq<ActivityEntry>) returns (s: ActivitySummary)
    ensures s == Summary(es)
  {
    if |es| == 0 {
      return ActivitySummary(0, map[], map[], 0.0, 0, 0, 0);
    }
    var byType, byRole, first, last, successCount, totalDuration, durationCount := TrackEntries(es, es[0].timestamp);
    TrackFields(es[0].timestamp, es);
    var average := 0;
    if durationCount > 0 {
      average := totalDuration / durationCount;
    }
    return ActivitySummary(|es|, byType, byRole, successCount as real / |es| as real * 100.0, first, last, average);
  }

  /** The loop of `SummarizeActivity`, with the first and last instants starting at `seed`. */
  method TrackEntries(es: seq<ActivityEntry>, seed: int)
    returns (byType: map<string, int>, byRole: map<string, int>, first: int, last: int,
             successCount: int, totalDuration: int, durationCount: int)
    ensures Tracked(byType, byRole, first, last, successCount, totalDuration, durationCount) == Track(seed, es)
  {
    byType, byRole := map[], map[];
    first, last := seed, seed;
    successCount, totalDuration, durationCount := 0, 0, 0;
    for i := 0 to |es|
      invariant Tracked(byType, byRole, first, last, successCount, totalDuration, durationCount) == Track(seed, es[..i])
    {
      var e := es[i];
      ghost var next := Step(Track(seed, es[..i]), e);
      assert es[..i + 1][..i] == es[..i];
      assert Track(seed, es[..i + 1]) == next;
      byType := Tally.Bump(byType, e.kind);
      byRole := Tally.Bump(byRole, e.agentRole);
      if e.success {
        successCount := successCount + 1;
      }
      if e.durationMs > 0 {
        totalDuration := totalDuration + e.durationMs;
        durationCount := durationCount + 1;
      }
      if e.timestamp < first {
        first := e.timestamp;
      }
      if e.timestamp > last {
        last := e.timestamp;
      }
    }
    assert es[..|es|] == es;
  }

  lemma {:induction false} EarliestLatest(seed: int, es: seq<ActivityEntry>)
    ensures Earliest(seed, es) <= seed <= Latest(seed, es)
    ensures forall e :: e in es ==> Earliest(seed, es) <= e.timestamp <= Latest(seed, es)
    ensures Earliest(seed, es) == seed || exists i :: 0 <= i < |es| && es[i].timestamp == Earliest(seed, es)
    ensures Latest(seed, es) == seed || exists i :: 0 <= i < |es| && es[i].timestamp == Latest(seed, es)
    decreases |es|
  {
    if es != [] {
      var init := es[..|es| - 1];
      EarliestLatest(seed, init);
      assert es == init + [es[|es| - 1]];
      if Earliest(seed, init) != seed {
        var i :| 0 <= i < |init| && init[i].timestamp == Earliest(seed, init);
        assert es[i] == init[i];
      }
      if Latest(seed, init) != seed {
        var j :| 0 <= j < |init| && init[j].timestamp == Latest(seed, init);
        assert es[j] == init[j];
      }
    }
  }

  lemma {:induction false} PositiveBounds(es: seq<ActivityEntry>)
    ensures PositiveCount(es) == 0 ==> PositiveTotal(es) == 0
    ensures PositiveTotal(es) >= PositiveCount(es)
    decreases |es|
  {
    if es != [] {
      PositiveBounds(es[..|es| - 1]);
    }
  }

  /** The counts by type and by role each add up to the number of entries; an empty list counts nothing. */
  lemma SummaryCounts(es: seq<ActivityEntry>)
    ensures var s := Summary(es);
      && s.totalEntries == |es|
      && Tally.SumOver(s.byType, Tally.Distinct(Kinds(es))) == |es|
      && Tally.SumOver(s.byRole, Tally.Distinct(Roles(es))) == |es|
      && (es == [] ==> s.byType == map[] && s.byRole == map[])
  {
    if es != [] {
      Tally.CountsSum(Kinds(es));
      Tally.CountsSum(Roles(es));
    }
  }

  /** A type is counted exactly when some entry has it, and its count is the number of entries that do. */
  lemma SummaryTypes(es: seq<ActivityEntry>)
    ensures forall k :: k in Summary(es).byType <==> exists e :: e in es && e.kind == k
    ensures forall k :: k in Summary(es).byType ==> Summary(es).byType[k] == multiset(Kinds(es))[k]
  {
    if es != [] {
      var ks := Kinds(es);
      Tally.CountsOccurrences(ks);
      forall k ensures k in ks <==> exists e :: e in es && e.kind == k {
        if k in ks {
          var i :| 0 <= i < |es| && ks[i] == k;
          assert es[i] in es;
        }
        if exists e :: e in es && e.kind == k {
          var e :| e in es && e.kind == k;
          var i :| 0 <= i < |es| && es[i] == e;
          assert ks[i] == k;
        }
      }
    }
  }

  /** The first and last instants bound every entry's, and each is some entry's. */
  lemma SummaryInstants(es: seq<ActivityEntry>)
    requires es != []
    ensures var s := Summary(es);
      && (forall e :: e in es ==> s.firstEntry <= e.timestamp <= s.lastEntry)
      && (exists e :: e in es && e.timestamp == s.firstEntry)
      && (exists e :: e in es && e.timestamp == s.lastEntry)
  {
    var t := es[0].timestamp;
    EarliestLatest(t, es);
    assert es[0] in es;
    if Earliest(t, es) != t {
      var i :| 0 <= i < |es| && es[i].timestamp == Earliest(t, es);
      assert es[i] in es;
    }
    if Latest(t, es) != t {
      var j :| 0 <= j < |es| && es[j].timestamp == Latest(t, es);
      assert es[j] in es;
    }
  }

  /** The average is over positive durations only: at least one millisecond when there is one, else zero. */
  lemma SummaryAverage(es: seq<ActivityEntry>)
    ensures PositiveCount(es) > 0 ==> Summary(es).averageDuration >= 1
    ensures PositiveCount(es) == 0 ==> Summary(es).averageDuration == 0
  {
    PositiveBounds(es);
    if PositiveCount(es) > 0 {
      AtLeastOneEach(PositiveTotal(es), PositiveCount(es));
    }
  }

  lemma AtLeastOneEach(total: int, count: int)
    requires 0 < count <= total
    ensures total / count >= 1
  {
    var q := total / count;
    assert total == q * count + total % count;
  }
}
