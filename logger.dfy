/**
 * The structured logger (`internal/logger/logger.go`): a level, a set of
 * stored fields, and a writer shared by every logger derived from it with
 * `With`. A line is "HH:MM:SS LEVEL msg" followed by " key=value" for each
 * stored field and then for each inline pair.
 */
module Logger {
  import opened GoStrings
  import Clock

  datatype Level = Debug | Info | Warn | Error

  /** The `iota` order of the levels. */
  function Rank(l: Level): (n: int)
    ensures 0 <= n <= 3
  {
    match l
    case Debug => 0
    case Info => 1
    case Warn => 2
    case Error => 3
  }

  /** `parseLevel`: case-insensitive, with "warning" as a synonym, and info for anything else. */
  function ParseLevel(s: string): (l: Level)
    ensures l == Debug <==> ToLower(s) == "debug"
    ensures l == Warn <==> ToLower(s) == "warn" || ToLower(s) == "warning"
    ensures l == Error <==> ToLower(s) == "error"
    ensures l == Info <==> ToLower(s) !in {"debug", "warn", "warning", "error"}
  {
    var t := ToLower(s);
    if t == "debug" then Debug
    else if t == "warn" || t == "warning" then Warn
    else if t == "error" then Error
    else Info
  }

  lemma {:induction false} ToLowerIdempotent(s: string)
    ensures ToLower(ToLower(s)) == ToLower(s)
  {
    if s != [] {
      ToLowerIdempotent(s[1..]);
      assert ToLower(s) == [ToLowerChar(s[0])] + ToLower(s[1..]);
    }
  }

  /** Parsing ignores case: a level name in any mix of cases parses as its lower-case form. */
  lemma ParseLevelIgnoresCase(s: string)
    ensures ParseLevel(s) == ParseLevel(ToLower(s))
  {
    ToLowerIdempotent(s);
  }

  /** A message at level `at` is written exactly when the logger's level is not above it. */
  predicate Enabled(level: Level, at: Level) {
    Rank(level) <= Rank(at)
  }

  /** The name each level writes. */
  function LevelName(at: Level): (name: string)
    ensures name == ToUpper(name) && |name| >= 4
  {
    match at
    case Debug => "DEBUG"
    case Info => "INFO"
    case Warn => "WARN"
    case Error => "ERROR"
  }

  /** A logger at `Error` writes only errors; one at `Debug` writes everything. */
  lemma EnabledBounds(at: Level)
    ensures Enabled(Debug, at)
    ensures Enabled(Error, at) <==> at == Error
    ensures Enabled(Info, at) <==> at != Debug
  {
  }

  /** An argument of a variadic `keyvals` list, with what `%v` writes for it. */
  datatype Arg = Str(s: string) | Other(shown: string)

  function Show(a: Arg): string {
    match a
    case Str(s) => s
    case Other(shown) => shown
  }

  /** The fields after the first `n` key/value pairs of `kv`; a pair whose key is not a string is skipped. */
  function Pairs(fields: map<string, string>, kv: seq<Arg>, n: nat): map<string, string>
    requires 2 * n <= |kv|
  {
    if n == 0 then fields
    else
      var before := Pairs(fields, kv, n - 1);
      match kv[2 * n - 2]
      case Str(key) => before[key := Show(kv[2 * n - 1])]
      case Other(_) => before
  }

  /** The fields `With(kv...)` gives: every complete pair, a trailing unpaired value ignored. */
  function WithFields(fields: map<string, string>, kv: seq<Arg>): map<string, string> {
    Pairs(fields, kv, |kv| / 2)
  }

  /** Only the pairs in a prefix matter to `Pairs`. */
  lemma {:induction false} PairsPrefix(fields: map<string, string>, kv: seq<Arg>, more: seq<Arg>, n: nat)
    requires 2 * n <= |kv|
    ensures Pairs(fields, kv + more, n) == Pairs(fields, kv, n)
  {
    if n > 0 {
      PairsPrefix(fields, kv, more, n - 1);
      assert (kv + more)[2 * n - 2] == kv[2 * n - 2];
      assert (kv + more)[2 * n - 1] == kv[2 * n - 1];
    }
  }

  /** A value left without a key adds nothing. */
  lemma UnpairedIgnored(fields: map<string, string>, kv: seq<Arg>, extra: Arg)
    requires |kv| % 2 == 0
    ensures WithFields(fields, kv + [extra]) == WithFields(fields, kv)
  {
    assert |kv + [extra]| / 2 == |kv| / 2;
    PairsPrefix(fields, kv, [extra], |kv| / 2);
  }

  /** Whether some pair among the first `n` has the string key `key`. */
  predicate HasKey(kv: seq<Arg>, n: nat, key: string)
    requires 2 * n <= |kv|
  {
    exists j :: 0 <= j < n && kv[2 * j] == Str(key)
  }

  /**
   * The fields after `With`: the parent's, plus each string key of a pair;
   * a parent field no pair names keeps its value.
   */
  lemma {:induction false} PairsKeys(fields: map<string, string>, kv: seq<Arg>, n: nat)
    requires 2 * n <= |kv|
    ensures forall key :: key in Pairs(fields, kv, n) <==> key in fields || HasKey(kv, n, key)
    ensures forall key :: key in fields && !HasKey(kv, n, key) ==> Pairs(fields, kv, n)[key] == fields[key]
  {
    if n > 0 {
      PairsKeys(fields, kv, n - 1);
      forall key
        ensures HasKey(kv, n, key) <==> HasKey(kv, n - 1, key) || kv[2 * n - 2] == Str(key)
      {
        if HasKey(kv, n, key) {
          var j :| 0 <= j < n && kv[2 * j] == Str(key);
        }
      }
    }
  }

  /** The last pair with a given key decides its value. */
  lemma LastPairWins(fields: map<string, string>, kv: seq<Arg>, key: string, value: Arg)
    requires |kv| % 2 == 0
    ensures WithFields(fields, kv + [Str(key), value]) == WithFields(fields, kv)[key := Show(value)]
  {
    var n := |kv| / 2;
    var all := kv + [Str(key), value];
    assert |all| / 2 == n + 1;
    assert all[2 * n] == Str(key) && all[2 * n + 1] == value;
    PairsPrefix(fields, kv, [Str(key), value], n);
  }

  /** " key=value" for each pair, as `log` writes an inline pair or a stored field. */
  function FieldText(key: string, value: string): string {
    " " + key + "=" + value
  }

  /** The inline part of a line: the first `n` pairs whose key is a string, in order. */
  function InlineText(kv: seq<Arg>, n: nat): string
    requires 2 * n <= |kv|
  {
    if n == 0 then ""
    else
      var before := InlineText(kv, n - 1);
      match kv[2 * n - 2]
      case Str(key) => before + FieldText(key, Show(kv[2 * n - 1]))
      case Other(_) => before
  }

  /** The stored fields in the order `order` lists their keys. */
  function StoredText(order: seq<string>, fields: map<string, string>): string
    requires forall k :: k in order ==> k in fields
  {
    if order == [] then ""
    else StoredText(order[..|order| - 1], fields) + FieldText(order[|order| - 1], fields[order[|order| - 1]])
  }

  /** `order` lists each key of `keys` once: a map's iteration order. */
  ghost predicate IsOrdering(order: seq<string>, keys: set<string>) {
    && |order| == |keys|
    && (forall k :: k in order <==> k in keys)
  }

  /** `time.Format("15:04:05")` of a clock reading. */
  function Timestamp(c: Clock.Reading): (t: string)
    ensures |t| == 8 && t[2] == ':' && t[5] == ':'
    ensures Digits(t[0..2]) == c.hour && Digits(t[3..5]) == c.minute && Digits(t[6..8]) == c.second
  {
    TwoDigits(c.hour) + ":" + TwoDigits(c.minute) + ":" + TwoDigits(c.second)
  }

  function TwoDigits(n: int): (r: string)
    requires 0 <= n < 100
    ensures |r| == 2 && '0' <= r[0] <= '9' && '0' <= r[1] <= '9'
    ensures Digits(r) == n
  {
    [(48 + n / 10) as char, (48 + n % 10) as char]
  }

  /** The value of two decimal digits. */
  function Digits(r: string): int
    requires |r| == 2
  {
    (r[0] as int - 48) * 10 + (r[1] as int - 48)
  }

  /** The line `log` writes, given the order in which the stored fields were visited. */
  function Line(ts: string, at: Level, msg: string, order: seq<string>, fields: map<string, string>, kv: seq<Arg>): string
    requires forall k :: k in order ==> k in fields
  {
    ts + " " + LevelName(at) + " " + msg + StoredText(order, fields) + InlineText(kv, |kv| / 2)
  }

  /** `line` is what `log` writes for some iteration order of the stored fields. */
  ghost predicate Renders(line: string, ts: string, at: Level, msg: string, fields: map<string, string>, kv: seq<Arg>) {
    exists order :: IsOrdering(order, fields.Keys) && line == Line(ts, at, msg, order, fields, kv)
  }

  lemma {:induction false} StoredTextShows(order: seq<string>, fields: map<string, string>, k: string)
    requires forall x :: x in order ==> x in fields
    requires k in order
    ensures Contains(StoredText(order, fields), FieldText(k, fields[k]))
  {
    var init := order[..|order| - 1];
    var last := order[|order| - 1];
    if k == last {
      ContainsExtend(FieldText(k, fields[k]), StoredText(init, fields), FieldText(k, fields[k])) by {
        ContainsSelf(FieldText(k, fields[k]));
      }
    } else {
      assert k in init;
      StoredTextShows(init, fields, k);
      ContainsExtend(StoredText(init, fields), FieldText(last, fields[last]), FieldText(k, fields[k]));
    }
  }

  /** Every stored field appears in every line, whatever the iteration order, after the message. */
  lemma RenderedShowsFields(line: string, ts: string, at: Level, msg: string, fields: map<string, string>, kv: seq<Arg>, k: string)
    requires Renders(line, ts, at, msg, fields, kv)
    requires k in fields
    ensures HasPrefix(line, ts + " " + LevelName(at) + " " + msg)
    ensures Contains(line, FieldText(k, fields[k]))
  {
    var order :| IsOrdering(order, fields.Keys) && line == Line(ts, at, msg, order, fields, kv);
    var head := ts + " " + LevelName(at) + " " + msg;
    var stored := StoredText(order, fields);
    var inline := InlineText(kv, |kv| / 2);
    assert line == head + stored + inline;
    assert (head + stored + inline)[..|head|] == head;
    StoredTextShows(order, fields, k);
    ContainsExtend(stored, head, FieldText(k, fields[k]));
    ContainsExtend(head + stored, inline, FieldText(k, fields[k]));
  }

  /** `after` is `before` with one line added that renders the message. */
  ghost predicate Appended(before: seq<string>, after: seq<string>, ts: string, at: Level, msg: string, fields: map<string, string>, kv: seq<Arg>) {
    && |after| == |before| + 1
    && after[..|before|] == before
    && Renders(after[|before|], ts, at, msg, fields, kv)
  }

  /** The writer a logger and the loggers made from it by `With` share. */
  class Sink {
    var lines: seq<string>

    constructor ()
      ensures lines == []
    {
      lines := [];
    }
  }

  class Logger {
    const level: Level
    const output: Sink
    var fields: map<string, string>

    /** `New`: the parsed level, no fields. */
    constructor (level: string, output: Sink)
      ensures this.level == ParseLevel(level) && this.output == output && fields == map[]
    {
      this.level := ParseLevel(level);
      this.output := output;
      fields := map[];
    }

    /** A logger with the given parts; `With` builds its result with it. */
    constructor Derived(level: Level, output: Sink, fields: map<string, string>)
      ensures this.level == level && this.output == output && this.fields == fields
    {
      this.level := level;
      this.output := output;
      this.fields := fields;
    }

    /** `With`: a new logger over the same writer; this one is unchanged. */
    method With(kv: seq<Arg>) returns (child: Logger)
      ensures fresh(child)
      ensures child.level == level && child.output == output
      ensures child.fields == WithFields(fields, kv)
    {
      var fs := fields;
      var i := 0;
      while i < |kv| - 1
        invariant 0 <= i <= |kv| && i % 2 == 0
        decreases |kv| - i
        invariant fs == Pairs(fields, kv, i / 2)
      {
        assert 2 * ((i + 2) / 2) - 2 == i;
        if kv[i].Str? {
          fs := fs[kv[i].s := Show(kv[i + 1])];
        }
        i := i + 2;
      }
      assert i / 2 == |kv| / 2;
      child := new Logger.Derived(level, output, fs);
    }

    /** The stored fields, visited in the map's iteration order. */
    method StoredFields() returns (text: string, ghost order: seq<string>)
      ensures IsOrdering(order, fields.Keys)
      ensures forall k :: k in order ==> k in fields
      ensures text == StoredText(order, fields)
    {
      text := "";
      order := [];
      var remaining := fields.Keys;
      while remaining != {}
        invariant remaining <= fields.Keys
        invariant |order| + |remaining| == |fields|
        invariant forall k :: k in order <==> k in fields && k !in remaining
        invariant text == StoredText(order, fields)
        decreases |remaining|
      {
        var k :| k in remaining;
        assert (order + [k])[..|order|] == order;
        text := text + FieldText(k, fields[k]);
        order := order + [k];
        remaining := remaining - {k};
      }
    }

    /** The inline pairs, in order. */
    method InlineFields(kv: seq<Arg>) returns (text: string)
      ensures text == InlineText(kv, |kv| / 2)
    {
      text := "";
      var i := 0;
      while i < |kv| - 1
        invariant 0 <= i <= |kv| && i % 2 == 0
        decreases |kv| - i
        invariant text == InlineText(kv, i / 2)
      {
        assert 2 * ((i + 2) / 2) - 2 == i;
        if kv[i].Str? {
          text := text + FieldText(kv[i].s, Show(kv[i + 1]));
        }
        i := i + 2;
      }
      assert i / 2 == |kv| / 2;
    }

    /** `log` behind the level check of `Debug`, `Info`, `Warn` and `Error`: at most one line is added. */
    method Log(at: Level, msg: string, kv: seq<Arg>, now: Clock.Reading)
      modifies output
      ensures !Enabled(level, at) ==> output.lines == old(output.lines)
      ensures Enabled(level, at) ==> Appended(old(output.lines), output.lines, Timestamp(now), at, msg, fields, kv)
    {
      if Enabled(level, at) {
        var stored, order := StoredFields();
        var inline := InlineFields(kv);
        var line := Timestamp(now) + " " + LevelName(at) + " " + msg + stored + inline;
        assert line == Line(Timestamp(now), at, msg, order, fields, kv);
        output.lines := output.lines + [line];
      }
    }

    method Debug(msg: string, kv: seq<Arg>, now: Clock.Reading)
      modifies output
      ensures !(level == Level.Debug) ==> output.lines == old(output.lines)
      ensures level == Level.Debug ==> Appended(old(output.lines), output.lines, Timestamp(now), Level.Debug, msg, fields, kv)
    {
      Log(Level.Debug, msg, kv, now);
    }

    method Info(msg: string, kv: seq<Arg>, now: Clock.Reading)
      modifies output
      ensures !(level != Level.Warn && level != Level.Error) ==> output.lines == old(output.lines)
      ensures level != Level.Warn && level != Level.Error ==> Appended(old(output.lines), output.lines, Timestamp(now), Level.Info, msg, fields, kv)
    {
      Log(Level.Info, msg, kv, now);
    }

    method Warn(msg: string, kv: seq<Arg>, now: Clock.Reading)
      modifies output
      ensures !(level != Level.Error) ==> output.lines == old(output.lines)
      ensures level != Level.Error ==> Appended(old(output.lines), output.lines, Timestamp(now), Level.Warn, msg, fields, kv)
    {
      Log(Level.Warn, msg, kv, now);
    }

    method Error(msg: string, kv: seq<Arg>, now: Clock.Reading)
      modifies output
      ensures Appended(old(output.lines), output.lines, Timestamp(now), Level.Error, msg, fields, kv)
    {
      Log(Level.Error, msg, kv, now);
    }
  }
}
