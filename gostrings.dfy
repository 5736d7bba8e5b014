/**
 * Models of the Go standard-library string functions the backend relies on
 * (strings.Index, HasPrefix, Contains, TrimSpace, ...). Go strings are byte
 * strings; here a string is a `seq<char>` whose elements stand for bytes.
 */
module GoStrings {
  import opened Wrappers

  /** `sub` occurs in `s` at position `i`. */
  predicate At(s: string, sub: string, i: int) {
    0 <= i && i + |sub| <= |s| && s[i..i + |sub|] == sub
  }

  /** `strings.Index`: the least position of `sub` in `s`, or -1. */
  function Index(s: string, sub: string): (r: int)
    ensures -1 <= r <= |s|
    ensures r >= 0 ==> At(s, sub, r) && forall j :: 0 <= j < r ==> !At(s, sub, j)
    ensures r == -1 ==> forall j :: 0 <= j <= |s| ==> !At(s, sub, j)
    decreases |s|
  {
    if |s| < |sub| then -1
    else if s[..|sub|] == sub then 0
    else
      var k := Index(s[1..], sub);
      assert s[0..|sub|] == s[..|sub|];
      assert !At(s, sub, 0);
      assert forall j :: 1 <= j <= |s| ==> (At(s, sub, j) <==> At(s[1..], sub, j - 1)) by {
        forall j | 1 <= j <= |s| ensures At(s, sub, j) <==> At(s[1..], sub, j - 1) {
          AtShift(s, sub, j);
        }
      }
      if k < 0 then -1 else k + 1
  }

  lemma AtShift(s: string, sub: string, j: int)
    requires 1 <= j <= |s|
    ensures At(s, sub, j) <==> At(s[1..], sub, j - 1)
  {
    if j + |sub| <= |s| {
      var t := s[1..];
      assert forall k :: 0 <= k < |t| ==> t[k] == s[k + 1];
      assert t[j - 1..j - 1 + |sub|] == s[j..j + |sub|];
    }
  }

  /** `strings.LastIndex`: the greatest position of `sub` in `s`, or -1. */
  function LastIndex(s: string, sub: string): (r: int)
    ensures -1 <= r <= |s|
    ensures r >= 0 ==> At(s, sub, r) && forall j :: r < j <= |s| ==> !At(s, sub, j)
    ensures r == -1 ==> forall j :: 0 <= j <= |s| ==> !At(s, sub, j)
    decreases |s|
  {
    if |s| < |sub| then -1
    else if s[|s| - |sub|..] == sub then |s| - |sub|
    else
      var t := s[..|s| - 1];
      assert forall j :: 0 <= j <= |s| && j + |sub| < |s| + 1 ==> (At(s, sub, j) <==> (j + |sub| <= |s| - 1 && At(t, sub, j)) || (j == |s| - |sub| && At(s, sub, j))) by {
        forall j | 0 <= j <= |s| && j + |sub| <= |s| - 1 ensures At(s, sub, j) <==> At(t, sub, j) {
          assert s[j..j + |sub|] == t[j..j + |sub|];
        }
      }
      assert !At(s, sub, |s| - |sub|);
      LastIndex(t, sub)
  }

  predicate Contains(s: string, sub: string) {
    Index(s, sub) >= 0
  }

  predicate HasPrefix(s: string, p: string) {
    |p| <= |s| && s[..|p|] == p
  }

  predicate HasSuffix(s: string, p: string) {
    |p| <= |s| && s[|s| - |p|..] == p
  }

  /** `strings.TrimPrefix`. */
  function TrimPrefix(s: string, p: string): (r: string)
    ensures HasPrefix(s, p) ==> s == p + r
    ensures !HasPrefix(s, p) ==> r == s
  {
    if HasPrefix(s, p) then s[|p|..] else s
  }

  /** The ASCII white space `unicode.IsSpace` accepts. */
  predicate IsSpace(c: char) {
    c == ' ' || c == '\t' || c == '\n' || c == '\r' || c == '\U{B}' || c == '\U{C}'
  }

  /** The number of leading white-space bytes. */
  function LeadingSpaces(s: string): (n: nat)
    ensures n <= |s|
    ensures forall k :: 0 <= k < n ==> IsSpace(s[k])
    ensures n < |s| ==> !IsSpace(s[n])
  {
    if s != [] && IsSpace(s[0]) then 1 + LeadingSpaces(s[1..]) else 0
  }

  /** The length of `s` without its trailing white space. */
  function TrailingSpaces(s: string): (e: nat)
    ensures e <= |s|
    ensures forall k :: e <= k < |s| ==> IsSpace(s[k])
    ensures e > 0 ==> !IsSpace(s[e - 1])
  {
    if s != [] && IsSpace(s[|s| - 1]) then TrailingSpaces(s[..|s| - 1]) else |s|
  }

  /** `strings.TrimSpace` (ASCII white space only). */
  function TrimSpace(s: string): (r: string)
    ensures r != [] ==> !IsSpace(r[0]) && !IsSpace(r[|r| - 1])
  {
    var t := s[LeadingSpaces(s)..];
    t[..TrailingSpaces(t)]
  }

  /** TrimSpace removes white space at both ends and nothing else. */
  lemma TrimSpaceInner(s: string)
    ensures exists i, j ::
      && 0 <= i <= j <= |s| && TrimSpace(s) == s[i..j]
      && (forall k :: 0 <= k < i ==> IsSpace(s[k]))
      && (forall k :: j <= k < |s| ==> IsSpace(s[k]))
  {
    var i := LeadingSpaces(s);
    var t := s[i..];
    var e := TrailingSpaces(t);
    assert TrimSpace(s) == s[i..i + e];
    forall k | i + e <= k < |s| ensures IsSpace(s[k]) {
      assert s[k] == t[k - i];
    }
  }

  /** The position of the first `c` in `s`, or |s|. */
  function NextIndex(s: string, c: char): (i: nat)
    ensures i <= |s|
    ensures i < |s| ==> s[i] == c
    ensures forall k :: 0 <= k < i ==> s[k] != c
  {
    if s == [] then 0 else if s[0] == c then 0 else 1 + NextIndex(s[1..], c)
  }

  /** `strings.Split(s, string(sep))`: always at least one piece. */
  function Split(s: string, sep: char): (parts: seq<string>)
    ensures |parts| >= 1
    ensures forall p :: p in parts ==> sep !in p
    decreases |s|
  {
    var i := NextIndex(s, sep);
    if i == |s| then [s] else [s[..i]] + Split(s[i + 1..], sep)
  }

  lemma AppendAssoc<T>(a: seq<T>, b: seq<T>, c: seq<T>)
    ensures a + b + c == a + (b + c)
  {
  }

  /** `strings.Join(parts, string(sep))`. */
  function Join(parts: seq<string>, sep: string): string {
    if parts == [] then ""
    else if |parts| == 1 then parts[0]
    else parts[0] + sep + Join(parts[1..], sep)
  }

  lemma {:induction false} SplitJoin(s: string, sep: char)
    ensures Join(Split(s, sep), [sep]) == s
    decreases |s|
  {
    var i := NextIndex(s, sep);
    if i < |s| {
      SplitJoin(s[i + 1..], sep);
      var rest := Split(s[i + 1..], sep);
      assert Split(s, sep) == [s[..i]] + rest;
      assert ([s[..i]] + rest)[1..] == rest;
      assert Join(Split(s, sep), [sep]) == s[..i] + [sep] + Join(rest, [sep]);
      assert s == s[..i] + [sep] + s[i + 1..];
    }
  }

  function ToLowerChar(c: char): char {
    if 'A' <= c <= 'Z' then (c as int + 32) as char else c
  }

  function ToUpperChar(c: char): char {
    if 'a' <= c <= 'z' then (c as int - 32) as char else c
  }

  /** `strings.ToLower` on ASCII letters. */
  function ToLower(s: string): (r: string)
    ensures |r| == |s| && forall k :: 0 <= k < |s| ==> r[k] == ToLowerChar(s[k])
  {
    if s == [] then [] else [ToLowerChar(s[0])] + ToLower(s[1..])
  }

  /** `strings.ToUpper` on ASCII letters. */
  function ToUpper(s: string): (r: string)
    ensures |r| == |s| && forall k :: 0 <= k < |s| ==> r[k] == ToUpperChar(s[k])
  {
    if s == [] then [] else [ToUpperChar(s[0])] + ToUpper(s[1..])
  }

  /** `strings.Replace(s, old, new, 1)`: only the first occurrence. */
  function ReplaceFirst(s: string, pat: string, rep: string): (r: string)
    ensures Index(s, pat) < 0 ==> r == s
    ensures Index(s, pat) >= 0 ==> r == s[..Index(s, pat)] + rep + s[Index(s, pat) + |pat|..]
  {
    var i := Index(s, pat);
    if i < 0 then s else s[..i] + rep + s[i + |pat|..]
  }

  /** A prefix that ends before the first occurrence does not contain it. */
  lemma NoEarlierOccurrence(s: string, sub: string, i: int)
    requires 0 <= i <= |s| && forall j :: 0 <= j < i ==> !At(s, sub, j)
    requires sub != []
    ensures !Contains(s[..i], sub)
  {
    var p := s[..i];
    if Index(p, sub) >= 0 {
      var j := Index(p, sub);
      assert p[j..j + |sub|] == s[j..j + |sub|];
      assert At(s, sub, j);
    }
  }

  /** `ReplaceFirst` rewrites the first occurrence, before which the pattern does not occur. */
  lemma ReplaceFirstOccurrence(s: string, pat: string, rep: string)
    requires pat != [] && Contains(s, pat)
    ensures var i := Index(s, pat);
      && 0 <= i && i + |pat| <= |s|
      && ReplaceFirst(s, pat, rep) == s[..i] + rep + s[i + |pat|..]
      && !Contains(s[..i], pat)
  {
    NoEarlierOccurrence(s, pat, Index(s, pat));
  }

  /**
   * The `truncate` helper several packages define (`truncateMessage` in the
   * team package): the string itself when it fits, else its first `maxLen`
   * bytes followed by "...".
   */
  function Truncate(s: string, maxLen: nat): (r: string)
    ensures |s| <= maxLen ==> r == s
    ensures |s| > maxLen ==> |r| == maxLen + 3 && r[..maxLen] == s[..maxLen] && r[maxLen..] == "..."
  {
    if |s| <= maxLen then s else s[..maxLen] + "..."
  }

  /** `strconv.Itoa` on naturals. */
  function Itoa(n: nat): (r: string)
    ensures |r| >= 1
    ensures forall k :: 0 <= k < |r| ==> '0' <= r[k] <= '9'
  {
    if n < 10 then [(48 + n) as char] else Itoa(n / 10) + [(48 + n % 10) as char]
  }

  /** `strconv.Itoa`, and `fmt`'s `%d`, on any integer. */
  function FormatInt(i: int): (r: string)
    ensures i >= 0 ==> r == Itoa(i)
    ensures i < 0 ==> r == "-" + Itoa(-i)
  {
    if i < 0 then "-" + Itoa(-i) else Itoa(i)
  }

  /** `strconv.Atoi` on an optional '-' followed by decimal digits. */
  function Atoi(s: string): (r: Option<int>)
    ensures r.Some? ==> s != []
  {
    if s == [] then None
    else if s[0] == '-' then
      (if |s| > 1 && AllDigits(s[1..]) then Some(-(DigitsValue(s[1..]) as int)) else None)
    else if s[0] == '+' then
      (if |s| > 1 && AllDigits(s[1..]) then Some(DigitsValue(s[1..])) else None)
    else if AllDigits(s) then Some(DigitsValue(s)) else None
  }

  predicate AllDigits(s: string) {
    forall k :: 0 <= k < |s| ==> '0' <= s[k] <= '9'
  }

  function DigitsValue(s: string): nat
    requires AllDigits(s)
  {
    if s == [] then 0 else DigitsValue(s[..|s| - 1]) * 10 + (s[|s| - 1] as int - 48)
  }

  lemma {:induction false} AtoiItoa(n: nat)
    ensures AllDigits(Itoa(n)) && DigitsValue(Itoa(n)) == n
  {
    if n >= 10 {
      AtoiItoa(n / 10);
      var s := Itoa(n);
      assert s[..|s| - 1] == Itoa(n / 10);
    }
  }

  // ---------------------------------------------------------------- 64-bit integers

  const MinInt64: int := -0x8000_0000_0000_0000
  const MaxInt64: int := 0x7fff_ffff_ffff_ffff
  const TwoTo64: int := 0x1_0000_0000_0000_0000

  /** Two's-complement 64-bit wrap-around, as Go's `int64` multiplication does. */
  function Wrap64(x: int): (r: int)
    ensures MinInt64 <= r <= MaxInt64
    ensures MinInt64 <= x <= MaxInt64 ==> r == x
    ensures (x - r) % TwoTo64 == 0
  {
    var m := (x - MinInt64) % TwoTo64;
    m + MinInt64
  }

  /**
   * `strconv.ParseInt(s, 10, 64)`, and `strconv.Atoi` on a 64-bit platform:
   * no error exactly when the text is a decimal integer within the 64-bit range.
   */
  function ParseInt64(s: string): (r: Option<int>)
    ensures r.Some? ==> Atoi(s) == r && MinInt64 <= r.value <= MaxInt64
    ensures r.None? ==> Atoi(s).None? || Atoi(s).value < MinInt64 || Atoi(s).value > MaxInt64
  {
    var n := Atoi(s);
    if n.Some? && MinInt64 <= n.value <= MaxInt64 then n else None
  }

  /**
   * The number `strconv.Atoi` returns beside its error: 0 on a syntax error,
   * the nearest 64-bit bound on a range error.
   */
  function AtoiValue(s: string): (r: int)
    ensures MinInt64 <= r <= MaxInt64
    ensures ParseInt64(s).Some? ==> r == ParseInt64(s).value
    ensures Atoi(s).None? ==> r == 0
    ensures Atoi(s).Some? && Atoi(s).value > MaxInt64 ==> r == MaxInt64
    ensures Atoi(s).Some? && Atoi(s).value < MinInt64 ==> r == MinInt64
  {
    match Atoi(s)
    case None => 0
    case Some(n) => if n > MaxInt64 then MaxInt64 else if n < MinInt64 then MinInt64 else n
  }

  /** `strings.Repeat`. */
  function Repeat(s: string, n: nat): (r: string)
    ensures |r| == n * |s|
    ensures |s| == 1 ==> forall k :: 0 <= k < |r| ==> r[k] == s[0]
  {
    if n == 0 then "" else s + Repeat(s, n - 1)
  }

  /** Go's `a < b` on strings: byte-wise lexicographic order, a proper prefix first. */
  predicate Less(a: string, b: string)
    decreases |a|
  {
    if a == [] then b != []
    else if b == [] then false
    else if a[0] != b[0] then a[0] < b[0]
    else Less(a[1..], b[1..])
  }

  lemma {:induction false} LessIrreflexive(a: string)
    ensures !Less(a, a)
    decreases |a|
  {
    if a != [] {
      LessIrreflexive(a[1..]);
    }
  }

  lemma {:induction false} LessTransitive(a: string, b: string, c: string)
    requires Less(a, b) && Less(b, c)
    ensures Less(a, c)
    decreases |a|
  {
    if a != [] && b != [] && c != [] && a[0] == b[0] && b[0] == c[0] {
      LessTransitive(a[1..], b[1..], c[1..]);
    }
  }

  /** Two different strings are ordered one way. */
  lemma {:induction false} LessTotal(a: string, b: string)
    ensures a == b || Less(a, b) || Less(b, a)
    ensures !(Less(a, b) && Less(b, a))
    decreases |a|
  {
    if a != [] && b != [] && a[0] == b[0] {
      LessTotal(a[1..], b[1..]);
      if a[1..] == b[1..] {
        assert a == [a[0]] + a[1..] && b == [b[0]] + b[1..];
      }
    }
  }
  /** An occurrence survives anything written before or after it. */
  lemma ContainsExtend(a: string, b: string, x: string)
    requires Contains(a, x)
    ensures Contains(a + b, x) && Contains(b + a, x)
  {
    var j := Index(a, x);
    assert (a + b)[j..j + |x|] == a[j..j + |x|];
    assert At(a + b, x, j);
    assert (b + a)[|b| + j..|b| + j + |x|] == a[j..j + |x|];
    assert At(b + a, x, |b| + j);
  }

  lemma ContainsSelf(x: string)
    ensures Contains(x, x)
  {
    assert x[0..|x|] == x;
    assert At(x, x, 0);
  }

  /** The strings `f` gives for the elements of `xs`, one after another. */
  function Concat<T>(xs: seq<T>, f: T -> string): string {
    if xs == [] then "" else Concat(xs[..|xs| - 1], f) + f(xs[|xs| - 1])
  }

  /** Every element's string occurs in the concatenation. */
  lemma {:induction false} ConcatShows<T>(xs: seq<T>, f: T -> string, i: nat)
    requires i < |xs|
    ensures Contains(Concat(xs, f), f(xs[i]))
    decreases |xs|
  {
    var init := xs[..|xs| - 1];
    if i == |xs| - 1 {
      ContainsSelf(f(xs[i]));
      ContainsExtend(f(xs[i]), Concat(init, f), f(xs[i]));
    } else {
      ConcatShows(init, f, i);
      assert init[i] == xs[i];
      ContainsExtend(Concat(init, f), f(xs[|xs| - 1]), f(xs[i]));
    }
  }
}
