/**
 * Go's `path/filepath` on Unix, purely lexical: `IsAbs`, `Clean` and `Join`.
 * A path is split into '/'-separated elements; cleaning drops empty and "."
 * elements, lets ".." cancel the name before it, keeps leading ".." of a
 * relative path and discards those that would climb above the root.
 */
module FilePath {
  import opened GoStrings

  predicate IsAbs(p: string) {
    |p| > 0 && p[0] == '/'
  }

  /** One element of `Clean`'s scan, applied to the elements kept so far. */
  function Step(st: seq<string>, s: string, rooted: bool): seq<string> {
    if s == "" || s == "." then st
    else if s == ".." then
      (if |st| > 0 && st[|st| - 1] != ".." then st[..|st| - 1]
       else if rooted then st
       else st + [".."])
    else st + [s]
  }

  /** `Step` over every element of `segs`, left to right. */
  function Fold(st: seq<string>, segs: seq<string>, rooted: bool): seq<string>
    decreases |segs|
  {
    if segs == [] then st
    else Step(Fold(st, segs[..|segs| - 1], rooted), segs[|segs| - 1], rooted)
  }

  /** The elements `Clean` keeps for `p`. */
  function Elements(p: string): seq<string> {
    Fold([], Split(p, '/'), IsAbs(p))
  }

  /** `filepath.Clean`. */
  function Clean(p: string): string {
    var st := Elements(p);
    if IsAbs(p) then "/" + Join(st, "/")
    else if st == [] then "."
    else Join(st, "/")
  }

  /** The elements of `parts` that are not empty, in order. */
  function NonEmpty(parts: seq<string>): (r: seq<string>)
    ensures forall i :: 0 <= i < |r| ==> r[i] != ""
  {
    if parts == [] then []
    else if parts[0] == "" then NonEmpty(parts[1..])
    else [parts[0]] + NonEmpty(parts[1..])
  }

  /** `filepath.Join(parts...)`: empty elements are skipped, the result is cleaned. */
  function JoinAll(parts: seq<string>): string {
    var ne := NonEmpty(parts);
    if ne == [] then "" else Clean(Join(ne, "/"))
  }

  /** `filepath.Dir`: everything before the last separator, cleaned. */
  function Dir(p: string): string {
    Clean(p[..LastIndex(p, "/") + 1])
  }

  /** `filepath.Ext`: the suffix from the last '.' of the last element, or "" when that element has none. */
  function Ext(p: string): string {
    if p == [] || p[|p| - 1] == '/' then ""
    else if p[|p| - 1] == '.' then "."
    else
      var e := Ext(p[..|p| - 1]);
      if e == "" then "" else e + [p[|p| - 1]]
  }

  /** A non-empty extension is a suffix of the path. */
  lemma {:induction false} ExtIsSuffix(p: string)
    requires Ext(p) != ""
    ensures HasSuffix(p, Ext(p)) && Ext(p)[0] == '.'
    decreases |p|
  {
    if p[|p| - 1] != '.' {
      var init := p[..|p| - 1];
      ExtIsSuffix(init);
      assert p == init + [p[|p| - 1]];
    }
  }

  /** A name ending in '.' and a word free of '.' and '/' has that extension. */
  lemma {:induction false} ExtOfWord(q: string, w: string)
    requires '.' !in w && '/' !in w
    ensures Ext(q + "." + w) == "." + w
    decreases |w|
  {
    if w != [] {
      var init := w[..|w| - 1];
      ExtOfWord(q, init);
      assert (q + "." + w)[..|q + "." + w| - 1] == q + "." + init;
      assert "." + w == ("." + init) + [w[|w| - 1]];
    } else {
      assert q + "." + w == q + ".";
    }
  }

  /** A path has the extension ".log" exactly when it ends in ".log". */
  lemma ExtLog(p: string)
    ensures Ext(p) == ".log" <==> HasSuffix(p, ".log")
  {
    if Ext(p) == ".log" {
      ExtIsSuffix(p);
    }
    if HasSuffix(p, ".log") {
      var q := p[..|p| - 4];
      assert p == q + "." + "log";
      ExtOfWord(q, "log");
    }
  }

  /** `r` is `dir` itself or lies below it. */
  predicate Within(r: string, dir: string) {
    r == dir || HasPrefix(r, dir + "/") || (dir == "/" && IsAbs(r))
  }

  /** A name that `Clean` never drops or collapses. */
  predicate IsName(s: string) {
    s != "" && s != "." && s != ".." && '/' !in s
  }

  predicate NoDotDot(segs: seq<string>) {
    forall i :: 0 <= i < |segs| ==> segs[i] != ".."
  }

  /**
   * What `Fold` produces from '/'-free elements: names, preceded by ".."
   * elements only when the path is relative.
   */
  predicate Normal(st: seq<string>, rooted: bool) {
    && (forall i :: 0 <= i < |st| ==> IsName(st[i]) || st[i] == "..")
    && (forall i, j :: 0 <= i < j < |st| && st[j] == ".." ==> st[i] == "..")
    && (rooted ==> NoDotDot(st))
  }

  lemma {:induction false} FoldNormal(segs: seq<string>, rooted: bool)
    requires forall i :: 0 <= i < |segs| ==> '/' !in segs[i]
    ensures Normal(Fold([], segs, rooted), rooted)
    decreases |segs|
  {
    if segs != [] {
      FoldNormal(segs[..|segs| - 1], rooted);
    }
  }

  lemma {:induction false} FoldConcat(st: seq<string>, x: seq<string>, y: seq<string>, rooted: bool)
    ensures Fold(st, x + y, rooted) == Fold(Fold(st, x, rooted), y, rooted)
    decreases |y|
  {
    if y == [] {
      assert x + y == x;
    } else {
      assert (x + y)[..|x + y| - 1] == x + y[..|y| - 1];
      FoldConcat(st, x, y[..|y| - 1], rooted);
    }
  }

  /** Elements without ".." only ever append to what is already kept. */
  lemma {:induction false} FoldAppends(st: seq<string>, y: seq<string>, rooted: bool)
    requires NoDotDot(y)
    ensures Fold(st, y, rooted) == st + Fold([], y, rooted)
    decreases |y|
  {
    if y != [] {
      FoldAppends(st, y[..|y| - 1], rooted);
    }
  }

  lemma {:induction false} SplitConcat(a: string, b: string, sep: char)
    ensures Split(a + [sep] + b, sep) == Split(a, sep) + Split(b, sep)
    decreases |a|
  {
    var s := a + [sep] + b;
    var i := NextIndex(a, sep);
    assert forall k :: 0 <= k < |a| ==> s[k] == a[k];
    if i < |a| {
      NextIndexAt(s, sep, i);
      assert s[..i] == a[..i];
      DropConcat(a, [sep], i + 1);
      DropConcat(a + [sep], b, i + 1);
      assert Split(s, sep) == [a[..i]] + Split(a[i + 1..] + [sep] + b, sep);
      SplitConcat(a[i + 1..], b, sep);
    } else {
      NextIndexAt(s, sep, |a|);
      assert s[..|a|] == a;
      assert s[|a| + 1..] == b;
    }
  }

  /** Dropping a prefix of the first part of a concatenation. */
  lemma DropConcat(a: string, b: string, j: nat)
    requires j <= |a|
    ensures (a + b)[j..] == a[j..] + b
  {
  }

  /** The first separator is the one with none before it. */
  lemma NextIndexAt(s: string, c: char, i: nat)
    requires i < |s| && s[i] == c
    requires forall k :: 0 <= k < i ==> s[k] != c
    ensures NextIndex(s, c) == i
  {
  }

  lemma NoSeparator(s: string, sep: char)
    requires sep !in s
    ensures Split(s, sep) == [s]
  {
  }

  lemma {:induction false} JoinSplit(parts: seq<string>, sep: char)
    requires |parts| >= 1
    requires forall i :: 0 <= i < |parts| ==> sep !in parts[i]
    ensures Split(Join(parts, [sep]), sep) == parts
    decreases |parts|
  {
    NoSeparator(parts[0], sep);
    if |parts| > 1 {
      var rest := Join(parts[1..], [sep]);
      assert Join(parts, [sep]) == parts[0] + [sep] + rest;
      JoinSplit(parts[1..], sep);
      SplitConcat(parts[0], rest, sep);
    }
  }

  lemma {:induction false} JoinConcat(a: seq<string>, b: seq<string>, sep: string)
    requires |a| >= 1 && |b| >= 1
    ensures Join(a + b, sep) == Join(a, sep) + sep + Join(b, sep)
    decreases |a|
  {
    if |a| == 1 {
      assert (a + b)[1..] == b;
    } else {
      assert (a + b)[1..] == a[1..] + b;
      JoinConcat(a[1..], b, sep);
    }
  }

  /** The elements of a cleaned path, read back by splitting it. */
  lemma CleanSplit(p: string)
    ensures IsAbs(p) && Elements(p) == [] ==> Split(Clean(p), '/') == ["", ""]
    ensures IsAbs(p) && Elements(p) != [] ==> Split(Clean(p), '/') == [""] + Elements(p)
    ensures !IsAbs(p) && Elements(p) == [] ==> Split(Clean(p), '/') == ["."]
    ensures !IsAbs(p) && Elements(p) != [] ==> Split(Clean(p), '/') == Elements(p)
  {
    if IsAbs(p) && Elements(p) == [] {
      CleanSplitRoot(p);
    } else if IsAbs(p) {
      CleanSplitRooted(p);
    } else if Elements(p) == [] {
      CleanSplitDot(p);
    } else {
      CleanSplitRelative(p);
    }
  }

  lemma CleanSplitRoot(p: string)
    requires IsAbs(p) && Elements(p) == []
    ensures Split(Clean(p), '/') == ["", ""]
  {
    assert Clean(p) == "" + ['/'] + "";
    SplitConcat("", "", '/');
  }

  /** The elements `Clean` keeps contain no separator. */
  lemma ElementsNoSeparator(p: string)
    ensures forall i :: 0 <= i < |Elements(p)| ==> '/' !in Elements(p)[i]
  {
    FoldNormal(Split(p, '/'), IsAbs(p));
  }

  lemma CleanSplitRooted(p: string)
    requires IsAbs(p) && Elements(p) != []
    ensures Split(Clean(p), '/') == [""] + Elements(p)
  {
    var st := Elements(p);
    ElementsNoSeparator(p);
    JoinSplit(st, '/');
    assert Clean(p) == "" + ['/'] + Join(st, "/");
    SplitConcat("", Join(st, "/"), '/');
  }

  lemma CleanSplitDot(p: string)
    requires !IsAbs(p) && Elements(p) == []
    ensures Split(Clean(p), '/') == ["."]
  {
    assert Clean(p) == ".";
    NoSeparator(".", '/');
  }

  lemma CleanSplitRelative(p: string)
    requires !IsAbs(p) && Elements(p) != []
    ensures Split(Clean(p), '/') == Elements(p)
  {
    ElementsNoSeparator(p);
    JoinSplit(Elements(p), '/');
  }

  /** A relative path arrives at ".." only by starting with it. */
  lemma CleanNoDotDot(p: string)
    requires !HasPrefix(Clean(p), "..")
    ensures NoDotDot(Split(Clean(p), '/'))
  {
    var st := Elements(p);
    FoldNormal(Split(p, '/'), IsAbs(p));
    CleanSplit(p);
    if !IsAbs(p) && st != [] {
      RelativeNoDotDot(st);
    }
  }

  /** Normal relative elements whose join does not start with ".." hold no "..". */
  lemma RelativeNoDotDot(st: seq<string>)
    requires Normal(st, false) && st != [] && !HasPrefix(Join(st, "/"), "..")
    ensures NoDotDot(st)
  {
    JoinStarts(st);
    assert st[0] != "..";
  }

  lemma JoinStarts(st: seq<string>)
    requires st != []
    ensures HasPrefix(Join(st, "/"), st[0])
  {
    if |st| > 1 {
      assert Join(st, "/") == st[0] + ("/" + Join(st[1..], "/"));
    }
  }

  lemma CleanNotEmpty(p: string)
    ensures Clean(p) != ""
  {
    var st := Elements(p);
    FoldNormal(Split(p, '/'), IsAbs(p));
    if !IsAbs(p) && st != [] {
      assert IsName(st[0]) || st[0] == "..";
      assert |Join(st, "/")| >= |st[0]|;
    }
  }

  /** The elements kept for `dir/c` are those of `dir` followed by the scan of `c`. */
  lemma JoinElements(dir: string, c: string)
    requires IsAbs(dir)
    ensures Elements(dir + "/" + c) == Fold(Elements(dir), Split(c, '/'), true)
  {
    SplitConcat(dir, c, '/');
    assert dir + "/" + c == dir + ['/'] + c;
    assert IsAbs(dir + "/" + c);
    FoldConcat([], Split(dir, '/'), Split(c, '/'), true);
  }

  /** A path already in the form `Clean` gives is kept elements and all. */
  lemma {:induction false} FoldKeepsNormal(st: seq<string>, rooted: bool)
    requires Normal(st, rooted)
    ensures Fold([], st, rooted) == st
    decreases |st|
  {
    if st != [] {
      var init := st[..|st| - 1];
      assert Normal(init, rooted);
      FoldKeepsNormal(init, rooted);
      assert init + [st[|st| - 1]] == st;
    }
  }

  /** `Clean` is idempotent. */
  lemma CleanIdempotent(p: string)
    ensures Clean(Clean(p)) == Clean(p)
  {
    var st := Elements(p);
    var c := Clean(p);
    FoldNormal(Split(p, '/'), IsAbs(p));
    CleanSplit(p);
    if IsAbs(p) {
      assert IsAbs(c);
      if st == [] {
        assert Fold([], ["", ""], true) == [];
      } else {
        FoldConcat([], [""], st, true);
        FoldKeepsNormal(st, true);
        assert Elements(c) == st;
      }
    } else if st == [] {
      assert Elements(c) == [];
    } else {
      assert IsAbs(c) <==> st[0] == "" by {
        JoinLeading(st, "/");
      }
      FoldKeepsNormal(st, false);
      assert Elements(c) == st;
    }
  }

  lemma JoinLeading(parts: seq<string>, sep: string)
    requires |parts| >= 1 && parts[0] != ""
    ensures Join(parts, sep) != "" && Join(parts, sep)[0] == parts[0][0]
  {
  }

  /**
   * Joining a clean absolute directory with a path none of whose elements is
   * ".." stays inside that directory.
   */
  lemma JoinStaysWithin(dir: string, c: string)
    requires IsAbs(dir) && Clean(dir) == dir
    requires NoDotDot(Split(c, '/'))
    ensures Within(JoinAll([dir, c]), dir)
  {
    var sd := Elements(dir);
    if c != "" {
      JoinPairElements(dir, c);
      var f := Fold([], Split(c, '/'), true);
      if sd == [] {
      } else if f == [] {
        assert sd + f == sd;
      } else {
        JoinConcat(sd, f, "/");
        assert JoinAll([dir, c]) == dir + "/" + Join(f, "/");
      }
    } else {
      JoinEmpty(dir);
    }
  }

  /** Joining the empty path to a clean directory gives the directory. */
  lemma JoinEmpty(dir: string)
    requires dir != "" && Clean(dir) == dir
    ensures JoinAll([dir, ""]) == dir
  {
    assert [dir, ""][1..] == [""] && [""][1..] == [];
    assert NonEmpty([""]) == [];
    assert NonEmpty([dir, ""]) == [dir];
  }

  /** The join of a directory and a non-empty path without ".." is the directory's elements then the path's. */
  lemma JoinPairElements(dir: string, c: string)
    requires IsAbs(dir) && Clean(dir) == dir
    requires NoDotDot(Split(c, '/')) && c != ""
    ensures JoinAll([dir, c]) == "/" + Join(Elements(dir) + Fold([], Split(c, '/'), true), "/")
  {
    var sd := Elements(dir);
    assert [dir, c][1..] == [c] && [c][1..] == [];
    assert NonEmpty([c]) == [c];
    assert NonEmpty([dir, c]) == [dir, c];
    assert Join([dir, c], "/") == dir + "/" + c;
    JoinElements(dir, c);
    FoldAppends(sd, Split(c, '/'), true);
    assert Elements(dir + "/" + c) == sd + Fold([], Split(c, '/'), true);
  }

  /** A cleaned path that does not start with ".." stays inside any clean directory it is joined to. */
  lemma CleanedJoinStaysWithin(dir: string, p: string)
    requires IsAbs(dir) && Clean(dir) == dir
    requires !HasPrefix(Clean(p), "..")
    ensures Within(JoinAll([dir, Clean(p)]), dir)
  {
    CleanNoDotDot(p);
    JoinStaysWithin(dir, Clean(p));
  }

  /** A name joined under a clean absolute directory other than the root is appended with one separator. */
  lemma ChildPath(dir: string, name: string)
    requires IsAbs(dir) && Clean(dir) == dir && dir != "/"
    requires IsName(name)
    ensures JoinAll([dir, name]) == dir + "/" + name
  {
    var sd := Elements(dir);
    NoSeparator(name, '/');
    assert NonEmpty([name]) == [name];
    assert [dir, name][1..] == [name] && [name][1..] == [];
    assert NonEmpty([dir, name]) == [dir, name];
    assert Join([dir, name], "/") == dir + "/" + name;
    JoinElements(dir, name);
    assert Fold(sd, [name], true) == sd + [name];
    assert sd != [];
    JoinConcat(sd, [name], "/");
  }

  /** Two names joined under a clean absolute directory other than the root. */
  lemma GrandchildPath(dir: string, a: string, b: string)
    requires IsAbs(dir) && Clean(dir) == dir && dir != "/"
    requires IsName(a) && IsName(b)
    ensures JoinAll([dir, a, b]) == dir + "/" + a + "/" + b
  {
    JoinAllThree(dir, a, b);
    CleanGrandchild(dir, a, b);
    assert dir + "/" + (a + "/" + b) == dir + "/" + a + "/" + b;
  }

  /** Three non-empty parts are joined with separators and cleaned. */
  lemma JoinAllThree(dir: string, a: string, b: string)
    requires dir != "" && a != "" && b != ""
    ensures JoinAll([dir, a, b]) == Clean(dir + "/" + (a + "/" + b))
  {
    assert [dir, a, b][1..] == [a, b] && [a, b][1..] == [b] && [b][1..] == [];
    assert NonEmpty([b]) == [b];
    assert NonEmpty([a, b]) == [a, b];
    assert NonEmpty([dir, a, b]) == [dir, a, b];
    assert Join([a, b], "/") == a + "/" + b;
    assert Join([dir, a, b], "/") == dir + "/" + (a + "/" + b);
  }

  /** Two names below a clean absolute directory are already clean. */
  lemma CleanGrandchild(dir: string, a: string, b: string)
    requires IsAbs(dir) && Clean(dir) == dir && dir != "/"
    requires IsName(a) && IsName(b)
    ensures Clean(dir + "/" + (a + "/" + b)) == dir + "/" + (a + "/" + b)
  {
    var sd := Elements(dir);
    var rest := a + "/" + b;
    var p := dir + "/" + rest;
    GrandchildNames(dir, a, b);
    assert sd != [];
    JoinConcat(sd, [a, b], "/");
    assert Join([a, b], "/") == rest;
    assert dir == "/" + Join(sd, "/");
    assert IsAbs(p);
    assert Clean(p) == "/" + (Join(sd, "/") + "/" + rest);
  }

  /** Two names below a directory add two elements to it. */
  lemma GrandchildNames(dir: string, a: string, b: string)
    requires IsAbs(dir)
    requires IsName(a) && IsName(b)
    ensures Elements(dir + "/" + (a + "/" + b)) == Elements(dir) + [a, b]
  {
    var sd := Elements(dir);
    var rest := a + "/" + b;
    NoSeparator(a, '/');
    NoSeparator(b, '/');
    SplitConcat(a, b, '/');
    assert rest == a + ['/'] + b;
    assert Split(rest, '/') == [a, b];
    JoinElements(dir, rest);
    assert [a, b][..1] == [a] && [a][..0] == [];
    assert Fold(sd, [a], true) == Step(sd, a, true) == sd + [a];
    assert Fold(sd, [a, b], true) == Step(sd + [a], b, true);
  }

  lemma ChildWithin(dir: string, name: string)
    requires IsAbs(dir) && Clean(dir) == dir && dir != "/"
    requires IsName(name)
    ensures Within(JoinAll([dir, name]), dir)
  {
    ChildPath(dir, name);
    assert JoinAll([dir, name]) == (dir + "/") + name;
  }

  lemma GrandchildWithin(dir: string, a: string, b: string)
    requires IsAbs(dir) && Clean(dir) == dir && dir != "/"
    requires IsName(a) && IsName(b)
    ensures Within(JoinAll([dir, a, b]), dir)
  {
    GrandchildPath(dir, a, b);
    assert JoinAll([dir, a, b]) == (dir + "/") + (a + "/" + b);
  }
}
