/**
 * Go's counting idiom `m[k]++` on a `map[string]int`: a missing key counts
 * as 0. `Counts(xs)` is the map such a loop builds over `xs`, and the lemmas
 * say what it holds: a key for each value that occurs, the number of its
 * occurrences, and counts that add up to the number of values.
 */
module Tally {
  /** `m[k]++`. */
  function Bump(m: map<string, int>, k: string): (r: map<string, int>)
    ensures r.Keys == m.Keys + {k}
    ensures r[k] == (if k in m then m[k] else 0) + 1
    ensures forall j :: j in m && j != k ==> r[j] == m[j]
  {
    m[k := (if k in m then m[k] else 0) + 1]
  }

  /** The counts of a loop that bumps each value of `xs` in turn. */
  function Counts(xs: seq<string>): map<string, int> {
    if xs == [] then map[] else Bump(Counts(xs[..|xs| - 1]), xs[|xs| - 1])
  }

  /** One more value bumps its count. */
  lemma CountsSnoc(xs: seq<string>, x: string)
    ensures Counts(xs + [x]) == Bump(Counts(xs), x)
  {
    assert (xs + [x])[..|xs|] == xs;
  }

  /** A value has a count exactly when it occurs, and its count is its number of occurrences. */
  lemma {:induction false} CountsOccurrences(xs: seq<string>)
    ensures forall k :: k in Counts(xs) <==> k in xs
    ensures forall k :: k in Counts(xs) ==> Counts(xs)[k] == multiset(xs)[k]
    decreases |xs|
  {
    if xs != [] {
      var init := xs[..|xs| - 1];
      CountsOccurrences(init);
      assert xs == init + [xs[|xs| - 1]];
    }
  }

  /** The distinct values of `xs`, in order of first occurrence. */
  function Distinct(xs: seq<string>): seq<string> {
    if xs == [] then []
    else
      var ds := Distinct(xs[..|xs| - 1]);
      if xs[|xs| - 1] in ds then ds else ds + [xs[|xs| - 1]]
  }

  predicate NoDuplicates(ks: seq<string>) {
    forall i, j :: 0 <= i < j < |ks| ==> ks[i] != ks[j]
  }

  /** `Distinct` lists every value once. */
  lemma {:induction false} DistinctValues(xs: seq<string>)
    ensures forall k :: k in Distinct(xs) <==> k in xs
    ensures NoDuplicates(Distinct(xs))
    decreases |xs|
  {
    if xs != [] {
      var init := xs[..|xs| - 1];
      DistinctValues(init);
      assert xs == init + [xs[|xs| - 1]];
    }
  }

  /** The counts of the keys `ks`, added up; a missing key adds nothing. */
  function SumOver(m: map<string, int>, ks: seq<string>): int {
    if ks == [] then 0 else SumOver(m, ks[..|ks| - 1]) + (if ks[|ks| - 1] in m then m[ks[|ks| - 1]] else 0)
  }

  /** Bumping `k` adds one to a sum over keys that list `k` once, and nothing to one without it. */
  lemma {:induction false} SumOverBump(m: map<string, int>, k: string, ks: seq<string>)
    requires NoDuplicates(ks)
    ensures SumOver(Bump(m, k), ks) == SumOver(m, ks) + (if k in ks then 1 else 0)
    decreases |ks|
  {
    if ks != [] {
      var init := ks[..|ks| - 1];
      assert NoDuplicates(init);
      SumOverBump(m, k, init);
      assert k in ks <==> k in init || k == ks[|ks| - 1];
      if k == ks[|ks| - 1] {
        assert k !in init;
      }
    }
  }

  /** A key the map lacks adds nothing to a sum. */
  lemma SumOverMissing(m: map<string, int>, ks: seq<string>, k: string)
    requires k !in m
    ensures SumOver(m, ks + [k]) == SumOver(m, ks)
  {
    assert (ks + [k])[..|ks|] == ks;
  }

  /** The counts, taken over the distinct values, add up to the number of values. */
  lemma {:induction false} CountsSum(xs: seq<string>)
    ensures SumOver(Counts(xs), Distinct(xs)) == |xs|
    decreases |xs|
  {
    if xs != [] {
      var init := xs[..|xs| - 1];
      var k := xs[|xs| - 1];
      var ds := Distinct(init);
      CountsSum(init);
      DistinctValues(init);
      DistinctValues(xs);
      CountsOccurrences(init);
      SumOverBump(Counts(init), k, Distinct(xs));
      if k !in ds {
        SumOverMissing(Counts(init), ds, k);
      }
    }
  }
}
