/**
 * Go's `sort.Slice`: the slice is reordered in place so that no element is
 * followed by one its `less` function puts before it. `sort.Slice` is not
 * stable and its algorithm is not part of its contract, so the model sorts
 * by exchanges and promises only what `sort.Slice` promises: the result is
 * a permutation of the input, ordered by `le`, where `le(x, y)` is
 * `!less(y, x)`.
 */
module Sorting {
  /** `le` orders every pair, and transitively. */
  ghost predicate TotalPreorder<T(!new)>(le: (T, T) -> bool) {
    && (forall x, y :: le(x, y) || le(y, x))
    && (forall x, y, z :: le(x, y) && le(y, z) ==> le(x, z))
  }

  predicate SortedBy<T>(s: seq<T>, le: (T, T) -> bool) {
    forall i, j :: 0 <= i < j < |s| ==> le(s[i], s[j])
  }

  /** Every element before `i` comes, by `le`, before every element after it. */
  predicate PlacedBefore<T>(a: array<T>, i: int, le: (T, T) -> bool)
    reads a
  {
    forall k, m :: 0 <= k < m < a.Length && k < i ==> le(a[k], a[m])
  }

  /** `sort.Slice(a, less)`, with `le(x, y) == !less(y, x)`. */
  method SortSlice<T(!new)>(a: array<T>, le: (T, T) -> bool)
    requires TotalPreorder(le)
    modifies a
    ensures SortedBy(a[..], le)
    ensures multiset(a[..]) == multiset(old(a[..]))
  {
    var i := 0;
    while i + 1 < a.Length
      invariant 0 <= i <= a.Length
      invariant multiset(a[..]) == multiset(old(a[..]))
      invariant PlacedBefore(a, i, le)
    {
      PlaceFirst(a, i, le);
      i := i + 1;
    }
    assert PlacedBefore(a, a.Length, le) by {
      if a.Length > 0 {
        assert PlacedBefore(a, a.Length - 1, le);
      }
    }
  }

  /** The element `le` puts first among those from `i` on is exchanged into place `i`. */
  method PlaceFirst<T(!new)>(a: array<T>, i: int, le: (T, T) -> bool)
    requires TotalPreorder(le)
    requires 0 <= i < a.Length && PlacedBefore(a, i, le)
    modifies a
    ensures PlacedBefore(a, i + 1, le)
    ensures multiset(a[..]) == multiset(old(a[..]))
  {
    var j := i + 1;
    while j < a.Length
      invariant i < j <= a.Length
      invariant multiset(a[..]) == multiset(old(a[..]))
      invariant PlacedBefore(a, i, le)
      invariant forall m :: i < m < j ==> le(a[i], a[m])
    {
      if !le(a[i], a[j]) {
        Exchange(a, i, j, le);
      }
      j := j + 1;
    }
  }

  /** Exchanging `a[i]` with a later `a[j]` that `le` puts first keeps everything placed. */
  method Exchange<T(!new)>(a: array<T>, i: int, j: int, le: (T, T) -> bool)
    requires TotalPreorder(le)
    requires 0 <= i < j < a.Length && PlacedBefore(a, i, le) && !le(a[i], a[j])
    requires forall m :: i < m < j ==> le(a[i], a[m])
    modifies a
    ensures PlacedBefore(a, i, le)
    ensures forall m :: i < m <= j ==> le(a[i], a[m])
    ensures multiset(a[..]) == multiset(old(a[..]))
  {
    assert le(a[j], a[i]);
    a[i], a[j] := a[j], a[i];
  }

  /** After sorting, everything kept in a prefix comes before everything cut off. */
  lemma PrefixFirst<T>(s: seq<T>, n: nat, le: (T, T) -> bool)
    requires SortedBy(s, le) && n <= |s|
    ensures forall x, y :: x in s[..n] && y in s[n..] ==> le(x, y)
  {
    forall x, y | x in s[..n] && y in s[n..]
      ensures le(x, y)
    {
      var i :| 0 <= i < n && s[..n][i] == x;
      var j :| 0 <= j < |s| - n && s[n..][j] == y;
      assert s[i] == x && s[n + j] == y;
    }
  }

  /** No two positions hold the same element exactly when no element occurs twice. */
  lemma {:induction false} DistinctElements<T>(s: seq<T>)
    ensures (forall i, j :: 0 <= i < j < |s| ==> s[i] != s[j]) <==> (forall x :: multiset(s)[x] <= 1)
    decreases |s|
  {
    if s != [] {
      var rest := s[1..];
      DistinctElements(rest);
      assert s == [s[0]] + rest;
      assert multiset(s) == multiset{s[0]} + multiset(rest);
      if forall i, j :: 0 <= i < j < |s| ==> s[i] != s[j] {
        assert forall i, j :: 0 <= i < j < |rest| ==> rest[i] != rest[j] by {
          forall i, j | 0 <= i < j < |rest| ensures rest[i] != rest[j] {
            assert rest[i] == s[i + 1] && rest[j] == s[j + 1];
          }
        }
        assert s[0] !in rest;
      }
      if forall x :: multiset(s)[x] <= 1 {
        assert forall x :: multiset(rest)[x] <= 1 by {
          forall x ensures multiset(rest)[x] <= 1 {
            assert multiset(s)[x] <= 1;
          }
        }
        assert multiset(rest)[s[0]] == 0 by {
          assert multiset(s)[s[0]] <= 1;
        }
        forall i, j | 0 <= i < j < |s|
          ensures s[i] != s[j]
        {
          if i == 0 {
            assert s[j] == rest[j - 1];
            assert s[j] in rest;
          } else {
            assert s[i] == rest[i - 1] && s[j] == rest[j - 1];
          }
        }
      }
    }
  }

  /** Sequences with the same elements, counted, have the same length and members. */
  lemma SamePermutation<T>(a: seq<T>, b: seq<T>)
    requires multiset(a) == multiset(b)
    ensures |a| == |b|
    ensures forall x :: x in a <==> x in b
  {
    assert |multiset(a)| == |multiset(b)|;
    forall x ensures x in a <==> x in b {
      assert x in a <==> x in multiset(a);
      assert x in b <==> x in multiset(b);
    }
  }

  /** A prefix of a sorted sequence is sorted. */
  lemma SortedPrefix<T>(s: seq<T>, n: nat, le: (T, T) -> bool)
    requires SortedBy(s, le) && n <= |s|
    ensures SortedBy(s[..n], le)
  {
    forall i, j | 0 <= i < j < n
      ensures le(s[..n][i], s[..n][j])
    {
      assert s[..n][i] == s[i] && s[..n][j] == s[j];
    }
  }
}
