/**
 * The array methods of JavaScript that the data layer uses (filter, findIndex,
 * find, an in-place write at the index findIndex gives), the string methods
 * indexOf and lastIndexOf, which serve only the computed e-mail check
 * (ClientForm.IsValidEmail),
 * together with the order-preserving de-duplication that the keys of a
 * JavaScript object built by insertion exhibit.
 */
module Seqs {
  import opened Wrappers

  /** r consists of some of the elements of s, in the order they have in s. */
  ghost predicate IsSubsequence<T>(r: seq<T>, s: seq<T>)
    decreases |s|
  {
    || r == []
    || (&& s != []
        && (|| IsSubsequence(r, s[..|s| - 1])
            || (r[|r| - 1] == s[|s| - 1] && IsSubsequence(r[..|r| - 1], s[..|s| - 1]))))
  }

  /** No element occurs twice. */
  ghost predicate Distinct<T>(s: seq<T>) {
    forall i, j :: 0 <= i < j < |s| ==> s[i] != s[j]
  }

  /** The negation of a test, as a test. */
  function Not<T>(p: T -> bool): T -> bool {
    x => !p(x)
  }

  /** `s.filter(p)`: exactly the elements that pass `p`, each as often as in `s`, in their order. */
  function Filter<T(!new)>(s: seq<T>, p: T -> bool): (r: seq<T>)
    ensures |r| <= |s|
    ensures forall x :: x in r ==> p(x)
    ensures forall x :: multiset(r)[x] == if p(x) then multiset(s)[x] else 0
    ensures IsSubsequence(r, s)
    decreases |s|
  {
    if s == [] then []
    else
      var init, last := s[..|s| - 1], s[|s| - 1];
      assert s == init + [last];
      var kept := Filter(init, p);
      if p(last) then
        assert (kept + [last])[..|kept|] == kept;
        kept + [last]
      else kept
  }

  /** Filtering a concatenation filters each part. */
  lemma {:induction false} FilterAppend<T(!new)>(a: seq<T>, b: seq<T>, p: T -> bool)
    ensures Filter(a + b, p) == Filter(a, p) + Filter(b, p)
    decreases |b|
  {
    if b == [] {
      assert a + b == a;
    } else {
      var b' := b[..|b| - 1];
      assert (a + b)[..|a + b| - 1] == a + b';
      assert (a + b)[|a + b| - 1] == b[|b| - 1];
      FilterAppend(a, b', p);
    }
  }

  /** Filtering keeps a sequence whose every element passes. */
  lemma {:induction false} FilterKeepsAll<T(!new)>(s: seq<T>, p: T -> bool)
    requires forall x :: x in s ==> p(x)
    ensures Filter(s, p) == s
    decreases |s|
  {
    if s != [] {
      assert s == s[..|s| - 1] + [s[|s| - 1]];
      FilterKeepsAll(s[..|s| - 1], p);
    }
  }

  /** A second filter with the same test changes nothing. */
  lemma FilterIdempotent<T(!new)>(s: seq<T>, p: T -> bool)
    ensures Filter(Filter(s, p), p) == Filter(s, p)
  {
    FilterKeepsAll(Filter(s, p), p);
  }

  /** `s.findIndex(p)`: the first index whose element passes, or -1 when none does. */
  function FindIndex<T>(s: seq<T>, p: T -> bool): (r: int)
    ensures -1 <= r < |s|
    ensures r == -1 ==> forall k :: 0 <= k < |s| ==> !p(s[k])
    ensures 0 <= r ==> p(s[r]) && forall k :: 0 <= k < r ==> !p(s[k])
  {
    if s == [] then -1
    else if p(s[0]) then 0
    else
      var k := FindIndex(s[1..], p);
      if k == -1 then -1 else k + 1
  }

  /** `s.find(p)`: the first element that passes, or nothing. */
  function Find<T>(s: seq<T>, p: T -> bool): (r: Option<T>)
    ensures r.None? <==> forall k :: 0 <= k < |s| ==> !p(s[k])
    ensures r.Some? ==> exists k :: 0 <= k < |s| && s[k] == r.value && p(s[k]) && forall j :: 0 <= j < k ==> !p(s[j])
  {
    var k := FindIndex(s, p);
    if k == -1 then None else Some(s[k])
  }

  /** The first element that passes is replaced by `x`; a sequence without one is returned as it is. */
  function ReplaceFirst<T>(s: seq<T>, p: T -> bool, x: T): (r: seq<T>)
    ensures |r| == |s|
    ensures FindIndex(s, p) == -1 ==> r == s
    ensures FindIndex(s, p) != -1 ==> r == s[FindIndex(s, p) := x]
  {
    if s == [] then []
    else if p(s[0]) then [x] + s[1..]
    else [s[0]] + ReplaceFirst(s[1..], p, x)
  }

  /** `s.indexOf(x)`: the first index holding `x`, or -1. */
  function IndexOf<T(==)>(s: seq<T>, x: T): (r: int)
    ensures -1 <= r < |s|
    ensures r == -1 <==> x !in s
    ensures 0 <= r ==> s[r] == x && x !in s[..r]
  {
    if s == [] then -1
    else if s[0] == x then 0
    else
      var k := IndexOf(s[1..], x);
      assert k >= 0 ==> s[..k + 1] == [s[0]] + s[1..][..k];
      if k == -1 then -1 else k + 1
  }

  /** `s.lastIndexOf(x)`: the last index holding `x`, or -1. */
  function LastIndexOf<T(==)>(s: seq<T>, x: T): (r: int)
    ensures -1 <= r < |s|
    ensures r == -1 <==> x !in s
    ensures 0 <= r ==> s[r] == x && x !in s[r + 1..]
    decreases |s|
  {
    if s == [] then -1
    else if s[|s| - 1] == x then |s| - 1
    else
      assert s == s[..|s| - 1] + [s[|s| - 1]];
      var k := LastIndexOf(s[..|s| - 1], x);
      assert k >= 0 ==> s[k + 1..] == s[..|s| - 1][k + 1..] + [s[|s| - 1]];
      k
  }

  /** An index that holds `x`, with no `x` before it, is the one `IndexOf` finds. */
  lemma IndexOfIs<T>(s: seq<T>, x: T, i: int)
    requires 0 <= i < |s| && s[i] == x && x !in s[..i]
    ensures IndexOf(s, x) == i
  {
    var r := IndexOf(s, x);
    assert forall k :: 0 <= k < i ==> s[k] != x by {
      forall k | 0 <= k < i ensures s[k] != x { assert s[..i][k] == s[k]; }
    }
    assert forall k :: 0 <= k < r ==> s[k] != x by {
      forall k | 0 <= k < r ensures s[k] != x { assert s[..r][k] == s[k]; }
    }
  }

  /** An index that holds `x`, with no `x` after it, is the one `LastIndexOf` finds. */
  lemma LastIndexOfIs<T>(s: seq<T>, x: T, i: int)
    requires 0 <= i < |s| && s[i] == x && x !in s[i + 1..]
    ensures LastIndexOf(s, x) == i
  {
    var r := LastIndexOf(s, x);
    assert forall k :: i < k < |s| ==> s[k] != x by {
      forall k | i < k < |s| ensures s[k] != x { assert s[i + 1..][k - i - 1] == s[k]; }
    }
    assert forall k :: r < k < |s| ==> s[k] != x by {
      forall k | r < k < |s| ensures s[k] != x { assert s[r + 1..][k - r - 1] == s[k]; }
    }
  }

  /** An element already present keeps its first index when more is appended. */
  lemma IndexOfAppend<T>(s: seq<T>, t: seq<T>, y: T)
    requires y in s
    ensures IndexOf(s + t, y) == IndexOf(s, y)
  {
    var q, r := IndexOf(s, y), IndexOf(s + t, y);
    assert forall k :: 0 <= k < q ==> s[k] != s[q] by {
      forall k | 0 <= k < q ensures s[k] != s[q] { assert s[..q][k] == s[k]; }
    }
    assert (s + t)[q] == y;
    assert forall k :: 0 <= k < r ==> (s + t)[k] != y by {
      forall k | 0 <= k < r ensures (s + t)[k] != y { assert (s + t)[..r][k] == (s + t)[k]; }
    }
  }

  /** The distinct elements of `s`, each where it first occurs. */
  function Dedup<T(==,!new)>(s: seq<T>): (r: seq<T>)
    ensures forall x :: x in r <==> x in s
    ensures Distinct(r)
    decreases |s|
  {
    if s == [] then []
    else
      var init, last := s[..|s| - 1], s[|s| - 1];
      assert s == init + [last];
      var kept := Dedup(init);
      if last in kept then kept else kept + [last]
  }

  /** The elements of Dedup(s) come in the order of their first occurrences in s. */
  lemma {:induction false} DedupFirstOccurrenceOrder<T(!new)>(s: seq<T>)
    ensures forall i, j :: 0 <= i < j < |Dedup(s)| ==> IndexOf(s, Dedup(s)[i]) < IndexOf(s, Dedup(s)[j])
    decreases |s|
  {
    if s != [] {
      var init, last := s[..|s| - 1], s[|s| - 1];
      assert s == init + [last];
      DedupFirstOccurrenceOrder(init);
      var d := Dedup(init);
      forall y | y in d ensures IndexOf(s, y) == IndexOf(init, y) {
        IndexOfAppend(init, [last], y);
      }
      if last !in d {
        assert IndexOf(s, last) == |init|;
        assert Dedup(s) == d + [last];
      }
    }
  }
}
