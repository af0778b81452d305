/**
 * Sequence operations that the source expresses with JavaScript array methods:
 * `filter`, `findIndex`, `sort` with a comparator, `slice(0, n)` and
 * `[...new Set(xs)]`, together with the facts the rest of the model relies on.
 */
module Seqs {
  import opened Wrappers

  // ---------------------------------------------------------------------------
  // filter

  /** `s.filter(p)`: the elements of `s` that satisfy `p`, in their order in `s`. */
  function Filter<T(==)>(p: T -> bool, s: seq<T>): (r: seq<T>)
    ensures |r| <= |s|
    ensures forall x :: x in r ==> x in s && p(x)
  {
    if s == [] then []
    else if p(s[0]) then [s[0]] + Filter(p, s[1..])
    else Filter(p, s[1..])
  }

  /** `a` can be obtained from `b` by deleting elements: `a` keeps `b`'s order. */
  predicate IsSubsequence<T(==)>(a: seq<T>, b: seq<T>)
    decreases |b|
  {
    a == [] || (b != [] && ((a[0] == b[0] && IsSubsequence(a[1..], b[1..])) || IsSubsequence(a, b[1..])))
  }

  /**
   * `r` holds exactly the elements of `s` that satisfy `p`, each as many times
   * as it occurs in `s`, and in the order they have in `s`.
   */
  ghost predicate IsSelection<T>(r: seq<T>, s: seq<T>, p: T -> bool)
  {
    && IsSubsequence(r, s)
    && (forall x | x in r :: p(x))
    && (forall x | x in s && p(x) :: multiset(r)[x] == multiset(s)[x])
  }

  lemma {:induction false} SubsequenceReflexive<T>(s: seq<T>)
    ensures IsSubsequence(s, s)
    decreases |s|
  {
    if s != [] {
      SubsequenceReflexive(s[1..]);
    }
  }

  /** Deleting one element leaves a subsequence. */
  lemma {:induction false} RemovalIsSubsequence<T>(s: seq<T>, i: nat)
    requires i < |s|
    ensures IsSubsequence(s[..i] + s[i + 1..], s)
    decreases i
  {
    if i == 0 {
      assert s[..0] + s[1..] == s[1..];
      SubsequenceReflexive(s[1..]);
    } else {
      RemovalIsSubsequence(s[1..], i - 1);
      assert (s[..i] + s[i + 1..])[1..] == s[1..][..i - 1] + s[1..][i..];
    }
  }

  lemma {:induction false} SubsequenceTransitive<T>(a: seq<T>, b: seq<T>, c: seq<T>)
    requires IsSubsequence(a, b) && IsSubsequence(b, c)
    ensures IsSubsequence(a, c)
    decreases |c|
  {
    if a != [] {
      if IsSubsequence(b, c[1..]) {
        SubsequenceTransitive(a, b, c[1..]);
      } else if IsSubsequence(a, b[1..]) {
        SubsequenceTransitive(a, b[1..], c[1..]);
      } else {
        SubsequenceTransitive(a[1..], b[1..], c[1..]);
      }
    }
  }

  /** A subsequence never holds an element more often than the sequence it comes from. */
  lemma {:induction false} SubsequenceMultiset<T>(a: seq<T>, b: seq<T>)
    requires IsSubsequence(a, b)
    ensures multiset(a) <= multiset(b)
    decreases |b|
  {
    if a != [] {
      assert b == [b[0]] + b[1..];
      if a[0] == b[0] && IsSubsequence(a[1..], b[1..]) {
        SubsequenceMultiset(a[1..], b[1..]);
        assert a == [a[0]] + a[1..];
      } else {
        SubsequenceMultiset(a, b[1..]);
      }
    }
  }

  /** `filter` selects: it keeps exactly the satisfying elements, in order. */
  lemma {:induction false} FilterSelects<T>(p: T -> bool, s: seq<T>)
    ensures IsSelection(Filter(p, s), s, p)
  {
    if s != [] {
      FilterSelects(p, s[1..]);
      assert s == [s[0]] + s[1..];
    }
  }

  /** A selection is unique: whatever satisfies `IsSelection` is `s.filter(p)`. */
  lemma {:induction false} SelectionIsFilter<T>(r: seq<T>, s: seq<T>, p: T -> bool)
    requires IsSelection(r, s, p)
    ensures r == Filter(p, s)
    decreases |s|
  {
    if s != [] {
      var y := s[0];
      assert s == [y] + s[1..];
      if p(y) {
        assert multiset(r)[y] > 0;
        if r[0] == y && IsSubsequence(r[1..], s[1..]) {
          assert r == [y] + r[1..];
          SelectionIsFilter(r[1..], s[1..], p);
        } else {
          SubsequenceMultiset(r, s[1..]);
          assert false;
        }
      } else {
        assert y !in r;
        SelectionIsFilter(r, s[1..], p);
      }
    }
  }

  /** Filtering a selection again selects by the conjunction of the two tests. */
  lemma SelectionCompose<T>(a: seq<T>, b: seq<T>, s: seq<T>, p: T -> bool, q: T -> bool, both: T -> bool)
    requires IsSelection(a, s, p) && IsSelection(b, a, q)
    requires forall x :: both(x) == (p(x) && q(x))
    ensures IsSelection(b, s, both)
  {
    SubsequenceTransitive(b, a, s);
    SubsequenceMultiset(b, a);
    forall x | x in b
      ensures both(x)
    {
      assert multiset(a)[x] >= multiset(b)[x] > 0;
    }
  }

  /** Every sequence is a selection of itself by a test all its elements pass. */
  lemma {:induction false} SelectionOfAll<T>(s: seq<T>, p: T -> bool)
    requires forall x :: x in s ==> p(x)
    ensures IsSelection(s, s, p)
  {
    FilterKeepsAll(p, s);
    FilterSelects(p, s);
  }

  /** A filter that every element passes returns the sequence unchanged. */
  lemma {:induction false} FilterKeepsAll<T>(p: T -> bool, s: seq<T>)
    requires forall x :: x in s ==> p(x)
    ensures Filter(p, s) == s
  {
    if s != [] {
      FilterKeepsAll(p, s[1..]);
    }
  }

  /** Filtering a concatenation filters each part. */
  lemma {:induction false} FilterAppend<T>(p: T -> bool, a: seq<T>, b: seq<T>)
    ensures Filter(p, a + b) == Filter(p, a) + Filter(p, b)
    decreases |a|
  {
    if a != [] {
      assert (a + b)[1..] == a[1..] + b;
      FilterAppend(p, a[1..], b);
    } else {
      assert a + b == b;
    }
  }

  /** A filter that no element passes returns nothing. */
  lemma {:induction false} FilterNone<T>(p: T -> bool, s: seq<T>)
    requires forall x :: x in s ==> !p(x)
    ensures Filter(p, s) == []
  {
    if s != [] {
      FilterNone(p, s[1..]);
    }
  }

  /** When at most one position of `s` passes `p`, the filter keeps at most one element, and one if any passes. */
  lemma {:induction false} FilterAtMostOne<T>(p: T -> bool, s: seq<T>)
    requires forall i, j :: 0 <= i < j < |s| && p(s[i]) ==> !p(s[j])
    ensures |Filter(p, s)| <= 1
    ensures (exists i :: 0 <= i < |s| && p(s[i])) ==> |Filter(p, s)| == 1
  {
    if s != [] {
      FilterAtMostOne(p, s[1..]);
      if p(s[0]) {
        forall x | x in s[1..]
          ensures !p(x)
        {
          var k :| 0 <= k < |s[1..]| && s[1..][k] == x;
          assert s[k + 1] == x;
        }
        FilterNone(p, s[1..]);
      } else if exists i :: 0 <= i < |s| && p(s[i]) {
        var i :| 0 <= i < |s| && p(s[i]);
        assert p(s[1..][i - 1]);
      }
    }
  }

  /** Two tests that agree on every element of `s` filter `s` alike. */
  lemma {:induction false} FilterExtensional<T>(p: T -> bool, q: T -> bool, s: seq<T>)
    requires forall x :: x in s ==> p(x) == q(x)
    ensures Filter(p, s) == Filter(q, s)
  {
    if s != [] {
      FilterExtensional(p, q, s[1..]);
    }
  }

  /** `s.map(f)`. */
  function Map<A, B>(f: A -> B, s: seq<A>): (r: seq<B>)
    ensures |r| == |s|
    ensures forall i :: 0 <= i < |s| ==> r[i] == f(s[i])
  {
    seq(|s|, i requires 0 <= i < |s| => f(s[i]))
  }

  /** Counting the mapped elements that pass `p` counts the elements whose image passes it (`q`). */
  lemma {:induction false} FilterMapCount<A, B>(f: A -> B, p: B -> bool, q: A -> bool, s: seq<A>)
    requires forall x :: q(x) == p(f(x))
    ensures |Filter(p, Map(f, s))| == |Filter(q, s)|
    decreases |s|
  {
    if s != [] {
      assert Map(f, s) == [f(s[0])] + Map(f, s[1..]);
      FilterMapCount(f, p, q, s[1..]);
    }
  }

  // ---------------------------------------------------------------------------
  // find / findIndex

  /** `s.findIndex(p)`, with `None` for JavaScript's `-1`. */
  function FirstIndex<T>(p: T -> bool, s: seq<T>): (r: Option<nat>)
    ensures r.Some? ==> r.value < |s| && p(s[r.value]) && forall k :: 0 <= k < r.value ==> !p(s[k])
    ensures r.None? ==> forall k :: 0 <= k < |s| ==> !p(s[k])
  {
    if s == [] then None
    else if p(s[0]) then Some(0)
    else match FirstIndex(p, s[1..])
      case None => None
      case Some(i) => Some(i + 1)
  }

  // ---------------------------------------------------------------------------
  // [...new Set(xs)]

  /** Every value occurs at most once. */
  ghost predicate NoDuplicates<T>(s: seq<T>)
  {
    forall x | x in s :: multiset(s)[x] == 1
  }

  /** The position of the first occurrence of `x` in `s`. */
  function IndexOf<T(==)>(s: seq<T>, x: T): (k: nat)
    requires x in s
    ensures k < |s| && s[k] == x && x !in s[..k]
  {
    if s[0] == x then 0
    else
      assert s[..1 + IndexOf(s[1..], x)] == [s[0]] + s[1..][..IndexOf(s[1..], x)];
      1 + IndexOf(s[1..], x)
  }

  lemma IndexOfUnique<T>(s: seq<T>, x: T, k: nat)
    requires k < |s| && s[k] == x && x !in s[..k]
    ensures IndexOf(s, x) == k
  {
    var first := IndexOf(s, x);
    forall i | 0 <= i < k
      ensures s[i] != x
    {
      assert s[..k][i] == s[i];
    }
    forall i | 0 <= i < first
      ensures s[i] != x
    {
      assert s[..first][i] == s[i];
    }
  }

  /**
   * `[...new Set(s)]`: a JavaScript Set keeps insertion order, so the result
   * lists each value of `s` once, in the order of first occurrence.
   */
  function Dedupe<T(==)>(s: seq<T>): (r: seq<T>)
    ensures NoDuplicates(r)
    ensures forall x | x in r :: x in s
    ensures forall x | x in s :: x in r
    decreases |s|
  {
    if s == [] then []
    else
      var r := Dedupe(s[..|s| - 1]);
      var y := s[|s| - 1];
      assert s == s[..|s| - 1] + [y];
      if y in r then r else r + [y]
  }

  /** The values of `Dedupe(s)` are ordered by where they first occur in `s`. */
  lemma {:induction false} DedupeFirstSeenOrder<T>(s: seq<T>)
    ensures forall i, j :: 0 <= i < j < |Dedupe(s)| ==> IndexOf(s, Dedupe(s)[i]) < IndexOf(s, Dedupe(s)[j])
    decreases |s|
  {
    if s != [] {
      var p := s[..|s| - 1];
      var y := s[|s| - 1];
      assert s == p + [y];
      DedupeFirstSeenOrder(p);
      forall x | x in p
        ensures IndexOf(s, x) == IndexOf(p, x)
      {
        var k := IndexOf(p, x);
        assert s[..k] == p[..k];
        IndexOfUnique(s, x, k);
      }
      if y !in Dedupe(p) {
        assert s[..|s| - 1] == p;
        IndexOfUnique(s, y, |s| - 1);
      }
    }
  }

  // ---------------------------------------------------------------------------
  // sort((a, b) => key(b) - key(a)) and slice(0, n)

  /** Dropping the last element of `xs + ys`, for a non-empty `ys`, drops the last element of `ys`. */
  lemma AppendInit<T>(xs: seq<T>, ys: seq<T>)
    requires ys != []
    ensures (xs + ys)[..|xs + ys| - 1] == xs + ys[..|ys| - 1]
    ensures (xs + ys)[|xs + ys| - 1] == ys[|ys| - 1]
  {
  }

  // ---------------------------------------------------------------------------
  // Appending per-element results

  /** `f(xs[0]) + f(xs[1]) + ...`: what a loop appending `f(x)` for each `x` in turn accumulates. */
  function ConcatMap<A, B>(f: A -> seq<B>, xs: seq<A>): seq<B>
    decreases |xs|
  {
    if xs == [] then [] else ConcatMap(f, xs[..|xs| - 1]) + f(xs[|xs| - 1])
  }

  /** The results for two runs of elements are the results for each, one after the other. */
  lemma {:induction false} ConcatMapAppend<A, B>(f: A -> seq<B>, xs: seq<A>, ys: seq<A>)
    ensures ConcatMap(f, xs + ys) == ConcatMap(f, xs) + ConcatMap(f, ys)
    decreases |ys|
  {
    if ys == [] {
      assert xs + ys == xs;
    } else {
      var init := ys[..|ys| - 1];
      AppendInit(xs, ys);
      ConcatMapAppend(f, xs, init);
    }
  }

  /** Ordered by `key`, largest first. */
  predicate SortedDesc<T>(s: seq<T>, key: T -> int)
  {
    forall i, j :: 0 <= i < j < |s| ==> key(s[i]) >= key(s[j])
  }

  /** Inserts `x` after every element whose key is at least `x`'s (keeps the sort stable). */
  function InsertDesc<T(==)>(x: T, r: seq<T>, key: T -> int): (out: seq<T>)
    requires SortedDesc(r, key)
    ensures |out| == |r| + 1
    ensures multiset(out) == multiset(r) + multiset{x}
    ensures forall y :: y in out ==> y == x || y in r
    ensures SortedDesc(out, key)
    decreases |r|
  {
    if r == [] || key(r[0]) < key(x) then
      SortedCons(x, r, key);
      [x] + r
    else
      SortedTail(r, key);
      var rest := InsertDesc(x, r[1..], key);
      HeadBoundsInserted(x, r, rest, key);
      SortedCons(r[0], rest, key);
      assert r == [r[0]] + r[1..];
      [r[0]] + rest
  }

  lemma SortedTail<T>(r: seq<T>, key: T -> int)
    requires r != [] && SortedDesc(r, key)
    ensures SortedDesc(r[1..], key)
    ensures forall k :: 0 <= k < |r| ==> key(r[k]) <= key(r[0])
  {
  }

  /** Inserting an element no larger than the head into the tail keeps every key at most the head's. */
  lemma HeadBoundsInserted<T>(x: T, r: seq<T>, rest: seq<T>, key: T -> int)
    requires r != [] && key(x) <= key(r[0])
    requires forall k :: 0 <= k < |r| ==> key(r[k]) <= key(r[0])
    requires forall y :: y in rest ==> y == x || y in r[1..]
    ensures forall k :: 0 <= k < |rest| ==> key(rest[k]) <= key(r[0])
  {
    forall k | 0 <= k < |rest|
      ensures key(rest[k]) <= key(r[0])
    {
      assert rest[k] in rest;
      if rest[k] != x {
        var m :| 0 <= m < |r[1..]| && r[1..][m] == rest[k];
        assert r[m + 1] == rest[k];
      }
    }
  }

  /** Putting an element in front of a sorted sequence whose keys are no larger keeps it sorted. */
  lemma SortedCons<T>(y: T, s: seq<T>, key: T -> int)
    requires SortedDesc(s, key)
    requires forall k :: 0 <= k < |s| ==> key(s[k]) <= key(y)
    ensures SortedDesc([y] + s, key)
  {
  }

  /** A stable sort of `s`, largest `key` first. */
  function SortByKeyDesc<T(==)>(s: seq<T>, key: T -> int): (r: seq<T>)
    ensures |r| == |s|
    ensures multiset(r) == multiset(s)
    ensures SortedDesc(r, key)
    decreases |s|
  {
    if s == [] then []
    else
      assert s == s[..|s| - 1] + [s[|s| - 1]];
      InsertDesc(s[|s| - 1], SortByKeyDesc(s[..|s| - 1], key), key)
  }

  /** `s.slice(0, n)`. */
  function Take<T>(s: seq<T>, n: nat): (r: seq<T>)
    ensures |r| == if |s| < n then |s| else n
    ensures r == s[..|r|]
  {
    if |s| <= n then s else s[..n]
  }

  /**
   * `s.sort((a, b) => key(b) - key(a)).slice(0, n)`: at most `n` elements of
   * `s`, largest key first, and every element left out has a key no larger
   * than any element kept.
   */
  function TopByKeyDesc<T(==)>(s: seq<T>, key: T -> int, n: nat): (r: seq<T>)
    ensures |r| == if |s| < n then |s| else n
    ensures multiset(r) <= multiset(s)
    ensures SortedDesc(r, key)
    ensures forall x, i | 0 <= i < |r| && x in s && multiset(r)[x] < multiset(s)[x] :: key(x) <= key(r[i])
  {
    var sorted := SortByKeyDesc(s, key);
    SortedPrefix(sorted, key, |Take(sorted, n)|);
    Take(sorted, n)
  }

  /**
   * The top `n` of a selection of `s` by `p`: elements of `s` passing `p`, and
   * no element of `s` passing `p` that is left out has a larger key.
   */
  lemma TopOfSelection<T>(sel: seq<T>, s: seq<T>, p: T -> bool, key: T -> int, n: nat)
    requires IsSelection(sel, s, p)
    ensures var r := TopByKeyDesc(sel, key, n);
      && multiset(r) <= multiset(s)
      && (forall x | x in r :: x in s && p(x))
      && (forall x, i | 0 <= i < |r| && x in s && p(x) && multiset(r)[x] < multiset(s)[x] :: key(x) <= key(r[i]))
  {
    var r := TopByKeyDesc(sel, key, n);
    SubsequenceMultiset(sel, s);
    forall x | x in r
      ensures x in s && p(x)
    {
      assert x in multiset(r);
      assert x in multiset(sel);
    }
    forall x, i | 0 <= i < |r| && x in s && p(x) && multiset(r)[x] < multiset(s)[x]
      ensures key(x) <= key(r[i])
    {
      assert multiset(sel)[x] == multiset(s)[x];
      assert x in multiset(sel);
    }
  }

  /** A prefix of a sorted sequence is sorted, and nothing after it has a larger key. */
  lemma SortedPrefix<T>(sorted: seq<T>, key: T -> int, m: nat)
    requires SortedDesc(sorted, key) && m <= |sorted|
    ensures multiset(sorted[..m]) <= multiset(sorted)
    ensures SortedDesc(sorted[..m], key)
    ensures forall x, i | 0 <= i < m && multiset(sorted[..m])[x] < multiset(sorted)[x] :: key(x) <= key(sorted[i])
  {
    var r, rest := sorted[..m], sorted[m..];
    assert sorted == r + rest;
    assert multiset(sorted) == multiset(r) + multiset(rest);
    forall x, i | 0 <= i < m && multiset(r)[x] < multiset(sorted)[x]
      ensures key(x) <= key(sorted[i])
    {
      assert x in multiset(rest);
      var k :| 0 <= k < |rest| && rest[k] == x;
      assert sorted[m + k] == x;
    }
  }
}
