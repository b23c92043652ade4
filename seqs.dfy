/**
 * Sequence operations with the semantics of the JavaScript array methods the
 * source uses: filter, slice(0, n), reduce to a sum, and the stable
 * Array.prototype.sort with a descending key comparator.
 */
module Seqs {

  /** `s.filter(p)` */
  function Filter<T(==)>(s: seq<T>, p: T -> bool): (r: seq<T>)
    ensures |r| <= |s|
    ensures forall i :: 0 <= i < |r| ==> p(r[i])
    ensures forall i :: 0 <= i < |s| && p(s[i]) ==> s[i] in r
    ensures multiset(r) <= multiset(s)
    decreases |s|
  {
    if |s| == 0 then []
    else
      assert s == [s[0]] + s[1..];
      if p(s[0]) then [s[0]] + Filter(s[1..], p) else Filter(s[1..], p)
  }

  /** `a` is `b` with some elements removed, the rest kept in order. */
  predicate IsSubsequence<T(==)>(a: seq<T>, b: seq<T>)
    decreases |b|
  {
    if |a| == 0 then true
    else if |b| == 0 then false
    else (a[0] == b[0] && IsSubsequence(a[1..], b[1..])) || IsSubsequence(a, b[1..])
  }

  /** What the filter keeps passes the test and comes from the input. */
  lemma FilterMember<T>(s: seq<T>, p: T -> bool, x: T)
    requires x in Filter(s, p)
    ensures p(x) && x in s
  {
    var r := Filter(s, p);
    var i :| 0 <= i < |r| && r[i] == x;
    assert x in multiset(r);
  }

  lemma {:induction false} FilterIsSubsequence<T>(s: seq<T>, p: T -> bool)
    ensures IsSubsequence(Filter(s, p), s)
    decreases |s|
  {
    if |s| > 0 {
      FilterIsSubsequence(s[1..], p);
    }
  }

  lemma {:induction false} FilterConcat<T>(a: seq<T>, b: seq<T>, p: T -> bool)
    ensures Filter(a + b, p) == Filter(a, p) + Filter(b, p)
    decreases |a|
  {
    if |a| > 0 {
      FilterConcat(a[1..], b, p);
      assert (a + b)[1..] == a[1..] + b;
    } else {
      assert a + b == b;
    }
  }

  /** A filter every element passes keeps them all. */
  lemma {:induction false} FilterAll<T>(s: seq<T>, p: T -> bool)
    requires forall i :: 0 <= i < |s| ==> p(s[i])
    ensures Filter(s, p) == s
    decreases |s|
  {
    if |s| > 0 {
      FilterAll(s[1..], p);
    }
  }

  /** A filter no element passes keeps none. */
  lemma {:induction false} FilterNone<T>(s: seq<T>, p: T -> bool)
    requires forall i :: 0 <= i < |s| ==> !p(s[i])
    ensures Filter(s, p) == []
    decreases |s|
  {
    if |s| > 0 {
      FilterNone(s[1..], p);
    }
  }

  /** The number of elements satisfying `p`: `s.filter(p).length`. */
  function Count<T(==)>(s: seq<T>, p: T -> bool): (n: nat)
    ensures n <= |s|
    ensures n == 0 <==> forall i :: 0 <= i < |s| ==> !p(s[i])
    decreases |s|
  {
    if |s| == 0 then 0 else (if p(s[0]) then 1 else 0) + Count(s[1..], p)
  }

  lemma {:induction false} CountIsFilterLength<T>(s: seq<T>, p: T -> bool)
    ensures Count(s, p) == |Filter(s, p)|
    decreases |s|
  {
    if |s| > 0 {
      CountIsFilterLength(s[1..], p);
    }
  }

  lemma {:induction false} CountConcat<T>(a: seq<T>, b: seq<T>, p: T -> bool)
    ensures Count(a + b, p) == Count(a, p) + Count(b, p)
    decreases |a|
  {
    if |a| > 0 {
      CountConcat(a[1..], b, p);
      assert (a + b)[1..] == a[1..] + b;
    } else {
      assert a + b == b;
    }
  }

  /** Counting one more element of a sequence. */
  lemma CountSnoc<T>(s: seq<T>, i: nat, p: T -> bool)
    requires i < |s|
    ensures Count(s[..i + 1], p) == Count(s[..i], p) + (if p(s[i]) then 1 else 0)
  {
    assert s[..i + 1] == s[..i] + [s[i]];
    CountConcat(s[..i], [s[i]], p);
  }

  /** An element satisfying a weaker condition is counted at least as often. */
  lemma {:induction false} CountMonotone<T>(s: seq<T>, p: T -> bool, q: T -> bool)
    requires forall x :: p(x) ==> q(x)
    ensures Count(s, p) <= Count(s, q)
    decreases |s|
  {
    if |s| > 0 {
      CountMonotone(s[1..], p, q);
    }
  }

  /** `s.reduce((sum, x) => sum + f(x), 0)` */
  function Sum<T(==)>(s: seq<T>, f: T -> int): int
    decreases |s|
  {
    if |s| == 0 then 0 else f(s[0]) + Sum(s[1..], f)
  }

  lemma {:induction false} SumConcat<T>(a: seq<T>, b: seq<T>, f: T -> int)
    ensures Sum(a + b, f) == Sum(a, f) + Sum(b, f)
    decreases |a|
  {
    if |a| > 0 {
      SumConcat(a[1..], b, f);
      assert (a + b)[1..] == a[1..] + b;
    } else {
      assert a + b == b;
    }
  }

  /** Summing over one more element of a sequence. */
  lemma SumSnoc<T>(s: seq<T>, i: nat, f: T -> int)
    requires i < |s|
    ensures Sum(s[..i + 1], f) == Sum(s[..i], f) + f(s[i])
  {
    assert s[..i + 1] == s[..i] + [s[i]];
    SumConcat(s[..i], [s[i]], f);
  }

  lemma {:induction false} SumNonNegative<T>(s: seq<T>, f: T -> int)
    requires forall i :: 0 <= i < |s| ==> f(s[i]) >= 0
    ensures Sum(s, f) >= 0
    decreases |s|
  {
    if |s| > 0 {
      SumNonNegative(s[1..], f);
    }
  }

  /** An element meets exactly one of two complementary conditions, so the two sums make up the whole. */
  lemma {:induction false} SumPartition<T>(s: seq<T>, p: T -> bool, q: T -> bool, f: T -> int)
    requires forall x :: p(x) <==> !q(x)
    ensures Sum(Filter(s, p), f) + Sum(Filter(s, q), f) == Sum(s, f)
    ensures Count(s, p) + Count(s, q) == |s|
    decreases |s|
  {
    if |s| > 0 {
      SumPartition(s[1..], p, q, f);
    }
  }

  /** A filter on one of two conditions that never hold together sums to the two filters' sums. */
  lemma {:induction false} SumFilterSplit<T>(s: seq<T>, p: T -> bool, q: T -> bool, r: T -> bool, f: T -> int)
    requires forall x :: p(x) <==> q(x) || r(x)
    requires forall x :: !(q(x) && r(x))
    ensures Sum(Filter(s, p), f) == Sum(Filter(s, q), f) + Sum(Filter(s, r), f)
    ensures Count(s, p) == Count(s, q) + Count(s, r)
    decreases |s|
  {
    if |s| > 0 {
      SumFilterSplit(s[1..], p, q, r, f);
    }
  }

  /** With no negative summand, a stricter filter sums to no more. */
  lemma {:induction false} SumFilterMonotone<T>(s: seq<T>, p: T -> bool, q: T -> bool, f: T -> int)
    requires forall x :: p(x) ==> q(x)
    requires forall i :: 0 <= i < |s| ==> f(s[i]) >= 0
    ensures Sum(Filter(s, p), f) <= Sum(Filter(s, q), f)
    decreases |s|
  {
    if |s| > 0 {
      SumFilterMonotone(s[1..], p, q, f);
    }
  }

  /** `s.map(f)` */
  function Map<T, U>(s: seq<T>, f: T -> U): (r: seq<U>)
    ensures |r| == |s|
    ensures forall i :: 0 <= i < |s| ==> r[i] == f(s[i])
  {
    seq(|s|, i requires 0 <= i < |s| => f(s[i]))
  }

  /** Mapping elements drawn from `t` gives images of elements of `t`. */
  lemma MapDrawnFrom<T, U>(s: seq<T>, f: T -> U, t: seq<T>)
    requires forall x :: x in s ==> x in t
    ensures forall e :: e in Map(s, f) ==> exists x :: x in t && e == f(x)
  {
    forall e | e in Map(s, f)
      ensures exists x :: x in t && e == f(x)
    {
      var i :| 0 <= i < |s| && Map(s, f)[i] == e;
      assert s[i] in t;
    }
  }

  /** An element of a mapped slice is the function applied to the element of the slice. */
  lemma MapSlice<T, U>(s: seq<T>, f: T -> U, from: nat, to: nat, k: nat)
    requires from <= to <= |s| && k < to - from
    ensures |Map(s[from..to], f)| == to - from && Map(s[from..to], f)[k] == f(s[from + k])
  {
  }

  /** The results of `g` for the elements of `s`, one after another: a `forEach` that pushes them. */
  function FlatMap<T, U>(s: seq<T>, g: T -> seq<U>): seq<U>
    decreases |s|
  {
    if |s| == 0 then [] else FlatMap(s[..|s| - 1], g) + g(s[|s| - 1])
  }

  /** Something is produced exactly when some element produces it. */
  lemma {:induction false} FlatMapMember<T, U>(s: seq<T>, g: T -> seq<U>, u: U)
    ensures u in FlatMap(s, g) <==> exists j :: 0 <= j < |s| && u in g(s[j])
    decreases |s|
  {
    if |s| > 0 {
      var front := s[..|s| - 1];
      FlatMapMember(front, g, u);
      if u in FlatMap(front, g) {
        var j :| 0 <= j < |front| && u in g(front[j]);
        assert s[j] == front[j];
      }
      if j :| 0 <= j < |s| && u in g(s[j]) {
        if j < |front| {
          assert front[j] == s[j];
        }
      }
    }
  }

  /** Elements that produce at most one result each produce at most one result apiece. */
  lemma {:induction false} FlatMapLength<T, U>(s: seq<T>, g: T -> seq<U>)
    requires forall x :: |g(x)| <= 1
    ensures |FlatMap(s, g)| <= |s|
    decreases |s|
  {
    if |s| > 0 {
      FlatMapLength(s[..|s| - 1], g);
    }
  }

  lemma AppendEmpty<T>(a: seq<T>)
    ensures a + [] == a && [] + a == a
  {
  }

  lemma AppendAssoc<T>(a: seq<T>, b: seq<T>, c: seq<T>)
    ensures (a + b) + c == a + (b + c)
  {
  }

  /** A non-empty sequence is its front followed by its last element. */
  lemma SplitLast<T>(s: seq<T>)
    requires |s| > 0
    ensures s[..|s| - 1] + [s[|s| - 1]] == s
  {
  }

  /** Appending an element leaves the old sequence as a prefix. */
  lemma SnocPrefix<T>(s: seq<T>, x: T)
    ensures (s + [x])[..|s|] == s && (s + [x])[|s|] == x
  {
  }

  /** Sequences with a common prefix agree at every index of it. */
  lemma PrefixesAgreeAt<T>(a: seq<T>, b: seq<T>, n: nat, j: nat)
    requires n <= |a| && n <= |b| && a[..n] == b[..n] && j < n
    ensures a[j] == b[j]
  {
    assert a[j] == a[..n][j] && b[j] == b[..n][j];
  }

  /** A common prefix followed by a common element is a longer common prefix. */
  lemma PrefixesExtend<T>(a: seq<T>, b: seq<T>, j: nat)
    requires j < |a| && j < |b| && a[..j] == b[..j] && a[j] == b[j]
    ensures a[..j + 1] == b[..j + 1]
  {
    assert a[..j + 1] == a[..j] + [a[j]] && b[..j + 1] == b[..j] + [b[j]];
  }

  /** `s.slice(0, n)` */
  function Take<T(==)>(s: seq<T>, n: nat): (r: seq<T>)
    ensures |r| == if n < |s| then n else |s|
    ensures IsPrefixOf(r, s)
  {
    if n < |s| then s[..n] else s
  }

  predicate IsPrefixOf<T(==)>(p: seq<T>, s: seq<T>) {
    |p| <= |s| && s[..|p|] == p
  }

  /** A prefix of a prefix is a prefix. */
  lemma PrefixTransitive<T>(a: seq<T>, b: seq<T>, c: seq<T>)
    requires IsPrefixOf(a, b) && IsPrefixOf(b, c)
    ensures IsPrefixOf(a, c)
  {
    assert c[..|a|] == c[..|b|][..|a|];
  }

  /** Ordered by `key`, largest first. */
  predicate SortedDesc<T(==)>(s: seq<T>, key: T -> real) {
    forall i, j :: 0 <= i < j < |s| ==> key(s[i]) >= key(s[j])
  }

  /** The elements of `s` whose key is `k`, in their order in `s`. */
  function KeyClass<T(==)>(s: seq<T>, key: T -> real, k: real): seq<T>
    decreases |s|
  {
    if |s| == 0 then []
    else if key(s[0]) == k then [s[0]] + KeyClass(s[1..], key, k)
    else KeyClass(s[1..], key, k)
  }

  /** Place `x` in front of the first element whose key is not larger than its own. */
  function InsertDesc<T(==)>(x: T, s: seq<T>, key: T -> real): (r: seq<T>)
    ensures |r| == |s| + 1
    ensures multiset(r) == multiset(s) + multiset{x}
    decreases |s|
  {
    if |s| == 0 || key(s[0]) <= key(x) then [x] + s
    else
      assert s == [s[0]] + s[1..];
      [s[0]] + InsertDesc(x, s[1..], key)
  }

  /**
   * `s.sort((a, b) => key(b) - key(a))`, which is stable: an insertion sort
   * that keeps elements with equal keys in their original order.
   */
  function SortDesc<T(==)>(s: seq<T>, key: T -> real): (r: seq<T>)
    ensures |r| == |s|
    ensures multiset(r) == multiset(s)
    decreases |s|
  {
    if |s| == 0 then []
    else
      assert s == [s[0]] + s[1..];
      InsertDesc(s[0], SortDesc(s[1..], key), key)
  }

  lemma {:induction false} InsertDescSorted<T>(x: T, s: seq<T>, key: T -> real)
    requires SortedDesc(s, key)
    ensures SortedDesc(InsertDesc(x, s, key), key)
    decreases |s|
  {
    if |s| > 0 && key(s[0]) > key(x) {
      InsertDescSorted(x, s[1..], key);
      var t := InsertDesc(x, s[1..], key);
      assert multiset(t) == multiset(s[1..]) + multiset{x};
      forall j | 0 <= j < |t|
        ensures key(s[0]) >= key(t[j])
      {
        assert t[j] in multiset(t);
        if t[j] != x {
          assert t[j] in multiset(s[1..]);
          var m :| 0 <= m < |s[1..]| && s[1..][m] == t[j];
          assert s[1..][m] == s[m + 1];
        }
      }
    }
  }

  lemma {:induction false} SortDescSorted<T>(s: seq<T>, key: T -> real)
    ensures SortedDesc(SortDesc(s, key), key)
    decreases |s|
  {
    if |s| > 0 {
      SortDescSorted(s[1..], key);
      InsertDescSorted(s[0], SortDesc(s[1..], key), key);
    }
  }

  lemma {:induction false} InsertDescKeyClass<T>(x: T, s: seq<T>, key: T -> real, k: real)
    requires SortedDesc(s, key)
    ensures KeyClass(InsertDesc(x, s, key), key, k)
         == (if key(x) == k then [x] else []) + KeyClass(s, key, k)
    decreases |s|
  {
    if |s| == 0 || key(s[0]) <= key(x) {
      var r := [x] + s;
      assert r[1..] == s;
    } else {
      var r := [s[0]] + InsertDesc(x, s[1..], key);
      assert r[1..] == InsertDesc(x, s[1..], key);
      InsertDescKeyClass(x, s[1..], key, k);
    }
  }

  /** Stability: sorting keeps the elements of every key in their original order. */
  lemma {:induction false} SortDescStable<T>(s: seq<T>, key: T -> real, k: real)
    ensures KeyClass(SortDesc(s, key), key, k) == KeyClass(s, key, k)
    decreases |s|
  {
    if |s| > 0 {
      SortDescStable(s[1..], key, k);
      SortDescSorted(s[1..], key);
      InsertDescKeyClass(s[0], SortDesc(s[1..], key), key, k);
    }
  }

  /** A descending sort leaves an already descending sequence as it is. */
  lemma {:induction false} SortDescOfSorted<T>(s: seq<T>, key: T -> real)
    requires SortedDesc(s, key)
    ensures SortDesc(s, key) == s
    decreases |s|
  {
    if |s| > 0 {
      var t := s[1..];
      assert SortDesc(t, key) == t by {
        assert SortedDesc(t, key) by {
          forall i, j | 0 <= i < j < |t|
            ensures key(t[i]) >= key(t[j])
          {
            assert t[i] == s[i + 1] && t[j] == s[j + 1];
          }
        }
        SortDescOfSorted(t, key);
      }
      assert SortDesc(s, key) == InsertDesc(s[0], t, key);
      assert |t| == 0 || key(t[0]) <= key(s[0]) by {
        if |t| > 0 {
          assert t[0] == s[1];
        }
      }
      assert InsertDesc(s[0], t, key) == [s[0]] + t;
      assert s == [s[0]] + t;
    }
  }
  /** Inserting into a descending sequence places `x` after the `m` elements whose keys are larger. */
  lemma {:induction false} InsertDescSplit<T>(x: T, s: seq<T>, key: T -> real, m: nat)
    requires m <= |s|
    requires forall k :: 0 <= k < m ==> key(s[k]) > key(x)
    requires m == |s| || key(s[m]) <= key(x)
    ensures InsertDesc(x, s, key) == s[..m] + [x] + s[m..]
    decreases m
  {
    if m == 0 {
      assert s[..0] + [x] + s[0..] == [x] + s;
    } else {
      var t := s[1..];
      forall k | 0 <= k < m - 1
        ensures key(t[k]) > key(x)
      {
        assert t[k] == s[k + 1];
      }
      assert m - 1 == |t| || t[m - 1] == s[m];
      InsertDescSplit(x, t, key, m - 1);
      InsertDescPastFirst(x, s, key);
      ConsSplit(s, m, x);
    }
  }

  lemma InsertDescPastFirst<T>(x: T, s: seq<T>, key: T -> real)
    requires |s| > 0 && key(s[0]) > key(x)
    ensures InsertDesc(x, s, key) == [s[0]] + InsertDesc(x, s[1..], key)
  {
  }

  lemma ConsSplit<T>(s: seq<T>, m: nat, x: T)
    requires 0 < m <= |s|
    ensures [s[0]] + (s[1..][..m - 1] + [x] + s[1..][m - 1..]) == s[..m] + [x] + s[m..]
  {
    assert s[1..][..m - 1] == s[1..m] && s[1..][m - 1..] == s[m..];
    assert s[..m] == [s[0]] + s[1..m];
  }

  lemma SortDescFrom<T>(s: seq<T>, key: T -> real, i: nat)
    requires i < |s|
    ensures SortDesc(s[i..], key) == InsertDesc(s[i], SortDesc(s[i + 1..], key), key)
  {
    assert s[i..][0] == s[i] && s[i..][1..] == s[i + 1..];
  }

  /** One insertion step: `a[i]` moves right past the elements of `a[i + 1..]` whose keys are larger. */
  method InsertAt<T>(a: array<T>, i: nat, key: T -> real)
    requires i < a.Length
    modifies a
    ensures a[..i] == old(a[..i])
    ensures a[i..] == InsertDesc(old(a[i]), old(a[i + 1..]), key)
  {
    ghost var before, tail := a[..], a[i + 1..];
    var x := a[i];
    var j := ShiftLarger(a, i, x, key);
    a[j] := x;
    InsertDescSplit(x, tail, key, j - i);
    Placed(a[..], before, i, j, tail, x);
  }

  /**
   * The shifting loop of an insertion step: each element after `i` whose
   * key is larger than `x`'s moves one place left, leaving a gap at `j`.
   */
  method ShiftLarger<T>(a: array<T>, i: nat, x: T, key: T -> real) returns (j: nat)
    requires i < a.Length
    modifies a
    ensures i <= j < a.Length
    ensures forall k :: 0 <= k < i ==> a[k] == old(a[k])
    ensures forall k :: i <= k < j ==> a[k] == old(a[k + 1])
    ensures forall k :: j < k < a.Length ==> a[k] == old(a[k])
    ensures forall k :: i < k <= j ==> key(old(a[k])) > key(x)
    ensures j + 1 == a.Length || key(old(a[j + 1])) <= key(x)
  {
    j := i;
    while j + 1 < a.Length && key(a[j + 1]) > key(x)
      invariant i <= j < a.Length
      invariant forall k :: 0 <= k < i ==> a[k] == old(a[k])
      invariant forall k :: i <= k < j ==> a[k] == old(a[k + 1])
      invariant forall k :: j < k < a.Length ==> a[k] == old(a[k])
      invariant forall k :: i < k <= j ==> key(old(a[k])) > key(x)
    {
      a[j] := a[j + 1];
      j := j + 1;
    }
  }

  /** A sequence holding the first `i` elements of `before`, then `x` at `j` and `tail` around it. */
  lemma Placed<T>(s: seq<T>, before: seq<T>, i: nat, j: nat, tail: seq<T>, x: T)
    requires i <= j < |s| && |before| == |s| && |tail| == |s| - i - 1 && s[j] == x
    requires forall k :: 0 <= k < i ==> s[k] == before[k]
    requires forall k :: i <= k < j ==> s[k] == tail[k - i]
    requires forall k :: j < k < |s| ==> s[k] == tail[k - i - 1]
    ensures s[..i] == before[..i]
    ensures s[i..] == tail[..j - i] + [x] + tail[j - i..]
  {
    var expected := tail[..j - i] + [x] + tail[j - i..];
    forall k | 0 <= k < |s| - i
      ensures s[i..][k] == expected[k]
    {
      if k < j - i {
        assert expected[k] == tail[k];
      } else if k == j - i {
        assert expected[k] == x;
      } else {
        assert expected[k] == tail[k - 1];
      }
    }
  }

  /** Sorting does not change a sum over the elements. */
  lemma {:induction false} SumSortDesc<T>(s: seq<T>, key: T -> real, f: T -> int)
    ensures Sum(SortDesc(s, key), f) == Sum(s, f)
    decreases |s|
  {
    if |s| > 0 {
      SumSortDesc(s[1..], key, f);
      SumInsertDesc(s[0], SortDesc(s[1..], key), key, f);
    }
  }

  /** Sorting does not change how many elements meet a condition. */
  lemma {:induction false} CountSortDesc<T>(s: seq<T>, key: T -> real, p: T -> bool)
    ensures Count(SortDesc(s, key), p) == Count(s, p)
    decreases |s|
  {
    if |s| > 0 {
      CountSortDesc(s[1..], key, p);
      CountInsertDesc(s[0], SortDesc(s[1..], key), key, p);
    }
  }

  /** `f` where `p` holds and 0 elsewhere. */
  function Masked<T>(p: T -> bool, f: T -> int): T -> int {
    x => if p(x) then f(x) else 0
  }

  /** Summing over a filter is summing the masked values over everything. */
  lemma {:induction false} SumFilterMasked<T>(s: seq<T>, p: T -> bool, f: T -> int)
    ensures Sum(Filter(s, p), f) == Sum(s, Masked(p, f))
    decreases |s|
  {
    if |s| > 0 {
      SumFilterMasked(s[1..], p, f);
    }
  }

  /** Sorting does not change a sum over a filter. */
  lemma SumFilterSortDesc<T>(s: seq<T>, key: T -> real, p: T -> bool, f: T -> int)
    ensures Sum(Filter(SortDesc(s, key), p), f) == Sum(Filter(s, p), f)
  {
    SumFilterMasked(SortDesc(s, key), p, f);
    SumFilterMasked(s, p, f);
    SumSortDesc(s, key, Masked(p, f));
  }

  lemma {:induction false} CountInsertDesc<T>(x: T, s: seq<T>, key: T -> real, p: T -> bool)
    ensures Count(InsertDesc(x, s, key), p) == (if p(x) then 1 else 0) + Count(s, p)
    decreases |s|
  {
    if |s| > 0 && key(s[0]) > key(x) {
      CountInsertDesc(x, s[1..], key, p);
      assert InsertDesc(x, s, key)[1..] == InsertDesc(x, s[1..], key);
    } else {
      assert InsertDesc(x, s, key)[1..] == s;
    }
  }

  lemma {:induction false} SumInsertDesc<T>(x: T, s: seq<T>, key: T -> real, f: T -> int)
    ensures Sum(InsertDesc(x, s, key), f) == f(x) + Sum(s, f)
    decreases |s|
  {
    if |s| > 0 && key(s[0]) > key(x) {
      SumInsertDesc(x, s[1..], key, f);
      assert InsertDesc(x, s, key)[1..] == InsertDesc(x, s[1..], key);
    } else {
      assert InsertDesc(x, s, key)[1..] == s;
    }
  }

  /** The first `n` of a descending sort are sorted and drawn from the input. */
  lemma TakeSortedDesc<T>(s: seq<T>, key: T -> real, n: nat)
    ensures SortedDesc(Take(SortDesc(s, key), n), key)
    ensures forall x :: x in Take(SortDesc(s, key), n) ==> x in s
  {
    var sorted := SortDesc(s, key);
    SortDescSorted(s, key);
    forall x | x in Take(sorted, n)
      ensures x in s
    {
      assert x in multiset(sorted);
    }
  }

  /**
   * The first `n` of a descending sort are the top `n`: every element left
   * out has a key no larger than that of any element kept.
   */
  lemma TakeSortedIsTop<T>(s: seq<T>, key: T -> real, n: nat)
    ensures var top := Take(SortDesc(s, key), n);
      forall x :: x in multiset(s) - multiset(top) ==> forall i :: 0 <= i < |top| ==> key(x) <= key(top[i])
  {
    var sorted := SortDesc(s, key);
    var m := |Take(sorted, n)|;
    assert Take(sorted, n) == sorted[..m];
    PrefixLeavesSuffix(sorted, m);
    SortDescSorted(s, key);
    SuffixBelowPrefix(sorted, key, m);
  }

  /** Taking a prefix out of a sequence leaves the suffix. */
  lemma PrefixLeavesSuffix<T>(s: seq<T>, m: nat)
    requires m <= |s|
    ensures multiset(s) - multiset(s[..m]) == multiset(s[m..])
  {
    assert s == s[..m] + s[m..];
  }

  /** In a descending sequence nothing after position `m` is larger than anything before it. */
  lemma SuffixBelowPrefix<T>(s: seq<T>, key: T -> real, m: nat)
    requires SortedDesc(s, key) && m <= |s|
    ensures forall x :: x in multiset(s[m..]) ==> forall i :: 0 <= i < m ==> key(x) <= key(s[..m][i])
  {
    forall x | x in multiset(s[m..])
      ensures forall i :: 0 <= i < m ==> key(x) <= key(s[..m][i])
    {
      var j :| m <= j < |s| && s[j] == x;
    }
  }

  /**
   * `top` is the first `n` of `s` by `key`, largest first: as many as `s`
   * has up to `n`, in descending order, all drawn from `s`, and none left
   * out larger than one kept.
   */
  ghost predicate IsTop<T>(top: seq<T>, s: seq<T>, key: T -> real, n: nat) {
    && |top| == (if |s| < n then |s| else n)
    && SortedDesc(top, key)
    && (forall x :: x in top ==> x in s)
    && (forall x :: x in multiset(s) - multiset(top) ==> forall i :: 0 <= i < |top| ==> key(x) <= key(top[i]))
  }

  /** The first `n` of a descending sort are the top `n`. */
  lemma TopOfSorted<T>(s: seq<T>, key: T -> real, n: nat)
    ensures IsTop(Take(SortDesc(s, key), n), s, key, n)
  {
    TakeSortedDesc(s, key, n);
    TakeSortedIsTop(s, key, n);
  }

  /** `Array.from(s).sort((x, y) => key(y) - key(x))`: the sort applied to a fresh array holding `s`. */
  method SortedCopy<T>(s: seq<T>, key: T -> real) returns (sorted: seq<T>)
    ensures sorted == SortDesc(s, key)
  {
    var a := new T[|s|](i requires 0 <= i < |s| => s[i]);
    assert a[..] == s;
    SortDescInPlace(a, key);
    sorted := a[..];
  }

  /**
   * `a.sort((x, y) => key(y) - key(x))` in place: an insertion sort from the
   * back, each step inserting one element into the sorted tail, which is the
   * stable descending sort.
   */
  method SortDescInPlace<T>(a: array<T>, key: T -> real)
    modifies a
    ensures a[..] == SortDesc(old(a[..]), key)
  {
    ghost var s := a[..];
    var i := a.Length;
    while i > 0
      invariant 0 <= i <= a.Length
      invariant a[..i] == s[..i]
      invariant a[i..] == SortDesc(s[i..], key)
    {
      i := i - 1;
      assert a[i] == a[..i + 1][i] == s[i];
      assert a[..i] == a[..i + 1][..i] == s[..i];
      InsertAt(a, i, key);
      SortDescFrom(s, key, i);
    }
    assert a[..] == a[0..];
  }
}
