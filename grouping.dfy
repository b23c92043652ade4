/**
 * Building a `Map<string, T[]>` by pushing each element onto the list of its
 * key, and pushing the results of a per-element rule into an array. A JS
 * `Map` iterates its keys in insertion order, which is the order in which
 * the keys first occur in the input.
 */
module Grouping {
  import opened Wrappers
  import opened Seqs

  /** The keys of `s` in order of first occurrence. */
  function Keys<T>(s: seq<T>, key: T -> string): seq<string>
    decreases |s|
  {
    if |s| == 0 then []
    else
      var front := Keys(s[..|s| - 1], key);
      if key(s[|s| - 1]) in front then front else front + [key(s[|s| - 1])]
  }

  /** The elements of `s` whose key is `k`, in input order. */
  function Group<T>(s: seq<T>, key: T -> string, k: string): seq<T>
    decreases |s|
  {
    if |s| == 0 then []
    else Group(s[..|s| - 1], key, k) + (if key(s[|s| - 1]) == k then [s[|s| - 1]] else [])
  }

  /** A key is listed exactly when some element has it. */
  lemma {:induction false} KeysExactly<T>(s: seq<T>, key: T -> string)
    ensures forall k :: k in Keys(s, key) <==> exists i :: 0 <= i < |s| && key(s[i]) == k
    decreases |s|
  {
    if |s| > 0 {
      var front := s[..|s| - 1];
      KeysExactly(front, key);
      forall k
        ensures k in Keys(s, key) <==> exists i :: 0 <= i < |s| && key(s[i]) == k
      {
        if k in Keys(s, key) && k != key(s[|s| - 1]) {
          var i :| 0 <= i < |front| && key(front[i]) == k;
          assert s[i] == front[i];
        }
        if i :| 0 <= i < |s| && key(s[i]) == k {
          if i < |front| {
            assert front[i] == s[i];
          }
        }
      }
    }
  }

  /** No key is listed twice. */
  lemma {:induction false} KeysDistinct<T>(s: seq<T>, key: T -> string)
    ensures forall i, j :: 0 <= i < j < |Keys(s, key)| ==> Keys(s, key)[i] != Keys(s, key)[j]
    decreases |s|
  {
    if |s| > 0 {
      KeysDistinct(s[..|s| - 1], key);
    }
  }

  /** A group holds only elements of its key, and it is empty exactly when the key is not listed. */
  lemma {:induction false} GroupMembers<T>(s: seq<T>, key: T -> string, k: string)
    ensures forall i :: 0 <= i < |Group(s, key, k)| ==> key(Group(s, key, k)[i]) == k
    ensures |Group(s, key, k)| > 0 <==> k in Keys(s, key)
    decreases |s|
  {
    if |s| > 0 {
      GroupMembers(s[..|s| - 1], key, k);
    }
  }

  /** The first member of a group is the first element of the input with that key. */
  lemma {:induction false} GroupFirst<T>(s: seq<T>, key: T -> string, k: string) returns (i: nat)
    requires k in Keys(s, key)
    ensures i < |s| && key(s[i]) == k && |Group(s, key, k)| > 0 && Group(s, key, k)[0] == s[i]
    ensures forall j :: 0 <= j < i ==> key(s[j]) != k
    decreases |s|
  {
    var front := s[..|s| - 1];
    GroupMembers(front, key, k);
    if k in Keys(front, key) {
      i := GroupFirst(front, key, k);
      assert s[i] == front[i];
      forall j | 0 <= j < i
        ensures key(s[j]) != k
      {
        assert s[j] == front[j];
      }
    } else {
      i := |s| - 1;
      KeysExactly(front, key);
      forall j | 0 <= j < i
        ensures key(s[j]) != k
      {
        assert s[j] == front[j];
      }
    }
  }

  /**
   * The grouping loop: for each element, create the key's list when the key
   * is new, then push the element onto it.
   */
  method GroupBy<T>(s: seq<T>, key: T -> string) returns (keys: seq<string>, groups: map<string, seq<T>>)
    ensures keys == Keys(s, key)
    ensures forall k :: k in groups <==> k in keys
    ensures forall k :: k in groups ==> groups[k] == Group(s, key, k)
  {
    keys, groups := [], map[];
    var i := 0;
    while i < |s|
      invariant i <= |s|
      invariant keys == Keys(s[..i], key)
      invariant forall k :: k in groups <==> k in keys
      invariant forall k :: k in groups ==> groups[k] == Group(s[..i], key, k)
      invariant forall k :: k !in groups ==> Group(s[..i], key, k) == []
    {
      var k := key(s[i]);
      assert s[..i + 1][..i] == s[..i] && s[..i + 1][i] == s[i];
      if k !in groups {
        keys := keys + [k];
        groups := groups[k := []];
      }
      groups := groups[k := groups[k] + [s[i]]];
      i := i + 1;
    }
    assert s[..i] == s;
  }

  /** `for (const x of s) { const f = rule(x); if (f) findings.push(f); }` */
  function Collect<T, U>(s: seq<T>, rule: T -> Option<U>): (r: seq<U>)
    ensures |r| <= |s|
    decreases |s|
  {
    if |s| == 0 then []
    else Collect(s[..|s| - 1], rule) + (match rule(s[|s| - 1]) case Some(u) => [u] case None => [])
  }

  /** The loop itself: each element in turn, pushing what the rule gives it. */
  method CollectEach<T, U>(s: seq<T>, rule: T -> Option<U>) returns (r: seq<U>)
    ensures r == Collect(s, rule)
  {
    r := [];
    var i := 0;
    while i < |s|
      invariant i <= |s|
      invariant r == Collect(s[..i], rule)
    {
      CollectStep(s, i, rule);
      var u := rule(s[i]);
      if u.Some? {
        r := r + [u.value];
      }
      i := i + 1;
    }
    assert s[..i] == s;
  }

  /** Collecting is done element by element: the results of a concatenation are concatenated. */
  lemma {:induction false} CollectConcat<T, U>(a: seq<T>, b: seq<T>, rule: T -> Option<U>)
    ensures Collect(a + b, rule) == Collect(a, rule) + Collect(b, rule)
    decreases |b|
  {
    if |b| == 0 {
      assert a + b == a;
    } else {
      var b' := b[..|b| - 1];
      assert (a + b)[..|a + b| - 1] == a + b';
      assert (a + b)[|a + b| - 1] == b[|b| - 1];
      CollectConcat(a, b', rule);
    }
  }

  /** Collecting one element further along a sequence. */
  lemma CollectStep<T, U>(s: seq<T>, i: nat, rule: T -> Option<U>)
    requires i < |s|
    ensures Collect(s[..i + 1], rule) == Collect(s[..i], rule) + (match rule(s[i]) case Some(u) => [u] case None => [])
  {
    assert s[..i + 1][..i] == s[..i];
  }

  /** A result is collected exactly when the rule produced it for some element. */
  lemma {:induction false} CollectMember<T, U>(s: seq<T>, rule: T -> Option<U>, u: U)
    ensures u in Collect(s, rule) <==> exists i :: 0 <= i < |s| && rule(s[i]) == Some(u)
    decreases |s|
  {
    if |s| > 0 {
      var front := s[..|s| - 1];
      CollectMember(front, rule, u);
      if u in Collect(front, rule) {
        var i :| 0 <= i < |front| && rule(front[i]) == Some(u);
        assert s[i] == front[i];
      }
      if i :| 0 <= i < |s| && rule(s[i]) == Some(u) {
        if i < |front| {
          assert front[i] == s[i];
        }
      }
    }
  }

  /** The elements the rule gives nothing for, in input order: the ones left for a later pass. */
  function Rejected<T, U>(s: seq<T>, rule: T -> Option<U>): (r: seq<T>)
    ensures |r| <= |s|
    decreases |s|
  {
    if |s| == 0 then []
    else Rejected(s[..|s| - 1], rule) + (if rule(s[|s| - 1]).None? then [s[|s| - 1]] else [])
  }

  /** Rejecting one element further along a sequence. */
  lemma RejectedStep<T, U>(s: seq<T>, i: nat, rule: T -> Option<U>)
    requires i < |s|
    ensures Rejected(s[..i + 1], rule) == Rejected(s[..i], rule) + (if rule(s[i]).None? then [s[i]] else [])
  {
    assert s[..i + 1][..i] == s[..i];
  }

  /** One pass that keeps what the rule gives each element and sets aside the elements it gives nothing. */
  method Partition<T, U>(s: seq<T>, rule: T -> Option<U>) returns (kept: seq<U>, rejected: seq<T>)
    ensures kept == Collect(s, rule)
    ensures rejected == Rejected(s, rule)
  {
    kept, rejected := [], [];
    var i := 0;
    while i < |s|
      invariant i <= |s|
      invariant kept == Collect(s[..i], rule)
      invariant rejected == Rejected(s[..i], rule)
    {
      CollectStep(s, i, rule);
      RejectedStep(s, i, rule);
      var u := rule(s[i]);
      if u.Some? {
        kept := kept + [u.value];
      } else {
        rejected := rejected + [s[i]];
      }
      i := i + 1;
    }
    assert s[..i] == s;
  }

  /** Each element yields a result or is rejected, never both and never neither. */
  lemma {:induction false} CollectRejectedPartition<T, U>(s: seq<T>, rule: T -> Option<U>)
    ensures |Collect(s, rule)| + |Rejected(s, rule)| == |s|
    decreases |s|
  {
    if |s| > 0 {
      CollectRejectedPartition(s[..|s| - 1], rule);
    }
  }

  /** Rejected elements are exactly the ones the rule gives nothing for. */
  lemma {:induction false} RejectedExactly<T, U>(s: seq<T>, rule: T -> Option<U>)
    ensures forall i :: 0 <= i < |Rejected(s, rule)| ==> rule(Rejected(s, rule)[i]).None?
    ensures Rejected(s, rule) == [] <==> forall i :: 0 <= i < |s| ==> rule(s[i]).Some?
    decreases |s|
  {
    if |s| > 0 {
      var front := s[..|s| - 1];
      RejectedExactly(front, rule);
      if forall i :: 0 <= i < |s| ==> rule(s[i]).Some? {
        forall i | 0 <= i < |front|
          ensures rule(front[i]).Some?
        {
          assert front[i] == s[i];
        }
      }
      if Rejected(s, rule) == [] {
        forall i | 0 <= i < |s|
          ensures rule(s[i]).Some?
        {
          if i < |front| {
            assert s[i] == front[i];
          }
        }
      }
    }
  }

  // ------------------------------------------------------------ key totals

  predicate Distinct(ks: seq<string>) {
    forall i, j :: 0 <= i < j < |ks| ==> ks[i] != ks[j]
  }

  /** Each key of `ks` with the sum of `f` over its group. */
  function Entries<T(==)>(ks: seq<string>, s: seq<T>, key: T -> string, f: T -> int): (r: seq<(string, int)>)
    ensures |r| == |ks|
    ensures forall i :: 0 <= i < |ks| ==> r[i] == (ks[i], Sum(Group(s, key, ks[i]), f))
    decreases |ks|
  {
    if |ks| == 0 then [] else [(ks[0], Sum(Group(s, key, ks[0]), f))] + Entries(ks[1..], s, key, f)
  }

  /**
   * `Array.from(totals.entries())` for a `Map<string, number>` to which each
   * element adds its amount under its key: the keys in order of first
   * occurrence, each with its group's sum.
   */
  function Totals<T(==)>(s: seq<T>, key: T -> string, f: T -> int): seq<(string, int)> {
    Entries(Keys(s, key), s, key, f)
  }

  function EntryTotal(e: (string, int)): int {
    e.1
  }

  /** An entry's total as a sort key. */
  function EntryKey(e: (string, int)): real {
    e.1 as real
  }

  /** Every entry of the totals is a listed key with the sum of its group. */
  lemma TotalsEntries<T>(s: seq<T>, key: T -> string, f: T -> int)
    ensures forall e :: e in Totals(s, key, f) ==> e.0 in Keys(s, key) && e.1 == Sum(Group(s, key, e.0), f)
  {
    var ks := Keys(s, key);
    forall e | e in Totals(s, key, f)
      ensures e.0 in ks && e.1 == Sum(Group(s, key, e.0), f)
    {
      var i :| 0 <= i < |Totals(s, key, f)| && Totals(s, key, f)[i] == e;
      assert e == (ks[i], Sum(Group(s, key, ks[i]), f));
    }
  }

  /**
   * `Array.from(totals.entries()).sort((a, b) => b[1] - a[1]).slice(0, n)`:
   * at most `n` entries, largest first, each a key with its group's sum;
   * no entry left out is larger than one kept, and when there are at most
   * `n` keys the entries add up to the total.
   */
  lemma TopTotals<T>(s: seq<T>, key: T -> string, f: T -> int, n: nat)
    ensures var top := Take(SortDesc(Totals(s, key, f), EntryKey), n);
      && |top| <= n && SortedDesc(top, EntryKey)
      && (forall e :: e in top ==> e.1 == Sum(Group(s, key, e.0), f))
      && (forall e :: e in multiset(Totals(s, key, f)) - multiset(top) ==>
            forall i :: 0 <= i < |top| ==> e.1 <= top[i].1)
      && (|Keys(s, key)| <= n ==> Sum(top, EntryTotal) == Sum(s, f))
  {
    var totals := Totals(s, key, f);
    TakeSortedDesc(totals, EntryKey, n);
    TakeSortedIsTop(totals, EntryKey, n);
    TotalsEntries(s, key, f);
    if |Keys(s, key)| <= n {
      SumSortDesc(totals, EntryKey, EntryTotal);
      TotalsSumToTotal(s, key, f);
    }
  }

  /** The sum of the groups' sums over the keys `ks`. */
  function GroupedSum<T(==)>(ks: seq<string>, s: seq<T>, key: T -> string, f: T -> int): int
    decreases |ks|
  {
    if |ks| == 0 then 0 else Sum(Group(s, key, ks[0]), f) + GroupedSum(ks[1..], s, key, f)
  }

  lemma {:induction false} SumOfEntries<T>(ks: seq<string>, s: seq<T>, key: T -> string, f: T -> int)
    ensures Sum(Entries(ks, s, key, f), EntryTotal) == GroupedSum(ks, s, key, f)
    decreases |ks|
  {
    if |ks| > 0 {
      SumOfEntries(ks[1..], s, key, f);
      assert Entries(ks, s, key, f)[1..] == Entries(ks[1..], s, key, f);
    }
  }

  /** One more element adds its amount to the grouped sum exactly when its key is listed once. */
  lemma {:induction false} GroupedSumSnoc<T>(ks: seq<string>, s: seq<T>, key: T -> string, f: T -> int)
    requires |s| > 0 && Distinct(ks)
    ensures GroupedSum(ks, s, key, f)
         == GroupedSum(ks, s[..|s| - 1], key, f) + (if key(s[|s| - 1]) in ks then f(s[|s| - 1]) else 0)
    decreases |ks|
  {
    if |ks| > 0 {
      var front, x := s[..|s| - 1], s[|s| - 1];
      assert Distinct(ks[1..]);
      GroupedSumSnoc(ks[1..], s, key, f);
      var tail := if key(x) == ks[0] then [x] else [];
      assert Group(s, key, ks[0]) == Group(front, key, ks[0]) + tail;
      SumConcat(Group(front, key, ks[0]), tail, f);
      assert key(x) == ks[0] ==> key(x) !in ks[1..];
      assert key(x) in ks <==> key(x) == ks[0] || key(x) in ks[1..];
    }
  }

  /** Over distinct keys that cover every element, the grouped sum is the sum of all elements. */
  lemma {:induction false} GroupedSumAll<T>(ks: seq<string>, s: seq<T>, key: T -> string, f: T -> int)
    requires Distinct(ks)
    requires forall i :: 0 <= i < |s| ==> key(s[i]) in ks
    ensures GroupedSum(ks, s, key, f) == Sum(s, f)
    decreases |s|
  {
    if |s| == 0 {
      GroupedSumEmpty(ks, s, key, f);
    } else {
      var front, x := s[..|s| - 1], s[|s| - 1];
      GroupedSumAll(ks, front, key, f);
      GroupedSumSnoc(ks, s, key, f);
      SumConcat(front, [x], f);
      assert front + [x] == s;
    }
  }

  lemma {:induction false} GroupedSumEmpty<T>(ks: seq<string>, s: seq<T>, key: T -> string, f: T -> int)
    requires |s| == 0
    ensures GroupedSum(ks, s, key, f) == 0
    decreases |ks|
  {
    if |ks| > 0 {
      GroupedSumEmpty(ks[1..], s, key, f);
    }
  }

  /** The keys' totals add up to the total over all elements. */
  lemma TotalsSumToTotal<T>(s: seq<T>, key: T -> string, f: T -> int)
    ensures Sum(Totals(s, key, f), EntryTotal) == Sum(s, f)
  {
    KeysDistinct(s, key);
    KeysExactly(s, key);
    SumOfEntries(Keys(s, key), s, key, f);
    GroupedSumAll(Keys(s, key), s, key, f);
  }

  /** Appending one element extends its own key's group. */
  lemma GroupSnoc<T>(s: seq<T>, i: nat, key: T -> string, k: string)
    requires i < |s|
    ensures Group(s[..i + 1], key, k) == Group(s[..i], key, k) + (if key(s[i]) == k then [s[i]] else [])
  {
    assert s[..i + 1][..i] == s[..i];
  }

  /** The keys after one more element: its key is added when it is new. */
  lemma KeysSnoc<T>(s: seq<T>, i: nat, key: T -> string)
    requires i < |s|
    ensures Keys(s[..i + 1], key) ==
      if key(s[i]) in Keys(s[..i], key) then Keys(s[..i], key) else Keys(s[..i], key) + [key(s[i])]
  {
    assert s[..i + 1][..i] == s[..i];
  }

  /** Each entry of `totals` is the sum of its key's group in `g`, and unlisted keys have no group. */
  ghost predicate SumsOf<T>(g: seq<T>, key: T -> string, f: T -> int, totals: map<string, int>) {
    && (forall k :: k in totals ==> totals[k] == Sum(Group(g, key, k), f))
    && (forall k :: k !in totals ==> Group(g, key, k) == [])
  }

  /** One more element leaves the groups of the other keys as they were. */
  lemma OtherGroupSnoc<T>(s: seq<T>, i: nat, key: T -> string, k: string)
    requires i < |s| && key(s[i]) != k
    ensures Group(s[..i + 1], key, k) == Group(s[..i], key, k)
  {
    GroupSnoc(s, i, key, k);
    assert Group(s[..i], key, k) + [] == Group(s[..i], key, k);
  }

  /** The keys in first-seen order and the totals after the elements of `g`, one loop pass per element. */
  function Running<T>(g: seq<T>, key: T -> string, f: T -> int): (seq<string>, map<string, int>)
    decreases |g|
  {
    if |g| == 0 then ([], map[])
    else
      var (keys, totals) := Running(g[..|g| - 1], key, f);
      Pass(keys, totals, key(g[|g| - 1]), f(g[|g| - 1]))
  }

  /** One pass of the loop: a new key is appended, and the amount is added to the key's total. */
  function Pass(keys: seq<string>, totals: map<string, int>, k: string, amount: int): (seq<string>, map<string, int>) {
    (if k !in totals then keys + [k] else keys, totals[k := (if k in totals then totals[k] else 0) + amount])
  }

  /** The loop's map holds exactly the keys it has listed. */
  lemma {:induction false} RunningDomain<T>(g: seq<T>, key: T -> string, f: T -> int)
    ensures forall k :: k in Running(g, key, f).1 <==> k in Running(g, key, f).0
    decreases |g|
  {
    if |g| > 0 {
      RunningDomain(g[..|g| - 1], key, f);
    }
  }

  /** The loop lists the keys in the order they are first seen. */
  lemma {:induction false} RunningKeys<T>(g: seq<T>, key: T -> string, f: T -> int)
    ensures Running(g, key, f).0 == Keys(g, key)
    decreases |g|
  {
    if |g| > 0 {
      RunningKeys(g[..|g| - 1], key, f);
      RunningDomain(g[..|g| - 1], key, f);
    }
  }

  /** Each total of the loop is the sum of its key's group, and unlisted keys have no group. */
  lemma {:induction false} RunningSums<T>(g: seq<T>, key: T -> string, f: T -> int)
    ensures SumsOf(g, key, f, Running(g, key, f).1)
    decreases |g|
  {
    if |g| > 0 {
      var front, x := g[..|g| - 1], g[|g| - 1];
      var k := key(x);
      RunningSums(front, key, f);
      var totals := Running(front, key, f).1;
      var after := Running(g, key, f).1;
      assert after == totals[k := (if k in totals then totals[k] else 0) + f(x)];
      forall k' | k' in after
        ensures after[k'] == Sum(Group(g, key, k'), f)
      {
        SumConcat(Group(front, key, k'), if k == k' then [x] else [], f);
        if k == k' {
          assert Sum([x], f) == f(x) + Sum([x][1..], f);
        }
      }
      forall k' | k' !in after
        ensures Group(g, key, k') == []
      {
        assert Group(g, key, k') == Group(front, key, k') + [];
      }
    }
  }

  /** The totals loop: `totals.set(k, (totals.get(k) || 0) + f(x))` for each element. */
  method SumByKey<T(==)>(s: seq<T>, key: T -> string, f: T -> int) returns (keys: seq<string>, totals: map<string, int>)
    ensures keys == Keys(s, key)
    ensures forall k :: k in totals <==> k in keys
    ensures forall k :: k in totals ==> totals[k] == Sum(Group(s, key, k), f)
  {
    keys, totals := [], map[];
    var i := 0;
    while i < |s|
      invariant i <= |s|
      invariant (keys, totals) == Running(s[..i], key, f)
    {
      var k := key(s[i]);
      assert s[..i + 1][..i] == s[..i];
      var sum := if k in totals then totals[k] else 0;
      if k !in totals {
        keys := keys + [k];
      }
      totals := totals[k := sum + f(s[i])];
      i := i + 1;
    }
    assert s[..i] == s;
    RunningKeys(s, key, f);
    RunningDomain(s, key, f);
    RunningSums(s, key, f);
  }

  /** `Array.from(totals.entries())` after the totals loop. */
  method TotalsBy<T(==)>(s: seq<T>, key: T -> string, f: T -> int) returns (entries: seq<(string, int)>)
    ensures entries == Totals(s, key, f)
  {
    var keys, totals := SumByKey(s, key, f);
    entries := seq(|keys|, j requires 0 <= j < |keys| => (keys[j], totals[keys[j]]));
  }

  // --------------------------------------------------------------- tallies

  /** Running figures of a group: the sum of an amount, the size, and how many are marked. */
  datatype Tally = Tally(total: int, count: nat, marked: nat)

  function TallyOf<T(==)>(s: seq<T>, f: T -> int, mark: T -> bool): (t: Tally)
    ensures t.count == |s| && t.marked <= t.count
  {
    Tally(Sum(s, f), |s|, Count(s, mark))
  }

  /** The tally after one more element: `{ total: t.total + f(x), count: t.count + 1, marked: t.marked + (mark(x) ? 1 : 0) }`. */
  function Add<T>(t: Tally, x: T, f: T -> int, mark: T -> bool): Tally {
    Tally(t.total + f(x), t.count + 1, t.marked + if mark(x) then 1 else 0)
  }

  lemma TallySnoc<T>(g: seq<T>, x: T, f: T -> int, mark: T -> bool)
    ensures TallyOf(g + [x], f, mark) == Add(TallyOf(g, f, mark), x, f, mark)
  {
    SumConcat(g, [x], f);
    CountConcat(g, [x], mark);
  }

  /** Each entry of `tallies` is the tally of its key's group in `g`, and unlisted keys have no group. */
  ghost predicate TalliesOf<T>(g: seq<T>, key: T -> string, f: T -> int, mark: T -> bool, tallies: map<string, Tally>) {
    && (forall k :: k in tallies ==> tallies[k] == TallyOf(Group(g, key, k), f, mark))
    && (forall k :: k !in tallies ==> Group(g, key, k) == [])
  }

  /** One step of the tally loop keeps each entry the tally of its key's group so far. */
  lemma TallyStep<T>(s: seq<T>, i: nat, key: T -> string, f: T -> int, mark: T -> bool, tallies: map<string, Tally>)
    requires i < |s| && TalliesOf(s[..i], key, f, mark, tallies)
    ensures var k := key(s[i]);
      TalliesOf(s[..i + 1], key, f, mark,
                tallies[k := Add(if k in tallies then tallies[k] else Tally(0, 0, 0), s[i], f, mark)])
  {
    var k := key(s[i]);
    var after := tallies[k := Add(if k in tallies then tallies[k] else Tally(0, 0, 0), s[i], f, mark)];
    GroupSnoc(s, i, key, k);
    TallySnoc(Group(s[..i], key, k), s[i], f, mark);
    forall k' | k' in after
      ensures after[k'] == TallyOf(Group(s[..i + 1], key, k'), f, mark)
    {
      if k' != k {
        OtherGroupSnoc(s, i, key, k');
      }
    }
    forall k' | k' !in after
      ensures Group(s[..i + 1], key, k') == []
    {
      OtherGroupSnoc(s, i, key, k');
    }
  }

  /**
   * The tally loop: for each element, take its key's tally (all zeros when
   * the key is new), add the element, and store it back.
   */
  method TallyByKey<T(==)>(s: seq<T>, key: T -> string, f: T -> int, mark: T -> bool)
    returns (keys: seq<string>, tallies: map<string, Tally>)
    ensures keys == Keys(s, key)
    ensures forall k :: k in tallies <==> k in keys
    ensures forall k :: k in tallies ==> tallies[k] == TallyOf(Group(s, key, k), f, mark)
  {
    keys, tallies := [], map[];
    var i := 0;
    while i < |s|
      invariant i <= |s|
      invariant keys == Keys(s[..i], key)
      invariant forall k :: k in tallies <==> k in keys
      invariant TalliesOf(s[..i], key, f, mark, tallies)
    {
      var k := key(s[i]);
      TallyStep(s, i, key, f, mark, tallies);
      KeysSnoc(s, i, key);
      var existing := if k in tallies then tallies[k] else Tally(0, 0, 0);
      if k !in tallies {
        keys := keys + [k];
      }
      tallies := tallies[k := Add(existing, s[i], f, mark)];
      i := i + 1;
    }
    assert s[..i] == s;
  }
}
