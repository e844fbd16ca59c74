/** Vocabulary the other modules share: optional values, and the stable sort
    that stands for JavaScript's `Array.prototype.sort` with a comparator. */
module Options {
  datatype Option<+T> = None | Some(value: T)
}

module Sorting {

  function Least(a: nat, b: nat): nat { if a < b then a else b }

  ghost predicate TotalPreorder<T(!new)>(le: (T, T) -> bool) {
    && (forall a, b :: le(a, b) || le(b, a))
    && (forall a, b, c :: le(a, b) && le(b, c) ==> le(a, c))
  }

  ghost predicate Sorted<T>(xs: seq<T>, le: (T, T) -> bool) {
    forall i, j :: 0 <= i < j < |xs| ==> le(xs[i], xs[j])
  }

  function Insert<T>(x: T, ys: seq<T>, le: (T, T) -> bool): (r: seq<T>)
    ensures |r| == |ys| + 1
  {
    if ys == [] then [x]
    else if le(x, ys[0]) then [x] + ys
    else [ys[0]] + Insert(x, ys[1..], le)
  }

  /** Stable sort: equal elements keep their input order. */
  function Sort<T>(xs: seq<T>, le: (T, T) -> bool): (r: seq<T>)
    ensures |r| == |xs|
  {
    if xs == [] then [] else Insert(xs[0], Sort(xs[1..], le), le)
  }

  function Filter<T>(xs: seq<T>, p: T -> bool): seq<T> {
    if xs == [] then []
    else if p(xs[0]) then [xs[0]] + Filter(xs[1..], p)
    else Filter(xs[1..], p)
  }

  /** How many elements of `xs` come strictly before `t`. */
  function CountBefore<T>(xs: seq<T>, t: T, le: (T, T) -> bool): nat {
    if xs == [] then 0
    else (if le(t, xs[0]) then 0 else 1) + CountBefore(xs[1..], t, le)
  }

  /** No element of `xs` other than the one at `k` has the same key as it. */
  ghost predicate KeyIsUniqueAt<T>(xs: seq<T>, k: nat, le: (T, T) -> bool)
    requires k < |xs|
  {
    forall j :: 0 <= j < |xs| && j != k ==> !(le(xs[j], xs[k]) && le(xs[k], xs[j]))
  }

  /** All keys of `xs` differ. */
  ghost predicate DistinctKeys<T>(xs: seq<T>, le: (T, T) -> bool) {
    forall i, j :: 0 <= i < j < |xs| ==> !(le(xs[i], xs[j]) && le(xs[j], xs[i]))
  }

  lemma {:induction false} InsertIsPermutation<T>(x: T, ys: seq<T>, le: (T, T) -> bool)
    ensures multiset(Insert(x, ys, le)) == multiset([x] + ys)
  {
    if ys != [] && !le(x, ys[0]) {
      InsertIsPermutation(x, ys[1..], le);
      assert ys == [ys[0]] + ys[1..];
      calc {
        multiset(Insert(x, ys, le));
        multiset{ys[0]} + multiset(Insert(x, ys[1..], le));
        multiset{ys[0]} + (multiset{x} + multiset(ys[1..]));
        multiset{x} + (multiset{ys[0]} + multiset(ys[1..]));
        multiset{x} + multiset(ys);
      }
    }
  }

  lemma {:induction false} InsertKeepsSorted<T(!new)>(x: T, ys: seq<T>, le: (T, T) -> bool)
    requires TotalPreorder(le) && Sorted(ys, le)
    ensures Sorted(Insert(x, ys, le), le)
  {
    if ys != [] && !le(x, ys[0]) {
      var rest := Insert(x, ys[1..], le);
      InsertKeepsSorted(x, ys[1..], le);
      InsertIsPermutation(x, ys[1..], le);
      forall r | r in rest ensures le(ys[0], r) {
        assert r in multiset(rest);
        assert r in multiset([x] + ys[1..]);
        assert r == x || r in ys[1..];
      }
    }
  }

  /** What a caller relies on: a permutation of the input, in order. */
  lemma {:induction false} SortIsSortedPermutation<T(!new)>(xs: seq<T>, le: (T, T) -> bool)
    requires TotalPreorder(le)
    ensures Sorted(Sort(xs, le), le)
    ensures multiset(Sort(xs, le)) == multiset(xs)
  {
    if xs != [] {
      SortIsSortedPermutation(xs[1..], le);
      InsertKeepsSorted(xs[0], Sort(xs[1..], le), le);
      InsertIsPermutation(xs[0], Sort(xs[1..], le), le);
      assert xs == [xs[0]] + xs[1..];
    }
  }

  lemma {:induction false} CountBeforeInsert<T>(x: T, ys: seq<T>, t: T, le: (T, T) -> bool)
    ensures CountBefore(Insert(x, ys, le), t, le) == CountBefore([x] + ys, t, le)
  {
    assert ([x] + ys)[1..] == ys;
    if ys != [] && !le(x, ys[0]) {
      CountBeforeInsert(x, ys[1..], t, le);
      assert ([x] + ys[1..])[1..] == ys[1..];
      assert Insert(x, ys, le)[1..] == Insert(x, ys[1..], le);
    }
  }

  lemma {:induction false} CountBeforeSort<T>(xs: seq<T>, t: T, le: (T, T) -> bool)
    ensures CountBefore(Sort(xs, le), t, le) == CountBefore(xs, t, le)
  {
    if xs != [] {
      CountBeforeSort(xs[1..], t, le);
      CountBeforeInsert(xs[0], Sort(xs[1..], le), t, le);
      assert ([xs[0]] + Sort(xs[1..], le))[1..] == Sort(xs[1..], le);
    }
  }

  lemma {:induction false} CountBeforeNone<T>(xs: seq<T>, t: T, le: (T, T) -> bool)
    requires forall j :: 0 <= j < |xs| ==> le(t, xs[j])
    ensures CountBefore(xs, t, le) == 0
  {
    if xs != [] { CountBeforeNone(xs[1..], t, le); }
  }

  lemma {:induction false} CountBeforePrefix<T>(xs: seq<T>, k: nat, le: (T, T) -> bool, t: T)
    requires k < |xs| && t == xs[k]
    requires forall j :: 0 <= j < k ==> !le(t, xs[j])
    requires forall j :: k <= j < |xs| ==> le(t, xs[j])
    ensures CountBefore(xs, t, le) == k
  {
    if k == 0 {
      CountBeforeNone(xs, t, le);
    } else {
      CountBeforePrefix(xs[1..], k - 1, le, t);
    }
  }

  /** In a sorted sequence, the index of an element whose key is unique is
      the number of elements before it. */
  lemma IndexIsCountBefore<T(!new)>(xs: seq<T>, k: nat, le: (T, T) -> bool)
    requires TotalPreorder(le) && Sorted(xs, le) && k < |xs|
    requires KeyIsUniqueAt(xs, k, le)
    ensures CountBefore(xs, xs[k], le) == k
  {
    CountBeforePrefix(xs, k, le, xs[k]);
  }

  /** Sorting keeps keys distinct, stated through counting: an element of a
      sequence with distinct keys is found in the sorted sequence exactly at
      its count. */
  lemma SortedIndexOf<T(!new)>(xs: seq<T>, i: nat, le: (T, T) -> bool)
    requires TotalPreorder(le) && i < |xs| && DistinctKeys(xs, le)
    ensures CountBefore(xs, xs[i], le) < |xs|
    ensures Sort(xs, le)[CountBefore(xs, xs[i], le)] == xs[i]
  {
    var t, s := xs[i], Sort(xs, le);
    SortIsSortedPermutation(xs, le);
    assert t in multiset(s);
    var k :| 0 <= k < |s| && s[k] == t;
    SortKeepsDistinct(xs, le);
    assert KeyIsUniqueAt(s, k, le) by {
      forall j | 0 <= j < |s| && j != k ensures !(le(s[j], s[k]) && le(s[k], s[j])) {
        if j < k { assert !(le(s[j], s[k]) && le(s[k], s[j])); }
        else { assert !(le(s[k], s[j]) && le(s[j], s[k])); }
      }
    }
    IndexIsCountBefore(s, k, le);
    CountBeforeSort(xs, t, le);
  }

  predicate Tie<T>(x: T, y: T, le: (T, T) -> bool) { le(x, y) && le(y, x) }

  lemma DistinctCons<T>(x: T, ys: seq<T>, le: (T, T) -> bool)
    ensures DistinctKeys([x] + ys, le) <==> DistinctKeys(ys, le) && forall y :: y in ys ==> !Tie(x, y, le)
  {
    var zs := [x] + ys;
    if DistinctKeys(zs, le) {
      forall i, j | 0 <= i < j < |ys| ensures !Tie(ys[i], ys[j], le) { assert !Tie(zs[i + 1], zs[j + 1], le); }
      forall y | y in ys ensures !Tie(x, y, le) {
        var j :| 0 <= j < |ys| && ys[j] == y;
        assert !Tie(zs[0], zs[j + 1], le);
      }
    }
    if DistinctKeys(ys, le) && forall y :: y in ys ==> !Tie(x, y, le) {
      forall i, j | 0 <= i < j < |zs| ensures !Tie(zs[i], zs[j], le) {
        if i > 0 { assert !Tie(ys[i - 1], ys[j - 1], le); }
      }
    }
  }

  lemma {:induction false} InsertMember<T>(x: T, ys: seq<T>, le: (T, T) -> bool, r: T)
    requires r in Insert(x, ys, le)
    ensures r == x || r in ys
  {
    if ys != [] && !le(x, ys[0]) && r != ys[0] { InsertMember(x, ys[1..], le, r); }
  }

  lemma {:induction false} InsertKeepsDistinct<T>(x: T, ys: seq<T>, le: (T, T) -> bool)
    requires DistinctKeys(ys, le) && forall y :: y in ys ==> !Tie(x, y, le)
    ensures DistinctKeys(Insert(x, ys, le), le)
  {
    if ys == [] || le(x, ys[0]) {
      DistinctCons(x, ys, le);
      assert [x] + [] == [x];
    } else {
      var rest := ys[1..];
      assert ys == [ys[0]] + rest;
      DistinctCons(ys[0], rest, le);
      InsertKeepsDistinct(x, rest, le);
      assert !Tie(ys[0], x, le) by { assert !Tie(x, ys[0], le); }
      var more := Insert(x, rest, le);
      forall y | y in more ensures !Tie(ys[0], y, le) { InsertMember(x, rest, le, y); }
      DistinctCons(ys[0], more, le);
      assert Insert(x, ys, le) == [ys[0]] + more;
    }
  }

  lemma {:induction false} SortMember<T>(xs: seq<T>, le: (T, T) -> bool, r: T)
    requires r in Sort(xs, le)
    ensures r in xs
  {
    if xs != [] {
      InsertMember(xs[0], Sort(xs[1..], le), le, r);
      if r != xs[0] { SortMember(xs[1..], le, r); }
    }
  }

  lemma {:induction false} SortKeepsDistinct<T>(xs: seq<T>, le: (T, T) -> bool)
    requires DistinctKeys(xs, le)
    ensures DistinctKeys(Sort(xs, le), le)
  {
    if xs != [] {
      assert xs == [xs[0]] + xs[1..];
      DistinctCons(xs[0], xs[1..], le);
      SortKeepsDistinct(xs[1..], le);
      var rest := Sort(xs[1..], le);
      forall y | y in rest ensures !Tie(xs[0], y, le) { SortMember(xs[1..], le, y); }
      InsertKeepsDistinct(xs[0], rest, le);
    }
  }

  lemma {:induction false} InsertBeforeAll<T>(x: T, ys: seq<T>, le: (T, T) -> bool)
    requires forall j :: 0 <= j < |ys| ==> le(x, ys[j])
    ensures Insert(x, ys, le) == [x] + ys
  {
  }

  lemma {:induction false} FilterInsert<T(!new)>(x: T, ys: seq<T>, le: (T, T) -> bool, p: T -> bool)
    requires TotalPreorder(le) && Sorted(ys, le)
    ensures Filter(Insert(x, ys, le), p) == if p(x) then Insert(x, Filter(ys, p), le) else Filter(ys, p)
  {
    if ys == [] {
      assert Filter([x], p) == if p(x) then [x] else [];
    } else if le(x, ys[0]) {
      assert ([x] + ys)[1..] == ys;
      FilterMembers(ys, p);
      forall j | 0 <= j < |Filter(ys, p)| ensures le(x, Filter(ys, p)[j]) {
        assert Filter(ys, p)[j] in ys;
      }
      InsertBeforeAll(x, Filter(ys, p), le);
    } else {
      FilterInsert(x, ys[1..], le, p);
      assert Insert(x, ys, le)[1..] == Insert(x, ys[1..], le);
      assert ([ys[0]] + Filter(ys[1..], p))[1..] == Filter(ys[1..], p);
    }
  }

  lemma {:induction false} FilterMembers<T>(xs: seq<T>, p: T -> bool)
    ensures forall x :: x in Filter(xs, p) <==> x in xs && p(x)
  {
    if xs != [] {
      FilterMembers(xs[1..], p);
      assert xs == [xs[0]] + xs[1..];
    }
  }

  /** Filtering a sorted list gives the sorted list of the filtered rows. */
  lemma {:induction false} FilterSort<T(!new)>(xs: seq<T>, le: (T, T) -> bool, p: T -> bool)
    requires TotalPreorder(le)
    ensures Filter(Sort(xs, le), p) == Sort(Filter(xs, p), le)
  {
    if xs != [] {
      FilterSort(xs[1..], le, p);
      SortIsSortedPermutation(xs[1..], le);
      FilterInsert(xs[0], Sort(xs[1..], le), le, p);
      if p(xs[0]) { assert ([xs[0]] + Filter(xs[1..], p))[1..] == Filter(xs[1..], p); }
    }
  }

  // ----- keeping the first n in order ---------------------------------------

  /** Fewer than `n` elements of `xs` come before. */
  function AmongFirst<T>(xs: seq<T>, n: nat, le: (T, T) -> bool): T -> bool {
    x => CountBefore(xs, x, le) < n
  }

  function Strictly<T>(t: T, le: (T, T) -> bool): T -> bool { x => !le(t, x) }

  lemma {:induction false} CountBeforeIsFilter<T>(xs: seq<T>, t: T, le: (T, T) -> bool)
    ensures CountBefore(xs, t, le) == |Filter(xs, Strictly(t, le))|
  {
    if xs != [] { CountBeforeIsFilter(xs[1..], t, le); }
  }

  lemma {:induction false} FilterLength<T>(xs: seq<T>, p: T -> bool, q: T -> bool)
    requires forall x :: x in xs && p(x) ==> q(x)
    ensures |Filter(xs, p)| <= |Filter(xs, q)| <= |xs|
  {
    if xs != [] { FilterLength(xs[1..], p, q); }
  }

  lemma {:induction false} FilterSame<T>(xs: seq<T>, p: T -> bool, q: T -> bool)
    requires forall x :: x in xs ==> (p(x) <==> q(x))
    ensures Filter(xs, p) == Filter(xs, q)
  {
    if xs != [] { FilterSame(xs[1..], p, q); }
  }

  lemma {:induction false} FilterAll<T>(xs: seq<T>, p: T -> bool)
    requires forall x :: x in xs ==> p(x)
    ensures Filter(xs, p) == xs
  {
    if xs != [] { FilterAll(xs[1..], p); }
  }

  lemma {:induction false} FilterTwice<T>(xs: seq<T>, p: T -> bool, q: T -> bool)
    ensures Filter(Filter(xs, p), q) == Filter(xs, x => p(x) && q(x))
  {
    if xs != [] {
      FilterTwice(xs[1..], p, q);
      assert ([xs[0]] + Filter(xs[1..], p))[1..] == Filter(xs[1..], p);
    }
  }

  lemma {:induction false} FilterAppend<T>(xs: seq<T>, y: T, p: T -> bool)
    ensures Filter(xs + [y], p) == Filter(xs, p) + (if p(y) then [y] else [])
  {
    if xs == [] {
      assert [] + [y] == [y] && [y][1..] == [];
    } else {
      assert (xs + [y])[1..] == xs[1..] + [y];
      FilterAppend(xs[1..], y, p);
    }
  }

  lemma {:induction false} FilterUpdate<T>(xs: seq<T>, i: nat, y: T, p: T -> bool)
    requires i < |xs|
    ensures |Filter(xs[i := y], p)| + (if p(xs[i]) then 1 else 0) == |Filter(xs, p)| + (if p(y) then 1 else 0)
  {
    if i == 0 {
      assert xs[i := y][1..] == xs[1..];
    } else {
      assert xs[i := y][1..] == xs[1..][i - 1 := y];
      FilterUpdate(xs[1..], i - 1, y, p);
    }
  }

  lemma {:induction false} FilterPrefix<T>(xs: seq<T>, n: nat, p: T -> bool)
    requires forall k :: 0 <= k < |xs| ==> (p(xs[k]) <==> k < n)
    ensures |Filter(xs, p)| == if n < |xs| then n else |xs|
  {
    if xs != [] {
      if n == 0 {
        FilterPrefix(xs[1..], 0, p);
      } else {
        FilterPrefix(xs[1..], n - 1, p);
      }
    }
  }

  lemma {:induction false} CountBeforeMonotone<T(!new)>(xs: seq<T>, x: T, y: T, le: (T, T) -> bool)
    requires TotalPreorder(le) && le(x, y)
    ensures CountBefore(xs, x, le) <= CountBefore(xs, y, le)
  {
    if xs != [] { CountBeforeMonotone(xs[1..], x, y, le); }
  }

  lemma {:induction false} CountBeforeBound<T>(xs: seq<T>, x: T, le: (T, T) -> bool)
    ensures CountBefore(xs, x, le) <= |xs|
  {
    if xs != [] { CountBeforeBound(xs[1..], x, le); }
  }

  /** The element at index `k` of the sorted sequence has `k` before it. */
  lemma CountBeforeOfSorted<T(!new)>(xs: seq<T>, le: (T, T) -> bool)
    requires TotalPreorder(le) && DistinctKeys(xs, le)
    ensures forall k :: 0 <= k < |xs| ==> CountBefore(xs, Sort(xs, le)[k], le) == k
  {
    var s := Sort(xs, le);
    SortIsSortedPermutation(xs, le);
    SortKeepsDistinct(xs, le);
    forall k | 0 <= k < |s| ensures CountBefore(xs, s[k], le) == k {
      assert KeyIsUniqueAt(s, k, le) by {
        forall j | 0 <= j < |s| && j != k ensures !(le(s[j], s[k]) && le(s[k], s[j])) {
          if j < k { assert !(le(s[j], s[k]) && le(s[k], s[j])); }
          else { assert !(le(s[k], s[j]) && le(s[j], s[k])); }
        }
      }
      IndexIsCountBefore(s, k, le);
      CountBeforeSort(xs, s[k], le);
    }
  }

  /** Exactly the first `n` in order, or all if there are fewer. */
  lemma AmongFirstCount<T(!new)>(xs: seq<T>, n: nat, le: (T, T) -> bool)
    requires TotalPreorder(le) && DistinctKeys(xs, le)
    ensures |Filter(xs, AmongFirst(xs, n, le))| == if n < |xs| then n else |xs|
  {
    CountBeforeOfSorted(xs, le);
    FilterPrefix(Sort(xs, le), n, AmongFirst(xs, n, le));
    FilterSort(xs, le, AmongFirst(xs, n, le));
  }

  /** Cutting the sorted sequence at `n` separates those among the first `n`
      from the rest. */
  lemma SortedCut<T(!new)>(xs: seq<T>, n: nat, le: (T, T) -> bool)
    requires TotalPreorder(le) && DistinctKeys(xs, le) && n <= |xs|
    ensures forall x :: x in Sort(xs, le)[..n] <==> x in xs && AmongFirst(xs, n, le)(x)
    ensures forall x :: x in Sort(xs, le)[n..] <==> x in xs && !AmongFirst(xs, n, le)(x)
  {
    var s := Sort(xs, le);
    CountBeforeOfSorted(xs, le);
    SortIsSortedPermutation(xs, le);
    forall k | 0 <= k < |s| ensures s[k] in xs { assert s[k] in multiset(s); }
    forall x | x in xs ensures CountBefore(xs, x, le) < |s| && s[CountBefore(xs, x, le)] == x {
      var i :| 0 <= i < |xs| && xs[i] == x;
      SortedIndexOf(xs, i, le);
    }
    forall x | x in xs && !AmongFirst(xs, n, le)(x) ensures x in s[n..] {
      assert s[n..][CountBefore(xs, x, le) - n] == x;
    }
    forall x | x in xs && AmongFirst(xs, n, le)(x) ensures x in s[..n] {
      assert s[..n][CountBefore(xs, x, le)] == x;
    }
  }

  /** Removing elements that are not among the first `n` does not change who
      is among the first `n`. */
  lemma AmongFirstIsStable<T(!new)>(xs: seq<T>, keep: T -> bool, n: nat, x: T, le: (T, T) -> bool)
    requires TotalPreorder(le) && DistinctKeys(xs, le)
    requires forall y :: y in xs && CountBefore(xs, y, le) < n ==> keep(y)
    ensures CountBefore(Filter(xs, keep), x, le) < n <==> CountBefore(xs, x, le) < n
  {
    var ys := Filter(xs, keep);
    FilterTwice(xs, keep, Strictly(x, le));
    CountBeforeIsFilter(xs, x, le);
    CountBeforeIsFilter(ys, x, le);
    var both := y => keep(y) && Strictly(x, le)(y);
    FilterLength(xs, both, Strictly(x, le));
    if CountBefore(xs, x, le) >= n {
      CountBeforeBound(xs, x, le);
      AmongFirstCount(xs, n, le);
      forall y | y in xs && AmongFirst(xs, n, le)(y) ensures both(y) {
        if le(x, y) { CountBeforeMonotone(xs, x, y, le); }
      }
      FilterLength(xs, AmongFirst(xs, n, le), both);
    }
  }

  lemma {:induction false} FilterKeepsDistinct<T(!new)>(xs: seq<T>, p: T -> bool, le: (T, T) -> bool)
    requires forall i, j :: 0 <= i < j < |xs| && p(xs[i]) && p(xs[j]) ==> !(le(xs[i], xs[j]) && le(xs[j], xs[i]))
    ensures DistinctKeys(Filter(xs, p), le)
  {
    if xs != [] {
      forall i, j | 0 <= i < j < |xs[1..]| && p(xs[1..][i]) && p(xs[1..][j])
        ensures !(le(xs[1..][i], xs[1..][j]) && le(xs[1..][j], xs[1..][i]))
      {
        assert !(le(xs[i + 1], xs[j + 1]) && le(xs[j + 1], xs[i + 1]));
      }
      FilterKeepsDistinct(xs[1..], p, le);
      var rest := Filter(xs[1..], p);
      FilterMembers(xs[1..], p);
      if p(xs[0]) {
        forall j | 0 <= j < |rest| ensures !(le(xs[0], rest[j]) && le(rest[j], xs[0])) {
          assert rest[j] in xs[1..];
          var k :| 0 <= k < |xs[1..]| && xs[1..][k] == rest[j];
          assert xs[k + 1] == rest[j];
        }
      }
    }
  }

  lemma {:induction false} CountBeforeSameKey<T(!new)>(xs: seq<T>, x: T, y: T, le: (T, T) -> bool)
    requires TotalPreorder(le) && le(x, y) && le(y, x)
    ensures CountBefore(xs, x, le) == CountBefore(xs, y, le)
  {
    CountBeforeMonotone(xs, x, y, le);
    CountBeforeMonotone(xs, y, x, le);
  }
}
