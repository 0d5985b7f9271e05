/** Wrappers, stable sorting by an integer key, filtering and summation, shared by every module. */
module Common {

  datatype Option<+T> = None | Some(value: T)

  datatype Result<+T> = Ok(value: T) | Err(message: string)

  // ---------------------------------------------------------------------------
  // Sorting: `sort_by_key` is a stable sort, modelled by stable insertion.
  // ---------------------------------------------------------------------------

  ghost predicate SortedBy<T>(key: T -> int, s: seq<T>) {
    forall i, j | 0 <= i < j < |s| :: key(s[i]) <= key(s[j])
  }

  ghost predicate StrictlySortedBy<T>(key: T -> int, s: seq<T>) {
    forall i, j | 0 <= i < j < |s| :: key(s[i]) < key(s[j])
  }

  function Insert<T>(key: T -> int, x: T, s: seq<T>): seq<T> {
    if s == [] || key(x) <= key(s[0]) then [x] + s else [s[0]] + Insert(key, x, s[1..])
  }

  function SortBy<T>(key: T -> int, s: seq<T>): seq<T> {
    if s == [] then [] else Insert(key, s[0], SortBy(key, s[1..]))
  }

  lemma {:induction false} InsertSorts<T>(key: T -> int, x: T, s: seq<T>)
    requires SortedBy(key, s)
    ensures SortedBy(key, Insert(key, x, s))
    ensures multiset(Insert(key, x, s)) == multiset{x} + multiset(s)
  {
    if s == [] || key(x) <= key(s[0]) {
      SortedCons(key, x, s);
    } else {
      var rest := Insert(key, x, s[1..]);
      InsertSorts(key, x, s[1..]);
      assert s == [s[0]] + s[1..];
      forall y | y in rest ensures key(s[0]) <= key(y) {
        assert y in multiset(rest);
        assert y == x || y in s[1..];
      }
      SortedCons(key, s[0], rest);
    }
  }

  lemma {:induction false} SortedCons<T>(key: T -> int, x: T, s: seq<T>)
    requires SortedBy(key, s) && forall y | y in s :: key(x) <= key(y)
    ensures SortedBy(key, [x] + s)
  {
  }

  lemma {:induction false} StrictlySortedCons<T>(key: T -> int, x: T, s: seq<T>)
    requires StrictlySortedBy(key, s) && forall y | y in s :: key(x) < key(y)
    ensures StrictlySortedBy(key, [x] + s)
  {
  }

  /** Sorting yields a sorted permutation. */
  lemma {:induction false} SortBySorts<T>(key: T -> int, s: seq<T>)
    ensures SortedBy(key, SortBy(key, s))
    ensures multiset(SortBy(key, s)) == multiset(s)
    ensures |SortBy(key, s)| == |s|
    ensures forall x :: x in SortBy(key, s) <==> x in s
  {
    if s == [] {
    } else {
      SortBySorts(key, s[1..]);
      InsertSorts(key, s[0], SortBy(key, s[1..]));
      assert s == [s[0]] + s[1..];
    }
    SameElements(SortBy(key, s), s);
  }

  lemma {:induction false} SameElements<T>(a: seq<T>, b: seq<T>)
    requires multiset(a) == multiset(b)
    ensures |a| == |b|
    ensures forall x :: x in a <==> x in b
  {
    assert |multiset(a)| == |multiset(b)|;
    forall x ensures x in a <==> x in b {
      assert x in a <==> x in multiset(a);
      assert x in b <==> x in multiset(b);
    }
  }

  /** A strictly sorted sequence is determined by its set of elements. */
  lemma {:induction false} StrictlySortedUnique<T>(key: T -> int, a: seq<T>, b: seq<T>)
    requires StrictlySortedBy(key, a) && StrictlySortedBy(key, b)
    requires forall x :: x in a <==> x in b
    ensures a == b
  {
    assert a != [] ==> a[0] in b;
    assert b != [] ==> b[0] in a;
    if a != [] {
      assert a[0] in b && b[0] in a;
      assert a[0] == b[0];
      forall x ensures x in a[1..] <==> x in b[1..] {
        if x in a[1..] { assert x in b && key(x) > key(a[0]); }
        if x in b[1..] { assert x in a && key(x) > key(b[0]); }
      }
      StrictlySortedUnique(key, a[1..], b[1..]);
      assert a == [a[0]] + a[1..] && b == [b[0]] + b[1..];
    }
  }

  ghost predicate DistinctBy<T>(key: T -> int, s: seq<T>) {
    forall i, j | 0 <= i < j < |s| :: key(s[i]) != key(s[j])
  }

  /** Sorting by a key that is injective on the elements sorts strictly. */
  lemma {:induction false} SortStrictly<T>(key: T -> int, s: seq<T>)
    requires DistinctBy(key, s)
    ensures StrictlySortedBy(key, SortBy(key, s))
  {
    SortBySorts(key, s);
    var t := SortBy(key, s);
    forall i, j | 0 <= i < j < |t| ensures key(t[i]) < key(t[j]) {
      if key(t[i]) == key(t[j]) {
        DistinctKeysPermute(key, s, t, i, j);
      }
    }
  }

  lemma {:induction false} DistinctKeysPermute<T>(key: T -> int, s: seq<T>, t: seq<T>, i: int, j: int)
    requires DistinctBy(key, s)
    requires multiset(s) == multiset(t)
    requires 0 <= i < j < |t|
    ensures key(t[i]) != key(t[j])
  {
    if t[i] == t[j] {
      assert t == t[..i] + [t[i]] + t[i+1..j] + [t[j]] + t[j+1..];
      assert multiset(t)[t[i]] >= 2;
      TwoOccurrences(s, t[i]);
    } else {
      assert t[i] in multiset(t) && t[j] in multiset(t);
      assert t[i] in s && t[j] in s;
      var a :| 0 <= a < |s| && s[a] == t[i];
      var b :| 0 <= b < |s| && s[b] == t[j];
      assert a != b;
    }
  }

  lemma {:induction false} TwoOccurrences<T>(s: seq<T>, x: T)
    requires multiset(s)[x] >= 2
    ensures exists a, b :: 0 <= a < b < |s| && s[a] == x && s[b] == x
  {
    assert s == [s[0]] + s[1..];
    if s[0] == x {
      assert x in multiset(s[1..]);
      var b :| 0 <= b < |s[1..]| && s[1..][b] == x;
      assert s[0] == x && s[b + 1] == x;
    } else {
      TwoOccurrences(s[1..], x);
      var a, b :| 0 <= a < b < |s[1..]| && s[1..][a] == x && s[1..][b] == x;
      assert s[a + 1] == x && s[b + 1] == x;
    }
  }

  // ---------------------------------------------------------------------------
  // Filtering (`retain`) and summation
  // ---------------------------------------------------------------------------

  function Filter<T>(keep: T -> bool, s: seq<T>): seq<T> {
    if s == [] then [] else (if keep(s[0]) then [s[0]] else []) + Filter(keep, s[1..])
  }

  lemma {:induction false} FilterContents<T>(keep: T -> bool, s: seq<T>)
    ensures forall x | x in Filter(keep, s) :: x in s && keep(x)
    ensures forall x | x in s && keep(x) :: x in Filter(keep, s)
    ensures |Filter(keep, s)| <= |s|
  {
    if s != [] {
      FilterContents(keep, s[1..]);
      assert s == [s[0]] + s[1..];
    }
  }

  lemma {:induction false} FilterCounts<T>(keep: T -> bool, s: seq<T>, x: T)
    ensures multiset(Filter(keep, s))[x] == if keep(x) then multiset(s)[x] else 0
  {
    if s != [] {
      FilterCounts(keep, s[1..], x);
      assert s == [s[0]] + s[1..];
    }
  }

  lemma {:induction false} FilterConcat<T>(keep: T -> bool, a: seq<T>, b: seq<T>)
    ensures Filter(keep, a + b) == Filter(keep, a) + Filter(keep, b)
  {
    if a == [] {
      assert a + b == b;
    } else {
      FilterConcat(keep, a[1..], b);
      assert (a + b)[0] == a[0] && (a + b)[1..] == a[1..] + b;
      var head, tail := if keep(a[0]) then [a[0]] else [], Filter(keep, a[1..]);
      assert head + (tail + Filter(keep, b)) == (head + tail) + Filter(keep, b);
    }
  }

  /** Filtering keeps the order, so it keeps sortedness. */
  lemma {:induction false} FilterKeepsOrder<T>(key: T -> int, keep: T -> bool, s: seq<T>)
    requires SortedBy(key, s)
    ensures SortedBy(key, Filter(keep, s))
  {
    if s != [] {
      var rest := Filter(keep, s[1..]);
      FilterKeepsOrder(key, keep, s[1..]);
      if keep(s[0]) {
        forall y | y in rest ensures key(s[0]) <= key(y) {
          FilterContents(keep, s[1..]);
        }
        SortedCons(key, s[0], rest);
      }
    }
  }

  lemma {:induction false} FilterKeepsDistinct<T>(key: T -> int, keep: T -> bool, s: seq<T>)
    requires DistinctBy(key, s)
    ensures DistinctBy(key, Filter(keep, s))
  {
    if s != [] {
      FilterKeepsDistinct(key, keep, s[1..]);
      FilterContents(keep, s[1..]);
      assert forall y | y in s[1..] :: key(s[0]) != key(y);
    }
  }

  /** Cuts `x` out of a sequence that contains it. */
  lemma {:induction false} Extract<T>(s: seq<T>, x: T) returns (before: seq<T>, after: seq<T>)
    requires x in s
    ensures s == before + [x] + after
    ensures multiset(before + after) == multiset(s) - multiset{x}
  {
    var i :| 0 <= i < |s| && s[i] == x;
    before, after := s[..i], s[i + 1..];
    assert s == before + [x] + after;
    assert multiset(s) == multiset(before) + multiset{x} + multiset(after);
  }

  function Singleton<T>(keep: T -> bool, x: T): multiset<T> {
    if keep(x) then multiset{x} else multiset{}
  }

  lemma {:induction false} FilterInsert<T>(keep: T -> bool, before: seq<T>, x: T, after: seq<T>)
    ensures multiset(Filter(keep, before + [x] + after)) == Singleton(keep, x) + multiset(Filter(keep, before + after))
  {
    FilterConcat(keep, before, after);
    FilterConcat(keep, before + [x], after);
    FilterConcat(keep, before, [x]);
    assert multiset(Filter(keep, [x])) == Singleton(keep, x);
  }

  lemma {:induction false} FilterPermutes<T>(keep: T -> bool, a: seq<T>, b: seq<T>)
    requires multiset(a) == multiset(b)
    ensures multiset(Filter(keep, a)) == multiset(Filter(keep, b))
  {
    SameElements(a, b);
    if a != [] {
      var before, after := Extract(b, a[0]);
      assert a == [] + [a[0]] + a[1..];
      assert [] + a[1..] == a[1..];
      assert multiset(a[1..]) == multiset(a) - multiset{a[0]};
      FilterPermutes(keep, a[1..], before + after);
      FilterInsert(keep, before, a[0], after);
      FilterInsert(keep, [], a[0], a[1..]);
    }
  }

  function Sum<T>(f: T -> real, s: seq<T>): real {
    if s == [] then 0.0 else f(s[0]) + Sum(f, s[1..])
  }

  lemma {:induction false} SumConcat<T>(f: T -> real, a: seq<T>, b: seq<T>)
    ensures Sum(f, a + b) == Sum(f, a) + Sum(f, b)
  {
    if a == [] {
      assert a + b == b;
    } else {
      SumConcat(f, a[1..], b);
      assert (a + b)[1..] == a[1..] + b;
    }
  }

  /** A sum does not depend on the order of the summands. */
  lemma {:induction false} SumPermutes<T>(f: T -> real, a: seq<T>, b: seq<T>)
    requires multiset(a) == multiset(b)
    ensures Sum(f, a) == Sum(f, b)
  {
    SameElements(a, b);
    if a != [] {
      assert a == [a[0]] + a[1..];
      var before, after := Extract(b, a[0]);
      assert multiset(a[1..]) == multiset(a) - multiset{a[0]};
      SumPermutes(f, a[1..], before + after);
      SumConcat(f, before, after);
      SumConcat(f, before + [a[0]], after);
      SumConcat(f, before, [a[0]]);
      assert Sum(f, [a[0]]) == f(a[0]);
    }
  }

  // ---------------------------------------------------------------------------
  // Flattening loops
  // ---------------------------------------------------------------------------

  lemma {:induction false} Associate<T>(a: seq<T>, b: seq<T>, c: seq<T>)
    ensures a + (b + c) == (a + b) + c
  {
  }

  function FlatMap<T, U>(f: T -> seq<U>, s: seq<T>): seq<U> {
    if s == [] then [] else f(s[0]) + FlatMap(f, s[1..])
  }

  lemma {:induction false} FlatMapConcat<T, U>(f: T -> seq<U>, a: seq<T>, b: seq<T>)
    ensures FlatMap(f, a + b) == FlatMap(f, a) + FlatMap(f, b)
  {
    if a == [] {
      assert a + b == b;
    } else {
      FlatMapConcat(f, a[1..], b);
      assert (a + b)[0] == a[0] && (a + b)[1..] == a[1..] + b;
      Associate(f(a[0]), FlatMap(f, a[1..]), FlatMap(f, b));
    }
  }

  lemma {:induction false} FlatMapSnoc<T, U>(f: T -> seq<U>, s: seq<T>, x: T)
    ensures FlatMap(f, s + [x]) == FlatMap(f, s) + f(x)
  {
    FlatMapConcat(f, s, [x]);
    assert FlatMap(f, [x]) == f(x) + [];
  }

  function Same<T>(s: seq<T>): seq<T> { s }

  function Flatten<T>(ss: seq<seq<T>>): seq<T> { FlatMap(Same, ss) }

  lemma {:induction false} FlattenCons<T>(s: seq<T>, ss: seq<seq<T>>)
    ensures Flatten([s] + ss) == s + Flatten(ss)
  {
    assert ([s] + ss)[1..] == ss;
  }

  /** A loop that appends the output of each item in turn. */
  method AppendEach<T, U>(f: T -> seq<U>, items: seq<T>, out0: seq<U>) returns (out: seq<U>)
    ensures out == out0 + FlatMap(f, items)
  {
    out := out0;
    for i := 0 to |items|
      invariant out == out0 + FlatMap(f, items[..i])
    {
      assert items[..i + 1] == items[..i] + [items[i]];
      FlatMapSnoc(f, items[..i], items[i]);
      out := out + f(items[i]);
    }
    assert items[..|items|] == items;
  }

  method CollectEach<T, U>(f: T -> seq<U>, items: seq<T>) returns (out: seq<U>)
    ensures out == FlatMap(f, items)
  {
    out := AppendEach(f, items, []);
  }

  /** The sum over one item's output. */
  function Each<T, U>(g: U -> real, f: T -> seq<U>): T -> real { (x: T) => Sum(g, f(x)) }

  lemma {:induction false} SumFlatMap<T, U>(g: U -> real, f: T -> seq<U>, s: seq<T>)
    ensures Sum(g, FlatMap(f, s)) == Sum(Each(g, f), s)
  {
    if s != [] {
      SumFlatMap(g, f, s[1..]);
      SumConcat(g, f(s[0]), FlatMap(f, s[1..]));
    }
  }

  /** Functions that agree on every item have equal sums. */
  lemma {:induction false} SumAgrees<T>(f: T -> real, g: T -> real, s: seq<T>)
    requires forall x | x in s :: f(x) == g(x)
    ensures Sum(f, s) == Sum(g, s)
  {
    if s != [] {
      SumAgrees(f, g, s[1..]);
    }
  }

  /** Two loops in sequence: the first item's share, and the rest. */
  lemma {:induction false} NestedHead<R, T, U>(g: U -> real, f: T -> seq<U>, e: R -> seq<T>, raws: seq<R>)
    requires raws != []
    ensures Sum(g, FlatMap(f, FlatMap(e, raws))) ==
            Sum(g, FlatMap(f, e(raws[0]))) + Sum(g, FlatMap(f, FlatMap(e, raws[1..])))
  {
    FlatMapConcat(f, e(raws[0]), FlatMap(e, raws[1..]));
    SumConcat(g, FlatMap(f, e(raws[0])), FlatMap(f, FlatMap(e, raws[1..])));
  }

  /** Keeping by two exclusive conditions keeps what either would. */
  lemma {:induction false} FilterUnion<T>(either: T -> bool, one: T -> bool, other: T -> bool, s: seq<T>)
    requires forall x | x in s :: (either(x) <==> one(x) || other(x)) && !(one(x) && other(x))
    ensures multiset(Filter(either, s)) == multiset(Filter(one, s)) + multiset(Filter(other, s))
  {
    if s != [] {
      FilterUnion(either, one, other, s[1..]);
    }
  }

  lemma {:induction false} FilterKeepsAll<T>(keep: T -> bool, s: seq<T>)
    requires forall x | x in s :: keep(x)
    ensures Filter(keep, s) == s
  {
    if s != [] {
      FilterKeepsAll(keep, s[1..]);
    }
  }

  lemma {:induction false} FilterKeepsNone<T>(keep: T -> bool, s: seq<T>)
    requires forall x | x in s :: !keep(x)
    ensures Filter(keep, s) == []
  {
    if s != [] {
      FilterKeepsNone(keep, s[1..]);
    }
  }

  lemma {:induction false} FilterSnoc<T>(keep: T -> bool, s: seq<T>, x: T)
    ensures Filter(keep, s + [x]) == if keep(x) then Filter(keep, s) + [x] else Filter(keep, s)
  {
    FilterConcat(keep, s, [x]);
    assert Filter(keep, [x]) == if keep(x) then [x] else [];
  }

  // ---------------------------------------------------------------------------
  // Distinct keys of any type
  // ---------------------------------------------------------------------------

  ghost predicate Unique<T, K>(key: T -> K, s: seq<T>) {
    forall i, j | 0 <= i < j < |s| :: key(s[i]) != key(s[j])
  }

  ghost predicate KeysApart<T, K>(key: T -> K, a: seq<T>, b: seq<T>) {
    forall x, y | x in a && y in b :: key(x) != key(y)
  }

  lemma {:induction false} UniqueConcat<T, K>(key: T -> K, a: seq<T>, b: seq<T>)
    ensures Unique(key, a + b) <==> Unique(key, a) && Unique(key, b) && KeysApart(key, a, b)
  {
    if Unique(key, a + b) {
      forall i, j | 0 <= i < j < |a| ensures key(a[i]) != key(a[j]) {
        assert (a + b)[i] == a[i] && (a + b)[j] == a[j];
      }
      forall i, j | 0 <= i < j < |b| ensures key(b[i]) != key(b[j]) {
        assert (a + b)[|a| + i] == b[i] && (a + b)[|a| + j] == b[j];
      }
      forall x, y | x in a && y in b ensures key(x) != key(y) {
        var i :| 0 <= i < |a| && a[i] == x;
        var j :| 0 <= j < |b| && b[j] == y;
        assert (a + b)[i] == x && (a + b)[|a| + j] == y;
      }
    }
    if Unique(key, a) && Unique(key, b) && KeysApart(key, a, b) {
      forall i, j | 0 <= i < j < |a + b| ensures key((a + b)[i]) != key((a + b)[j]) {
        if i < |a| <= j { assert (a + b)[i] in a && (a + b)[j] in b; }
      }
    }
  }

  lemma {:induction false} InFlatMap<T, U>(f: T -> seq<U>, s: seq<T>, y: U)
    ensures y in FlatMap(f, s) <==> exists x | x in s :: y in f(x)
  {
    if s != [] {
      InFlatMap(f, s[1..], y);
      assert s == [s[0]] + s[1..];
    }
  }

  /** A flattened sequence has distinct keys when each part has, and no two parts share one; and only then. */
  lemma {:induction false} UniqueFlatMap<T, U, K>(key: U -> K, f: T -> seq<U>, s: seq<T>)
    ensures Unique(key, FlatMap(f, s)) <==>
            && (forall x | x in s :: Unique(key, f(x)))
            && (forall i, j | 0 <= i < j < |s| :: KeysApart(key, f(s[i]), f(s[j])))
  {
    if s != [] {
      var rest := FlatMap(f, s[1..]);
      UniqueFlatMap(key, f, s[1..]);
      UniqueConcat(key, f(s[0]), rest);
      assert s == [s[0]] + s[1..];
      HeadApart(key, f, s);
      PairsApart(key, f, s);
    }
  }

  lemma {:induction false} PairsApart<T, U, K>(key: U -> K, f: T -> seq<U>, s: seq<T>)
    requires s != []
    ensures (forall i, j | 0 <= i < j < |s| :: KeysApart(key, f(s[i]), f(s[j]))) <==>
            && (forall i, j | 0 <= i < j < |s[1..]| :: KeysApart(key, f(s[1..][i]), f(s[1..][j])))
            && (forall j | 0 < j < |s| :: KeysApart(key, f(s[0]), f(s[j])))
  {
    if forall i, j | 0 <= i < j < |s| :: KeysApart(key, f(s[i]), f(s[j])) {
      forall i, j | 0 <= i < j < |s[1..]| ensures KeysApart(key, f(s[1..][i]), f(s[1..][j])) {
        assert s[1..][i] == s[i + 1] && s[1..][j] == s[j + 1];
      }
    }
    if (forall i, j | 0 <= i < j < |s[1..]| :: KeysApart(key, f(s[1..][i]), f(s[1..][j])))
       && (forall j | 0 < j < |s| :: KeysApart(key, f(s[0]), f(s[j]))) {
      forall i, j | 0 <= i < j < |s| ensures KeysApart(key, f(s[i]), f(s[j])) {
        if i > 0 { assert s[1..][i - 1] == s[i] && s[1..][j - 1] == s[j]; }
      }
    }
  }

  lemma {:induction false} HeadApart<T, U, K>(key: U -> K, f: T -> seq<U>, s: seq<T>)
    requires s != []
    ensures KeysApart(key, f(s[0]), FlatMap(f, s[1..])) <==> forall j | 0 < j < |s| :: KeysApart(key, f(s[0]), f(s[j]))
  {
    if KeysApart(key, f(s[0]), FlatMap(f, s[1..])) {
      forall j, x, y | 0 < j < |s| && x in f(s[0]) && y in f(s[j]) ensures key(x) != key(y) {
        InFlatMap(f, s[1..], y);
        assert s[1..][j - 1] == s[j];
      }
    }
    if forall j | 0 < j < |s| :: KeysApart(key, f(s[0]), f(s[j])) {
      forall x, y | x in f(s[0]) && y in FlatMap(f, s[1..]) ensures key(x) != key(y) {
        InFlatMap(f, s[1..], y);
        var t :| t in s[1..] && y in f(t);
        var j :| 0 <= j < |s[1..]| && s[1..][j] == t;
        assert s[j + 1] == t;
      }
    }
  }

  lemma {:induction false} Nested<R, T, U>(f: T -> seq<U>, e: R -> seq<T>, fe: R -> seq<U>, raws: seq<R>)
    requires forall raw | raw in raws :: fe(raw) == FlatMap(f, e(raw))
    ensures FlatMap(f, FlatMap(e, raws)) == FlatMap(fe, raws)
  {
    if raws != [] {
      Nested(f, e, fe, raws[1..]);
      FlatMapConcat(f, e(raws[0]), FlatMap(e, raws[1..]));
    }
  }
}
