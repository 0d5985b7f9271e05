/** Hyperliquid paging over a provider history: no gaps, no duplicates, and progress until drained. */
module HlPaging {
  import opened Common
  import opened TimeWindow

  /** resume_after_ms: saturating successor, never negative; 0 without a cursor. */
  function Resume(cursor: Option<int>): int {
    if cursor.None? then 0
    else
      var next := if cursor.value >= I64_MAX then I64_MAX else cursor.value + 1;
      if next < 0 then 0 else next
  }

  ghost predicate ValidHistory(history: seq<Value>) {
    forall v | v in history :: ValidTime(v) && Time(v) < I64_MAX
  }

  /** The events still missing from a page, with multiplicity. */
  ghost function Missing(history: seq<Value>, start: int, page: seq<Value>): multiset<Value> {
    multiset(Filter(AtLeast(start), history)) - multiset(page)
  }

  /** A page holds the earliest events at or after `start`: all of them if it is shorter than the cap. */
  ghost predicate Faithful(history: seq<Value>, start: int, cap: nat, page: seq<Value>) {
    && multiset(page) <= multiset(Filter(AtLeast(start), history))
    && (|page| < cap ==> multiset(page) == multiset(Filter(AtLeast(start), history)))
    && (forall u, v | v in page && u in Missing(history, start, page) :: Time(v) <= Time(u))
  }

  lemma {:induction false} PageIsKept(history: seq<Value>, start: int, cap: nat, page: seq<Value>)
    requires Faithful(history, start, cap, page)
    ensures Filter(AtLeast(start), page) == page
    ensures forall v | v in page :: v in history && start <= Time(v)
  {
    FilterContents(AtLeast(start), history);
    forall v | v in page ensures v in history && start <= Time(v) {
      assert v in multiset(page);
      assert v in Filter(AtLeast(start), history);
    }
    KeepAll(page, start);
  }

  lemma {:induction false} KeepAll(s: seq<Value>, start: int)
    requires forall v | v in s :: start <= Time(v)
    ensures Filter(AtLeast(start), s) == s
  {
    if s != [] {
      KeepAll(s[1..], start);
    }
  }

  lemma {:induction false} BetweenIsBoth(s: seq<Value>, lo: int, hi: int)
    ensures Filter(AtMost(hi), Filter(AtLeast(lo), s)) == Filter(Between(lo, hi), s)
  {
    if s != [] {
      BetweenIsBoth(s[1..], lo, hi);
      FilterConcat(AtMost(hi), if AtLeast(lo)(s[0]) then [s[0]] else [], Filter(AtLeast(lo), s[1..]));
    }
  }

  /** If every event of `b` up to `t` occurs as often in `a`, the two agree up to `t`. */
  lemma {:induction false} SameUpTo(a: seq<Value>, b: seq<Value>, t: int)
    requires multiset(a) <= multiset(b)
    requires forall u | u in multiset(b) - multiset(a) :: t < Time(u)
    ensures multiset(Filter(AtMost(t), a)) == multiset(Filter(AtMost(t), b))
  {
    var fa, fb := multiset(Filter(AtMost(t), a)), multiset(Filter(AtMost(t), b));
    forall u: Value ensures fa[u] == fb[u] {
      FilterCounts(AtMost(t), a, u);
      FilterCounts(AtMost(t), b, u);
      assert multiset(a)[u] < multiset(b)[u] ==> u in multiset(b) - multiset(a);
    }
    assert fa == fb;
  }

  /**
   No gaps, no duplicates: a non-empty window holds exactly the events of [start, its last time],
   ties included; an empty one means nothing is left.
   */
  lemma {:induction false} WindowHasNoGaps(history: seq<Value>, start: int, limit: nat, cap: nat, page: seq<Value>,
                                           w: seq<Value>)
    requires 0 < cap && Faithful(history, start, cap, page)
    requires IsWindow(page, start, limit, cap, Ok(w))
    ensures SortedBy(Time, w)
    ensures w != [] ==> start <= LastTime(w) && multiset(w) == multiset(Filter(Between(start, LastTime(w)), history))
    ensures w == [] ==> Filter(AtLeast(start), history) == []
  {
    PageIsKept(history, start, cap, page);
    if w == [] {
      assert page == [];
      assert |multiset(page)| == |multiset(Filter(AtLeast(start), history))|;
    } else {
      var t := LastTime(w);
      FilterContents(AtMost(t), page);
      SameElements(w, Filter(AtMost(t), page));
      assert w[|w| - 1] in w;
      forall u | u in Missing(history, start, page) ensures t < Time(u) {
        assert cap <= |page|;
        assert !IsLatest(w[|w| - 1], page);
      }
      SameUpTo(page, Filter(AtLeast(start), history), t);
      BetweenIsBoth(history, start, t);
    }
  }

  // ---------------------------------------------------------------------------
  // When a page is stuck
  // ---------------------------------------------------------------------------

  function At(t: int): Value -> bool { Between(t, t) }

  lemma {:induction false} SmallerMultiset(a: multiset<Value>, b: multiset<Value>)
    requires a <= b
    ensures |a| <= |b|
  {
    assert b == a + (b - a);
  }

  ghost predicate IsEarliest(v: Value, s: seq<Value>) { forall u | u in s :: Time(v) <= Time(u) }

  /** The earliest remaining timestamp alone fills a provider page. */
  ghost predicate Crowded(history: seq<Value>, start: int, cap: nat) {
    var rest := Filter(AtLeast(start), history);
    exists v | v in rest :: IsEarliest(v, rest) && cap <= |Filter(At(Time(v)), rest)|
  }

  /** A page of one timestamp is contained in the remaining events of that timestamp. */
  lemma {:induction false} OneTimePage(rest: seq<Value>, page: seq<Value>, t: int)
    requires multiset(page) <= multiset(rest) && forall v | v in page :: Time(v) == t
    ensures |page| <= |Filter(At(t), rest)|
  {
    var f := Filter(At(t), rest);
    forall u: Value ensures multiset(page)[u] <= multiset(f)[u] {
      FilterCounts(At(t), rest, u);
      assert Time(u) != t ==> u !in page && u !in multiset(page);
    }
    SmallerMultiset(multiset(page), multiset(f));
  }

  /** A capped page that misses no event of time `t` and holds another time is longer than that timestamp. */
  lemma {:induction false} PageBeyond(rest: seq<Value>, page: seq<Value>, t: int, v: Value)
    requires multiset(page) <= multiset(rest) && v in page && Time(v) != t
    requires forall u | u in multiset(rest) - multiset(page) :: Time(u) != t
    ensures |Filter(At(t), rest)| < |page|
  {
    var f := multiset(Filter(At(t), rest));
    forall u: Value ensures (f + multiset{v})[u] <= multiset(page)[u] {
      FilterCounts(At(t), rest, u);
      assert multiset(page)[u] < multiset(rest)[u] ==> u in multiset(rest) - multiset(page);
      assert v in multiset(page);
    }
    SmallerMultiset(f + multiset{v}, multiset(page));
  }

  lemma {:induction false} StuckIsCrowded(history: seq<Value>, start: int, cap: nat, page: seq<Value>)
    requires 0 < cap && Faithful(history, start, cap, page) && Stuck(page, cap <= |page|)
    ensures Crowded(history, start, cap)
  {
    var rest := Filter(AtLeast(start), history);
    var v := page[0];
    assert v in multiset(page) && v in rest;
    assert forall u | u in page :: Time(u) == Time(v) by { assert IsLatest(v, page); }
    OneTimePage(rest, page, Time(v));
    forall u | u in rest ensures Time(v) <= Time(u) {
      assert u in page || u in Missing(history, start, page);
    }
    assert IsEarliest(v, rest);
  }

  /** The error is exact: a page capped at `cap` is stuck if and only if the earliest remaining timestamp fills it. */
  lemma {:induction false} StuckIffCrowded(history: seq<Value>, start: int, cap: nat, page: seq<Value>)
    requires 0 < cap && Faithful(history, start, cap, page) && |page| <= cap
    ensures Stuck(Filter(AtLeast(start), page), cap <= |page|) <==> Crowded(history, start, cap)
  {
    PageIsKept(history, start, cap, page);
    if Stuck(page, cap <= |page|) {
      StuckIsCrowded(history, start, cap, page);
    }
    if Crowded(history, start, cap) {
      var rest := Filter(AtLeast(start), history);
      var v :| v in rest && IsEarliest(v, rest) && cap <= |Filter(At(Time(v)), rest)|;
      CrowdedPage(history, start, cap, page, v);
    }
  }

  lemma {:induction false} CrowdedPage(history: seq<Value>, start: int, cap: nat, page: seq<Value>, first: Value)
    requires 0 < cap && Faithful(history, start, cap, page) && |page| <= cap
    requires var rest := Filter(AtLeast(start), history);
             first in rest && IsEarliest(first, rest) && cap <= |Filter(At(Time(first)), rest)|
    ensures Stuck(page, cap <= |page|)
  {
    var rest := Filter(AtLeast(start), history);
    var t := Time(first);
    forall v | v in page ensures Time(v) == t {
      if Time(v) != t {
        assert v in multiset(page) && v in rest;
        PageBeyond(rest, page, t, v);
      }
    }
    FilterContents(At(t), rest);
    if |page| < cap {
      SameElements(page, rest);
    }
  }

  /** If no timestamp holds as many events as the cap, no faithful page is ever stuck. */
  lemma {:induction false} NeverStuck(history: seq<Value>, start: int, cap: nat, page: seq<Value>)
    requires Faithful(history, start, cap, page)
    requires forall t :: |Filter(At(t), history)| < cap
    ensures !Stuck(Filter(AtLeast(start), page), cap <= |page|)
  {
    PageIsKept(history, start, cap, page);
    if page != [] {
      forall u: Value ensures multiset(page)[u] <= multiset(history)[u] {
        FilterCounts(AtLeast(start), history, u);
      }
      var t := Time(page[0]);
      assert |Filter(At(t), history)| < cap;
      if Stuck(page, cap <= |page|) {
        assert IsLatest(page[0], page);
        OneTimePage(history, page, t);
      }
    }
  }

  // ---------------------------------------------------------------------------
  // Successive windows
  // ---------------------------------------------------------------------------

  function NextCursor(cursor: Option<int>, w: seq<Value>): Option<int> {
    if w == [] then cursor else Some(LastTime(w))
  }

  ghost predicate Window(history: seq<Value>, cursor: Option<int>, limit: nat, cap: nat, w: seq<Value>) {
    exists page :: Faithful(history, Resume(cursor), cap, page) && IsWindow(page, Resume(cursor), limit, cap, Ok(w))
  }

  ghost predicate Windows(history: seq<Value>, cursor: Option<int>, limit: nat, cap: nat, ws: seq<seq<Value>>)
    decreases |ws|
  {
    ws != [] ==>
      Window(history, cursor, limit, cap, ws[0]) && Windows(history, NextCursor(cursor, ws[0]), limit, cap, ws[1..])
  }

  function FinalCursor(cursor: Option<int>, ws: seq<seq<Value>>): Option<int>
    decreases |ws|
  {
    if ws == [] then cursor else FinalCursor(NextCursor(cursor, ws[0]), ws[1..])
  }

  lemma {:induction false} WindowsCons(history: seq<Value>, cursor: Option<int>, limit: nat, cap: nat, w: seq<Value>,
                                       ws: seq<seq<Value>>)
    requires Window(history, cursor, limit, cap, w) && Windows(history, NextCursor(cursor, w), limit, cap, ws)
    ensures Windows(history, cursor, limit, cap, [w] + ws)
    ensures FinalCursor(cursor, [w] + ws) == FinalCursor(NextCursor(cursor, w), ws)
  {
    assert ([w] + ws)[1..] == ws;
  }

  /** The events at or before a cursor. */
  function UpTo(history: seq<Value>, cursor: Option<int>): seq<Value> {
    if cursor.None? then [] else Filter(AtMost(cursor.value), history)
  }

  ghost predicate ValidCursor(cursor: Option<int>) { cursor.Some? ==> 0 <= cursor.value < I64_MAX }

  function Remaining(history: seq<Value>, cursor: Option<int>): seq<Value> {
    Filter(AtLeast(Resume(cursor)), history)
  }

  lemma {:induction false} WindowContents(history: seq<Value>, cursor: Option<int>, limit: nat, cap: nat, w: seq<Value>)
    requires 0 < cap && Window(history, cursor, limit, cap, w)
    ensures SortedBy(Time, w)
    ensures w != [] ==> Resume(cursor) <= LastTime(w)
    ensures w != [] ==> multiset(w) == multiset(Filter(Between(Resume(cursor), LastTime(w)), history))
    ensures forall v | v in w :: v in history && Resume(cursor) <= Time(v) <= LastTime(w)
    ensures w == [] <==> Remaining(history, cursor) == []
  {
    var start := Resume(cursor);
    var page :| Faithful(history, start, cap, page) && IsWindow(page, start, limit, cap, Ok(w));
    WindowHasNoGaps(history, start, limit, cap, page, w);
    if w != [] {
      FilterContents(Between(start, LastTime(w)), history);
      SameElements(w, Filter(Between(start, LastTime(w)), history));
      FilterContents(AtLeast(start), history);
      assert w[0] in w && w[0] in Remaining(history, cursor);
    }
  }

  /** One window extends the ingested events exactly to the new cursor. */
  lemma {:induction false} WindowExtends(history: seq<Value>, cursor: Option<int>, limit: nat, cap: nat, w: seq<Value>)
    requires 0 < cap && ValidHistory(history) && ValidCursor(cursor) && Window(history, cursor, limit, cap, w)
    ensures multiset(UpTo(history, NextCursor(cursor, w))) == multiset(UpTo(history, cursor)) + multiset(w)
  {
    WindowContents(history, cursor, limit, cap, w);
    if w != [] {
      SplitAt(history, cursor, LastTime(w));
    }
  }

  lemma {:induction false} LastIsRemaining(history: seq<Value>, cursor: Option<int>, limit: nat, cap: nat,
                                           w: seq<Value>)
    requires 0 < cap && ValidHistory(history) && Window(history, cursor, limit, cap, w) && w != []
    ensures w[|w| - 1] in history && Resume(cursor) <= LastTime(w) && 0 <= LastTime(w) < I64_MAX
  {
    WindowContents(history, cursor, limit, cap, w);
    assert w[|w| - 1] in w;
  }

  /** A non-empty window moves the cursor strictly. */
  lemma {:induction false} WindowAdvances(history: seq<Value>, cursor: Option<int>, limit: nat, cap: nat, w: seq<Value>)
    requires 0 < cap && ValidHistory(history) && ValidCursor(cursor) && Window(history, cursor, limit, cap, w)
    ensures ValidCursor(NextCursor(cursor, w))
    ensures w != [] ==> Resume(cursor) < Resume(NextCursor(cursor, w)) == LastTime(w) + 1
  {
    if w != [] {
      assert Resume(cursor) <= LastTime(w) && 0 <= LastTime(w) < I64_MAX by {
        LastIsRemaining(history, cursor, limit, cap, w);
      }
      ResumeAfter(LastTime(w));
    }
  }

  lemma ResumeAfter(t: int)
    requires 0 <= t < I64_MAX
    ensures ValidCursor(Some(t)) && Resume(Some(t)) == t + 1
  {
  }

  lemma {:induction false} FewerAfter(history: seq<Value>, cursor: Option<int>, v: Value)
    requires v in history && Resume(cursor) <= Time(v) && 0 <= Time(v) < I64_MAX
    ensures |Remaining(history, Some(Time(v)))| < |Remaining(history, cursor)|
  {
    StrictlyFewerRemain(history, Resume(cursor), Time(v) + 1, v);
  }

  lemma {:induction false} SplitAt(history: seq<Value>, cursor: Option<int>, t: int)
    requires ValidHistory(history) && ValidCursor(cursor) && Resume(cursor) <= t
    ensures multiset(UpTo(history, Some(t))) ==
            multiset(UpTo(history, cursor)) + multiset(Filter(Between(Resume(cursor), t), history))
  {
    if cursor.None? {
      FilterKeepsNone((v: Value) => false, history);
      FilterUnionAt(history, (v: Value) => false, cursor, t);
    } else {
      FilterUnionAt(history, AtMost(cursor.value), cursor, t);
    }
  }

  lemma {:induction false} FilterUnionAt(history: seq<Value>, passed: Value -> bool, cursor: Option<int>, t: int)
    requires ValidHistory(history) && ValidCursor(cursor) && Resume(cursor) <= t
    requires forall v | v in history :: passed(v) <==> cursor.Some? && Time(v) <= cursor.value
    ensures multiset(Filter(AtMost(t), history)) ==
            multiset(Filter(passed, history)) + multiset(Filter(Between(Resume(cursor), t), history))
  {
    FilterUnion(AtMost(t), passed, Between(Resume(cursor), t), history);
  }

  lemma {:induction false} WindowBounds(history: seq<Value>, cursor: Option<int>, limit: nat, cap: nat, w: seq<Value>)
    requires 0 < cap && ValidHistory(history) && ValidCursor(cursor) && Window(history, cursor, limit, cap, w)
    ensures SortedBy(Time, w)
    ensures forall v | v in w :: Resume(cursor) <= Time(v) < Resume(NextCursor(cursor, w))
  {
    WindowContents(history, cursor, limit, cap, w);
    WindowAdvances(history, cursor, limit, cap, w);
  }

  /** Successive windows concatenate to a time-sorted sequence. */
  lemma {:induction false} WindowsSorted(history: seq<Value>, cursor: Option<int>, limit: nat, cap: nat,
                                         ws: seq<seq<Value>>)
    requires 0 < cap && ValidHistory(history) && ValidCursor(cursor) && Windows(history, cursor, limit, cap, ws)
    ensures SortedBy(Time, Flatten(ws)) && forall v | v in Flatten(ws) :: Resume(cursor) <= Time(v)
    decreases |ws|
  {
    if ws != [] {
      var next := NextCursor(cursor, ws[0]);
      WindowAdvances(history, cursor, limit, cap, ws[0]);
      WindowBounds(history, cursor, limit, cap, ws[0]);
      WindowsSorted(history, next, limit, cap, ws[1..]);
      SortedConcat(ws[0], Flatten(ws[1..]), Resume(next));
    }
  }

  /** Successive windows hold exactly the events between the first and the last cursor, each once. */
  lemma {:induction false} WindowsConcatenate(history: seq<Value>, cursor: Option<int>, limit: nat, cap: nat,
                                              ws: seq<seq<Value>>)
    requires 0 < cap && ValidHistory(history) && ValidCursor(cursor) && Windows(history, cursor, limit, cap, ws)
    ensures multiset(UpTo(history, FinalCursor(cursor, ws))) == multiset(UpTo(history, cursor)) + multiset(Flatten(ws))
    decreases |ws|
  {
    if ws != [] {
      WindowExtends(history, cursor, limit, cap, ws[0]);
      WindowAdvances(history, cursor, limit, cap, ws[0]);
      WindowsConcatenate(history, NextCursor(cursor, ws[0]), limit, cap, ws[1..]);
      assert Flatten(ws) == ws[0] + Flatten(ws[1..]);
    }
  }

  lemma {:induction false} SortedConcat(a: seq<Value>, b: seq<Value>, t: int)
    requires SortedBy(Time, a) && SortedBy(Time, b)
    requires (forall v | v in a :: Time(v) < t) && (forall v | v in b :: t <= Time(v))
    ensures SortedBy(Time, a + b)
  {
    forall i, j | 0 <= i < j < |a + b| ensures Time((a + b)[i]) <= Time((a + b)[j]) {
      if i < |a| <= j { assert (a + b)[i] in a && (a + b)[j] in b; }
    }
  }

  /** A fixed history is drained by as many windows as it has events left. */
  lemma {:induction false} WindowsDrain(history: seq<Value>, cursor: Option<int>, limit: nat, cap: nat,
                                        ws: seq<seq<Value>>)
    requires 0 < cap && ValidHistory(history) && ValidCursor(cursor) && Windows(history, cursor, limit, cap, ws)
    requires |Remaining(history, cursor)| <= |ws|
    ensures Remaining(history, FinalCursor(cursor, ws)) == []
    decreases |ws|
  {
    if ws != [] {
      WindowContents(history, cursor, limit, cap, ws[0]);
      WindowAdvances(history, cursor, limit, cap, ws[0]);
      if ws[0] != [] {
        LastIsRemaining(history, cursor, limit, cap, ws[0]);
        FewerAfter(history, cursor, ws[0][|ws[0]| - 1]);
      }
      WindowsDrain(history, NextCursor(cursor, ws[0]), limit, cap, ws[1..]);
    }
  }

  /** One window: fewer events remain unless it was empty, and then none did. */
  lemma {:induction false} WindowDrains(history: seq<Value>, cursor: Option<int>, limit: nat, cap: nat, w: seq<Value>)
    requires 0 < cap && ValidHistory(history) && ValidCursor(cursor) && Window(history, cursor, limit, cap, w)
    ensures ValidCursor(NextCursor(cursor, w))
    ensures w != [] ==> |Remaining(history, NextCursor(cursor, w))| < |Remaining(history, cursor)|
    ensures w == [] ==> Remaining(history, NextCursor(cursor, w)) == []
    ensures multiset(UpTo(history, NextCursor(cursor, w))) == multiset(UpTo(history, cursor)) + multiset(w)
  {
    WindowContents(history, cursor, limit, cap, w);
    WindowAdvances(history, cursor, limit, cap, w);
    WindowExtends(history, cursor, limit, cap, w);
    if w != [] {
      LastIsRemaining(history, cursor, limit, cap, w);
      FewerAfter(history, cursor, w[|w| - 1]);
    }
  }

  lemma {:induction false} FewerRemain(history: seq<Value>, a: int, b: int)
    requires a <= b
    ensures |Filter(AtLeast(b), history)| <= |Filter(AtLeast(a), history)|
  {
    if history != [] {
      FewerRemain(history[1..], a, b);
    }
  }

  lemma {:induction false} StrictlyFewerRemain(history: seq<Value>, a: int, b: int, v: Value)
    requires v in history && a <= Time(v) < b
    ensures |Filter(AtLeast(b), history)| < |Filter(AtLeast(a), history)|
  {
    FewerRemain(history[1..], a, b);
    if history[0] != v {
      StrictlyFewerRemain(history[1..], a, b, v);
    }
  }
}
