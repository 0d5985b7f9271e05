/**
 Hyperliquid time windows: a provider page, capped in length, is cut to whole timestamps so that the
 cursor can resume one millisecond later without losing or repeating an event.
 */
module TimeWindow {
  import opened Common

  const I64_MAX: int := 0x7fff_ffff_ffff_ffff

  /** A provider event; `time` is None when the payload carries no integer time. */
  datatype Value = Value(time: Option<int>, body: string)

  predicate ValidTime(v: Value) { v.time.Some? && 0 <= v.time.value }

  function Time(v: Value): int { if v.time.Some? then v.time.value else -1 }

  function AtLeast(t: int): Value -> bool { (v: Value) => t <= Time(v) }

  function AtMost(t: int): Value -> bool { (v: Value) => Time(v) <= t }

  function Between(lo: int, hi: int): Value -> bool { (v: Value) => lo <= Time(v) <= hi }

  function LastTime(w: seq<Value>): int
    requires w != []
  {
    Time(w[|w| - 1])
  }

  // ---------------------------------------------------------------------------
  // bounded_time_window
  // ---------------------------------------------------------------------------

  /** `w` is made of whole timestamps: exactly the events of `kept` up to its own last time, in time order. */
  ghost predicate WholePrefix(kept: seq<Value>, w: seq<Value>) {
    && SortedBy(Time, w)
    && (w != [] ==> multiset(w) == multiset(Filter(AtMost(LastTime(w)), kept)))
  }

  ghost predicate IsLatest(v: Value, kept: seq<Value>) { forall u | u in kept :: Time(u) <= Time(v) }

  /** What the limit may drop: nothing, or everything after the timestamp that reached the limit. */
  ghost predicate CutByLimit(kept: seq<Value>, saturated: bool, limit: nat, w: seq<Value>) {
    || (forall v | v in kept :: v in w || (saturated && IsLatest(v, kept)))
    || (0 < limit <= |w| && |Filter(AtMost(LastTime(w) - 1), w)| < limit)
  }

  /** A page that fills the cap and holds a single timestamp cannot be cut safely. */
  ghost predicate Stuck(kept: seq<Value>, saturated: bool) {
    saturated && kept != [] && forall v | v in kept :: IsLatest(v, kept)
  }

  ghost predicate IsCut(kept: seq<Value>, saturated: bool, limit: nat, w: seq<Value>) {
    && WholePrefix(kept, w)
    && (kept != [] ==> w != [])
    && CutByLimit(kept, saturated, limit, w)
    && (saturated ==> forall v | v in w :: !IsLatest(v, kept))
  }

  ghost predicate IsWindow(page: seq<Value>, start: int, limit: nat, cap: nat, r: Result<seq<Value>>) {
    var kept := Filter(AtLeast(start), page);
    if (exists v | v in page :: !ValidTime(v)) || Stuck(kept, cap <= |page|) then r.Err?
    else r.Ok? && IsCut(kept, cap <= |page|, limit, r.value)
  }

  lemma {:induction false} SortedLastIsMax(s: seq<Value>)
    requires SortedBy(Time, s) && s != []
    ensures forall v | v in s :: Time(v) <= LastTime(s)
  {
  }

  /** Keeping the events up to `b` of a sorted sequence keeps a prefix. */
  lemma {:induction false} FilterAtMostIsPrefix(s: seq<Value>, b: int)
    requires SortedBy(Time, s)
    ensures Filter(AtMost(b), s) <= s
    ensures forall i | 0 <= i < |s| :: Time(s[i]) <= b <==> i < |Filter(AtMost(b), s)|
  {
    if s != [] {
      if Time(s[0]) > b {
        FilterNone(s, b);
      } else {
        FilterAtMostIsPrefix(s[1..], b);
        assert forall i | 1 <= i < |s| :: s[i] == s[1..][i - 1];
      }
    }
  }

  lemma {:induction false} FilterNone(s: seq<Value>, b: int)
    requires forall v | v in s :: Time(v) > b
    ensures Filter(AtMost(b), s) == []
  {
    if s != [] {
      FilterNone(s[1..], b);
    }
  }

  lemma {:induction false} FilterTwice(s: seq<Value>, a: int, b: int)
    requires a <= b
    ensures Filter(AtMost(a), Filter(AtMost(b), s)) == Filter(AtMost(a), s)
  {
    if s != [] {
      FilterTwice(s[1..], a, b);
      var rest := Filter(AtMost(b), s[1..]);
      FilterConcat(AtMost(a), if AtMost(b)(s[0]) then [s[0]] else [], rest);
    }
  }

  /** Whole timestamps survive a further cut at any bound. */
  lemma {:induction false} CutKeepsWhole(kept: seq<Value>, s: seq<Value>, b: int)
    requires SortedBy(Time, s)
    requires s != [] ==> multiset(s) == multiset(Filter(AtMost(LastTime(s)), kept))
    ensures WholePrefix(kept, Filter(AtMost(b), s))
  {
    var w := Filter(AtMost(b), s);
    FilterKeepsOrder(Time, AtMost(b), s);
    FilterContents(AtMost(b), s);
    if w != [] {
      var last := LastTime(w);
      assert w[|w| - 1] in w;
      SortedLastIsMax(s);
      SortedLastIsMax(w);
      FilterAll(w, last);
      FilterTwice(s, last, b);
      FilterPermutes(AtMost(last), s, Filter(AtMost(LastTime(s)), kept));
      FilterTwice(kept, last, LastTime(s));
    }
  }

  lemma {:induction false} FilterAll(s: seq<Value>, b: int)
    requires forall v | v in s :: Time(v) <= b
    ensures Filter(AtMost(b), s) == s
  {
    if s != [] {
      FilterAll(s[1..], b);
    }
  }

  /** A sorted copy of the kept events is a whole prefix of them. */
  lemma {:induction false} SortedIsWhole(kept: seq<Value>)
    ensures WholePrefix(kept, SortBy(Time, kept))
    ensures forall v :: v in SortBy(Time, kept) <==> v in kept
    ensures kept != [] ==> SortBy(Time, kept) != [] && forall v | v in kept :: Time(v) <= LastTime(SortBy(Time, kept))
  {
    SortBySorts(Time, kept);
    if kept != [] {
      SortedLastIsMax(SortBy(Time, kept));
      FilterAll(kept, LastTime(SortBy(Time, kept)));
    }
  }

  /** Everything that may be returned, before the limit applies. */
  ghost predicate Untruncated(kept: seq<Value>, saturated: bool, w: seq<Value>) {
    && WholePrefix(kept, w)
    && (kept != [] ==> w != [])
    && (forall v | v in kept :: v in w || (saturated && IsLatest(v, kept)))
    && (saturated ==> forall v | v in w :: !IsLatest(v, kept))
  }

  /** The events kept when the last timestamp of a non-empty page is dropped. */
  function BeforeLast(kept: seq<Value>): seq<Value>
    requires SortBy(Time, kept) != []
  {
    Filter(AtMost(LastTime(SortBy(Time, kept)) - 1), SortBy(Time, kept))
  }

  lemma {:induction false} SortedMax(kept: seq<Value>)
    requires kept != []
    ensures SortBy(Time, kept) != []
    ensures forall v :: v in SortBy(Time, kept) <==> v in kept
    ensures forall v | v in kept :: Time(v) <= LastTime(SortBy(Time, kept))
    ensures exists v | v in kept :: Time(v) == LastTime(SortBy(Time, kept))
  {
    SortedIsWhole(kept);
    var sorted := SortBy(Time, kept);
    assert sorted[|sorted| - 1] in sorted;
  }

  lemma {:induction false} BeforeLastContents(kept: seq<Value>)
    requires kept != []
    ensures SortBy(Time, kept) != []
    ensures forall v | v in BeforeLast(kept) :: v in kept && !IsLatest(v, kept)
    ensures forall v | v in kept :: v in BeforeLast(kept) || IsLatest(v, kept)
  {
    SortedMax(kept);
    var sorted := SortBy(Time, kept);
    var last := LastTime(sorted);
    FilterContents(AtMost(last - 1), sorted);
    var latest :| latest in kept && Time(latest) == last;
    forall v | v in BeforeLast(kept) ensures v in kept && !IsLatest(v, kept) {
      assert AtMost(last - 1)(v) && Time(v) < Time(latest);
    }
    forall v | v in kept && !IsLatest(v, kept) ensures v in BeforeLast(kept) {
      assert Time(v) < last;
      assert v in sorted && AtMost(last - 1)(v);
    }
  }

  /** Dropping the last timestamp of a saturated page leaves nothing exactly when the page is stuck. */
  lemma {:induction false} DropLastTimestamp(kept: seq<Value>)
    requires kept != []
    ensures SortBy(Time, kept) != []
    ensures BeforeLast(kept) == [] <==> Stuck(kept, true)
  {
    BeforeLastContents(kept);
    var w := BeforeLast(kept);
    assert w != [] ==> w[0] in w;
  }

  lemma {:induction false} BeforeLastIsWhole(kept: seq<Value>)
    requires kept != []
    ensures SortBy(Time, kept) != []
    ensures WholePrefix(kept, BeforeLast(kept))
  {
    SortedIsWhole(kept);
    CutKeepsWhole(kept, SortBy(Time, kept), LastTime(SortBy(Time, kept)) - 1);
  }

  lemma {:induction false} BeforeLastUntruncated(kept: seq<Value>)
    requires kept != []
    ensures SortBy(Time, kept) != []
    ensures BeforeLast(kept) != [] ==> Untruncated(kept, true, BeforeLast(kept))
  {
    BeforeLastIsWhole(kept);
    BeforeLastContents(kept);
  }

  lemma {:induction false} TruncateToLimit(kept: seq<Value>, saturated: bool, limit: nat, s: seq<Value>)
    requires Untruncated(kept, saturated, s) && 0 < limit < |s|
    ensures IsCut(kept, saturated, limit, Filter(AtMost(Time(s[limit - 1])), s))
  {
    CutKeepsWhole(kept, s, Time(s[limit - 1]));
    CutAtLimit(s, limit);
    CutAtLimitIsTight(s, limit);
  }

  lemma {:induction false} SortedUntruncated(kept: seq<Value>)
    ensures Untruncated(kept, false, SortBy(Time, kept))
  {
    SortedIsWhole(kept);
  }

  lemma {:induction false} WithinLimit(kept: seq<Value>, saturated: bool, limit: nat, s: seq<Value>)
    requires Untruncated(kept, saturated, s)
    ensures IsCut(kept, saturated, limit, s)
  {
  }

  lemma {:induction false} UnsaturatedIsNotStuck(kept: seq<Value>, saturated: bool)
    requires !saturated || kept == []
    ensures !Stuck(kept, saturated) && Untruncated(kept, saturated, SortBy(Time, kept))
  {
    SortedUntruncated(kept);
  }

  /** The cut itself: drop the last timestamp of a saturated page, then apply the limit. */
  method CutWindow(kept: seq<Value>, saturated: bool, limit: nat) returns (r: Result<seq<Value>>)
    requires 0 < limit
    ensures if Stuck(kept, saturated) then r.Err? else r.Ok? && IsCut(kept, saturated, limit, r.value)
  {
    var values := SortBy(Time, kept);
    if saturated && values != [] {
      DropLastTimestamp(kept);
      BeforeLastUntruncated(kept);
      values := BeforeLast(kept);
      if values == [] {
        return Err("Provider page saturated at one timestamp; cannot advance safely");
      }
    } else {
      SortBySorts(Time, kept);
      UnsaturatedIsNotStuck(kept, saturated);
    }
    if |values| > limit {
      TruncateToLimit(kept, saturated, limit, values);
      values := Filter(AtMost(Time(values[limit - 1])), values);
    } else {
      WithinLimit(kept, saturated, limit, values);
    }
    return Ok(values);
  }

  method BoundedTimeWindow(page: seq<Value>, start: int, limit: nat, cap: nat) returns (r: Result<seq<Value>>)
    requires 0 < limit
    ensures IsWindow(page, start, limit, cap, r)
  {
    if exists v | v in page :: !ValidTime(v) {
      return Err("Invalid event timestamp");
    }
    var values := Filter(AtLeast(start), page);
    r := CutWindow(values, cap <= |page|, limit);
  }

  /** Cutting at the time of the limit-th event keeps at least `limit` events, and fewer before its last time. */
  lemma {:induction false} CutAtLimit(s: seq<Value>, limit: nat)
    requires SortedBy(Time, s) && 0 < limit < |s|
    ensures var w := Filter(AtMost(Time(s[limit - 1])), s);
            && limit <= |w| && w[limit - 1] == s[limit - 1] && LastTime(w) == Time(s[limit - 1])
            && (forall v | v in w :: v in s)
  {
    var b := Time(s[limit - 1]);
    FilterAtMostIsPrefix(s, b);
    FilterContents(AtMost(b), s);
  }

  lemma {:induction false} CutAtLimitIsTight(s: seq<Value>, limit: nat)
    requires SortedBy(Time, s) && 0 < limit < |s|
    ensures var w := Filter(AtMost(Time(s[limit - 1])), s);
            limit <= |w| && |Filter(AtMost(LastTime(w) - 1), w)| < limit
  {
    CutAtLimit(s, limit);
    FilterKeepsOrder(Time, AtMost(Time(s[limit - 1])), s);
    FewBefore(Filter(AtMost(Time(s[limit - 1])), s), limit);
  }

  lemma {:induction false} FewBefore(w: seq<Value>, limit: nat)
    requires SortedBy(Time, w) && 0 < limit <= |w|
    ensures |Filter(AtMost(Time(w[limit - 1]) - 1), w)| < limit
  {
    var b := Time(w[limit - 1]) - 1;
    FilterAtMostIsPrefix(w, b);
  }
}
