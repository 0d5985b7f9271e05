/**
 Incremental balance history of one wallet: late events are merged into the stored snapshots of
 their (network, asset) key, and only the suffix from the first incoming event is summed again.
 This module holds the arithmetic of one key's table; `BalanceStore` runs it over the database.
 */
module BalanceHistory {
  import opened Common

  const TWO_128: int := 0x1_0000_0000_0000_0000_0000_0000_0000_0000

  /** A UUID, compared as the 128-bit number its bytes spell. */
  type Uuid = x: int | 0 <= x < TWO_128

  datatype Key = Key(network: string, asset: string)

  datatype Event = Event(key: Key, timestamp: int, id: Uuid, delta: real)

  /** A stored snapshot. Rows written before deltas were recorded have `delta == None`. */
  datatype Row = Row(key: Key, timestamp: int, id: Uuid, balance: real, delta: Option<real>)

  /** The replay order (timestamp, id) packed into one integer. */
  function Order(timestamp: int, id: Uuid): int { timestamp * TWO_128 + id }

  function EventOrder(e: Event): int { Order(e.timestamp, e.id) }

  function EventId(e: Event): int { e.id }

  function DeltaOf(e: Event): real { e.delta }

  function RowOrder(r: Row): int { Order(r.timestamp, r.id) }

  lemma {:induction false} OrderIsLexicographic(t1: int, i1: Uuid, t2: int, i2: Uuid)
    ensures Order(t1, i1) < Order(t2, i2) <==> t1 < t2 || (t1 == t2 && i1 < i2)
    ensures Order(t1, i1) == Order(t2, i2) <==> t1 == t2 && i1 == i2
  {
    if t1 < t2 {
      assert t1 + 1 <= t2;
    } else if t2 < t1 {
      assert t2 + 1 <= t1;
    }
  }

  /** One key's snapshots in replay order. */
  ghost predicate Ordered(t: seq<Row>) { StrictlySortedBy(RowOrder, t) }

  ghost predicate OfKey(t: seq<Row>, k: Key) { forall r | r in t :: r.key == k }

  function BalanceBefore(t: seq<Row>, seed: real, i: nat): real
    requires i <= |t|
  {
    if i == 0 then seed else t[i - 1].balance
  }

  /** Every row with a stored delta extends the balance of the row before it. */
  ghost predicate Chained(t: seq<Row>, seed: real) {
    forall i | 0 <= i < |t| && t[i].delta.Some? :: t[i].balance == BalanceBefore(t, seed, i) + t[i].delta.value
  }

  // ---------------------------------------------------------------------------
  // One recomputation
  // ---------------------------------------------------------------------------

  /** The number of rows strictly before an order. */
  function Cut(t: seq<Row>, order: int): (n: nat)
    ensures n <= |t|
  {
    if t == [] || RowOrder(t[0]) >= order then 0 else 1 + Cut(t[1..], order)
  }

  lemma {:induction false} CutSplits(t: seq<Row>, order: int)
    requires Ordered(t)
    ensures forall i | 0 <= i < |t| :: RowOrder(t[i]) < order <==> i < Cut(t, order)
  {
    if t == [] || RowOrder(t[0]) >= order {
    } else {
      CutSplits(t[1..], order);
      assert forall i | 1 <= i < |t| :: t[i] == t[1..][i - 1];
    }
  }

  function AsEvent(r: Row): Event
    requires r.delta.Some?
  {
    Event(r.key, r.timestamp, r.id, r.delta.value)
  }

  /** The stored suffix rows that the batch does not replace, replayed from their deltas. */
  function Carried(s: seq<Row>, ids: set<Uuid>): seq<Event>
    requires forall r | r in s && r.id !in ids :: r.delta.Some?
  {
    if s == [] then []
    else (if s[0].id in ids then [] else [AsEvent(s[0])]) + Carried(s[1..], ids)
  }

  function Accumulate(seed: real, es: seq<Event>): seq<Row>
    decreases |es|
  {
    if es == [] then []
    else
      var balance := seed + es[0].delta;
      [Row(es[0].key, es[0].timestamp, es[0].id, balance, Some(es[0].delta))] + Accumulate(balance, es[1..])
  }

  /** A suffix row outside the batch that has no delta cannot be replayed. */
  predicate Refused(t: seq<Row>, incoming: seq<Event>, ids: set<Uuid>)
    requires incoming != []
  {
    exists r | r in t[Cut(t, EventOrder(incoming[0]))..] :: r.id !in ids && r.delta.None?
  }

  function Seed(t: seq<Row>, order: int): real { BalanceBefore(t, 0.0, Cut(t, order)) }

  function Merged(t: seq<Row>, incoming: seq<Event>, ids: set<Uuid>): seq<Event>
    requires incoming != [] && !Refused(t, incoming, ids)
  {
    SortBy(EventOrder, incoming + Carried(t[Cut(t, EventOrder(incoming[0]))..], ids))
  }

  function Recomputed(t: seq<Row>, incoming: seq<Event>, ids: set<Uuid>): seq<Row>
    requires incoming != [] && !Refused(t, incoming, ids)
  {
    Accumulate(Seed(t, EventOrder(incoming[0])), Merged(t, incoming, ids))
  }

  function NextTable(t: seq<Row>, incoming: seq<Event>, ids: set<Uuid>): seq<Row>
    requires incoming != [] && !Refused(t, incoming, ids)
  {
    t[..Cut(t, EventOrder(incoming[0]))] + Recomputed(t, incoming, ids)
  }

  lemma {:induction false} SumSnoc(es: seq<Event>, i: nat)
    requires i < |es|
    ensures Sum(DeltaOf, es[..i + 1]) == Sum(DeltaOf, es[..i]) + es[i].delta
  {
    assert es[..i + 1] == es[..i] + [es[i]];
    SumConcat(DeltaOf, es[..i], [es[i]]);
    assert Sum(DeltaOf, [es[i]]) == es[i].delta;
  }

  /** The running sum is the sum of all deltas up to and including the row's own. */
  lemma {:induction false} AccumulateSums(seed: real, es: seq<Event>, i: nat)
    requires i < |es|
    ensures |Accumulate(seed, es)| == |es|
    ensures Accumulate(seed, es)[i].balance == seed + Sum(DeltaOf, es[..i + 1])
    decreases |es|
  {
    assert es[..i + 1] == [es[0]] + es[1..][..i];
    if i > 0 {
      AccumulateSums(seed + es[0].delta, es[1..], i - 1);
    } else {
      AccumulateRows(seed, es);
    }
  }

  lemma {:induction false} AccumulateRows(seed: real, es: seq<Event>)
    ensures |Accumulate(seed, es)| == |es|
    ensures forall i | 0 <= i < |es| ::
      var r := Accumulate(seed, es)[i];
      r.key == es[i].key && r.timestamp == es[i].timestamp && r.id == es[i].id && r.delta == Some(es[i].delta)
    ensures Chained(Accumulate(seed, es), seed)
    decreases |es|
  {
    if es != [] {
      var balance := seed + es[0].delta;
      AccumulateRows(balance, es[1..]);
      var rest := Accumulate(balance, es[1..]);
      var t := Accumulate(seed, es);
      assert forall i | 1 <= i < |t| :: t[i] == rest[i - 1];
      assert forall i | 1 <= i < |t| :: BalanceBefore(t, seed, i) == BalanceBefore(rest, balance, i - 1);
    }
  }

  lemma {:induction false} AccumulateSnoc(seed: real, es: seq<Event>, e: Event)
    ensures |Accumulate(seed, es)| == |es|
    ensures var balance := BalanceBefore(Accumulate(seed, es), seed, |es|) + e.delta;
            Accumulate(seed, es + [e]) == Accumulate(seed, es) + [Row(e.key, e.timestamp, e.id, balance, Some(e.delta))]
    decreases |es|
  {
    if es == [] {
      assert es + [e] == [e];
      assert [e][1..] == [];
    } else {
      assert (es + [e])[1..] == es[1..] + [e];
      AccumulateSnoc(seed + es[0].delta, es[1..], e);
    }
  }

  /** `e` replays a row of `s` that the batch does not replace. */
  ghost predicate Replays(e: Event, s: seq<Row>, ids: set<Uuid>) {
    exists r | r in s :: r.id !in ids && r.delta.Some? && e == AsEvent(r)
  }

  lemma {:induction false} CarriedContents(s: seq<Row>, ids: set<Uuid>)
    requires forall r | r in s && r.id !in ids :: r.delta.Some?
    ensures forall e | e in Carried(s, ids) :: Replays(e, s, ids)
    ensures forall r | r in s && r.id !in ids :: AsEvent(r) in Carried(s, ids)
  {
    if s != [] {
      CarriedContents(s[1..], ids);
      assert s == [s[0]] + s[1..];
      forall e | e in Carried(s, ids) ensures Replays(e, s, ids) {
        if e in Carried(s[1..], ids) { assert Replays(e, s[1..], ids); }
      }
    }
  }

  lemma {:induction false} CarriedOrdered(s: seq<Row>, ids: set<Uuid>)
    requires forall r | r in s && r.id !in ids :: r.delta.Some?
    requires Ordered(s)
    ensures StrictlySortedBy(EventOrder, Carried(s, ids))
  {
    if s != [] {
      CarriedOrdered(s[1..], ids);
      CarriedContents(s[1..], ids);
      var rest := Carried(s[1..], ids);
      if s[0].id !in ids {
        forall e | e in rest ensures EventOrder(AsEvent(s[0])) < EventOrder(e) {
          assert Replays(e, s[1..], ids);
        }
        StrictlySortedCons(EventOrder, AsEvent(s[0]), rest);
      }
    }
  }

  lemma {:induction false} MergeStrictly(a: seq<Event>, b: seq<Event>)
    requires StrictlySortedBy(EventOrder, a) && StrictlySortedBy(EventOrder, b)
    requires forall x, y | x in a && y in b :: x.id != y.id
    ensures StrictlySortedBy(EventOrder, SortBy(EventOrder, a + b))
    ensures forall e :: e in SortBy(EventOrder, a + b) <==> e in a || e in b
  {
    var all := a + b;
    forall i, j | 0 <= i < j < |all| ensures EventOrder(all[i]) != EventOrder(all[j]) {
      if i < |a| <= j {
        assert all[i] in a && all[j] in b;
        OrderIsLexicographic(all[i].timestamp, all[i].id, all[j].timestamp, all[j].id);
      }
    }
    SortStrictly(EventOrder, all);
    SortBySorts(EventOrder, all);
  }

  // ---------------------------------------------------------------------------
  // A batch against one key's table
  // ---------------------------------------------------------------------------

  function InKey(k: Key): Event -> bool { (e: Event) => e.key == k }

  function BatchIds(batch: seq<Event>): set<Uuid> { set e | e in batch :: e.id }

  /** The batch's events of one key, in replay order. */
  function Incoming(batch: seq<Event>, k: Key): seq<Event> { SortBy(EventOrder, Filter(InKey(k), batch)) }

  /**
   An id fixes its event's key and timestamp: it is a hash over asset, timestamp, transaction hash and
   source, and the source names the raw transaction, which has one network.
   */
  ghost predicate Agrees(t: seq<Row>, batch: seq<Event>) {
    forall r, e | r in t && e in batch && r.id == e.id :: r.key == e.key && r.timestamp == e.timestamp
  }

  ghost predicate Fits(t: seq<Row>, k: Key, batch: seq<Event>) {
    Ordered(t) && OfKey(t, k) && DistinctBy(EventId, batch) && Agrees(t, batch)
  }

  lemma {:induction false} IncomingFacts(batch: seq<Event>, k: Key)
    requires DistinctBy(EventId, batch)
    ensures StrictlySortedBy(EventOrder, Incoming(batch, k))
    ensures forall e :: e in Incoming(batch, k) <==> e in batch && e.key == k
  {
    var mine := Filter(InKey(k), batch);
    FilterContents(InKey(k), batch);
    FilterKeepsDistinct(EventId, InKey(k), batch);
    forall i, j | 0 <= i < j < |mine| ensures EventOrder(mine[i]) != EventOrder(mine[j]) {
      OrderIsLexicographic(mine[i].timestamp, mine[i].id, mine[j].timestamp, mine[j].id);
      assert EventId(mine[i]) != EventId(mine[j]);
    }
    SortStrictly(EventOrder, mine);
    SortBySorts(EventOrder, mine);
  }

  lemma {:induction false} ReplacedRowsAreInSuffix(t: seq<Row>, k: Key, batch: seq<Event>, i: nat)
    requires Fits(t, k, batch) && Incoming(batch, k) != []
    requires i < |t| && t[i].id in BatchIds(batch)
    ensures Cut(t, EventOrder(Incoming(batch, k)[0])) <= i
    ensures exists e | e in Incoming(batch, k) :: e.id == t[i].id && e.timestamp == t[i].timestamp
  {
    IncomingFacts(batch, k);
    CutSplits(t, EventOrder(Incoming(batch, k)[0]));
    var e :| e in batch && e.id == t[i].id;
    assert t[i] in t;
    assert e in Incoming(batch, k);
  }

  lemma {:induction false} MergedFacts(t: seq<Row>, k: Key, batch: seq<Event>)
    requires Fits(t, k, batch) && Incoming(batch, k) != []
    requires !Refused(t, Incoming(batch, k), BatchIds(batch))
    ensures
      var m := Merged(t, Incoming(batch, k), BatchIds(batch));
      var suffix := t[Cut(t, EventOrder(Incoming(batch, k)[0]))..];
      && StrictlySortedBy(EventOrder, m)
      && (forall e | e in m :: EventOrder(Incoming(batch, k)[0]) <= EventOrder(e) && e.key == k)
      && (forall e | e in Incoming(batch, k) :: e in m)
      && (forall r | r in suffix && r.id !in BatchIds(batch) :: r.delta.Some? && AsEvent(r) in m)
      && (forall e | e in m :: e in Incoming(batch, k) || Replays(e, suffix, BatchIds(batch)))
  {
    var incoming, ids := Incoming(batch, k), BatchIds(batch);
    var first := EventOrder(incoming[0]);
    var suffix := t[Cut(t, first)..];
    IncomingFacts(batch, k);
    CutSplits(t, first);
    CarriedContents(suffix, ids);
    CarriedOrdered(suffix, ids);
    MergeStrictly(incoming, Carried(suffix, ids));
    forall e | e in Merged(t, incoming, ids) ensures first <= EventOrder(e) && e.key == k {
      if e !in incoming {
        assert Replays(e, suffix, ids);
      }
    }
  }

  lemma {:induction false} ChainedConcat(p: seq<Row>, a: seq<Row>)
    requires Chained(p, 0.0) && Chained(a, BalanceBefore(p, 0.0, |p|))
    ensures Chained(p + a, 0.0)
  {
    var seed := BalanceBefore(p, 0.0, |p|);
    forall i | 0 <= i < |p + a| && (p + a)[i].delta.Some?
      ensures (p + a)[i].balance == BalanceBefore(p + a, 0.0, i) + (p + a)[i].delta.value
    {
      if i < |p| {
        assert BalanceBefore(p + a, 0.0, i) == BalanceBefore(p, 0.0, i);
      } else {
        assert BalanceBefore(p + a, 0.0, i) == BalanceBefore(a, seed, i - |p|);
      }
    }
  }

  lemma {:induction false} PrefixChained(t: seq<Row>, n: nat)
    requires Chained(t, 0.0) && n <= |t|
    ensures Chained(t[..n], 0.0)
    ensures BalanceBefore(t[..n], 0.0, n) == BalanceBefore(t, 0.0, n)
  {
    assert forall i | 0 <= i <= n :: BalanceBefore(t[..n], 0.0, i) == BalanceBefore(t, 0.0, i);
  }

  lemma {:induction false} OrderedConcat(p: seq<Row>, a: seq<Row>, order: int)
    requires Ordered(p) && Ordered(a)
    requires (forall r | r in p :: RowOrder(r) < order) && (forall r | r in a :: order <= RowOrder(r))
    ensures Ordered(p + a)
  {
    forall i, j | 0 <= i < j < |p + a| ensures RowOrder((p + a)[i]) < RowOrder((p + a)[j]) {
      if i < |p| <= j {
        assert (p + a)[i] in p && (p + a)[j] in a;
      }
    }
  }

  lemma {:induction false} RecomputedFacts(t: seq<Row>, k: Key, batch: seq<Event>)
    requires Fits(t, k, batch) && Incoming(batch, k) != []
    requires !Refused(t, Incoming(batch, k), BatchIds(batch))
    ensures
      var a := Recomputed(t, Incoming(batch, k), BatchIds(batch));
      var first := EventOrder(Incoming(batch, k)[0]);
      && Ordered(a) && OfKey(a, k) && Chained(a, Seed(t, first))
      && (forall r | r in a :: first <= RowOrder(r) && r.delta.Some?)
  {
    var m := Merged(t, Incoming(batch, k), BatchIds(batch));
    var a := Recomputed(t, Incoming(batch, k), BatchIds(batch));
    MergedFacts(t, k, batch);
    AccumulateRows(Seed(t, EventOrder(Incoming(batch, k)[0])), m);
    assert forall i | 0 <= i < |a| :: RowOrder(a[i]) == EventOrder(m[i]) && a[i].key == m[i].key && m[i] in m;
  }

  lemma {:induction false} NextTableOrdered(t: seq<Row>, k: Key, batch: seq<Event>)
    requires Fits(t, k, batch) && Incoming(batch, k) != []
    requires !Refused(t, Incoming(batch, k), BatchIds(batch))
    ensures Ordered(NextTable(t, Incoming(batch, k), BatchIds(batch)))
  {
    var first := EventOrder(Incoming(batch, k)[0]);
    CutSplits(t, first);
    RecomputedFacts(t, k, batch);
    OrderedConcat(t[..Cut(t, first)], Recomputed(t, Incoming(batch, k), BatchIds(batch)), first);
  }

  /** The recomputed table stays ordered, and every row with a delta extends its predecessor. */
  lemma {:induction false} NextTableKeepsChain(t: seq<Row>, k: Key, batch: seq<Event>)
    requires Fits(t, k, batch) && Incoming(batch, k) != []
    requires !Refused(t, Incoming(batch, k), BatchIds(batch))
    requires Chained(t, 0.0)
    ensures var u := NextTable(t, Incoming(batch, k), BatchIds(batch));
            Ordered(u) && OfKey(u, k) && Chained(u, 0.0)
  {
    var first := EventOrder(Incoming(batch, k)[0]);
    var cut := Cut(t, first);
    var p, a := t[..cut], Recomputed(t, Incoming(batch, k), BatchIds(batch));
    NextTableOrdered(t, k, batch);
    RecomputedFacts(t, k, batch);
    PrefixChained(t, cut);
    ChainedConcat(p, a);
  }

  // ---------------------------------------------------------------------------
  // What a table records apart from its running sums
  // ---------------------------------------------------------------------------

  /** A row without its derived balance; a row that has no delta keeps its balance as data. */
  function Shape(r: Row): Row { if r.delta.Some? then r.(balance := 0.0) else r }

  function EventShape(e: Event): Row { Row(e.key, e.timestamp, e.id, 0.0, Some(e.delta)) }

  ghost function Shapes(t: seq<Row>): set<Row> { set r | r in t :: Shape(r) }

  lemma {:induction false} ShapesListed(t: seq<Row>, st: seq<Row>)
    requires |st| == |t| && forall i | 0 <= i < |t| :: st[i] == Shape(t[i])
    ensures forall s :: s in st <==> s in Shapes(t)
  {
    forall s | s in Shapes(t) ensures s in st {
      var i :| 0 <= i < |t| && Shape(t[i]) == s;
      assert st[i] == s;
    }
    forall s | s in st ensures s in Shapes(t) {
      var i :| 0 <= i < |st| && st[i] == s;
      assert t[i] in t;
    }
  }

  /** Ordered, chained tables that record the same shapes are equal: the sums carry no choice. */
  lemma {:induction false} ShapesDetermineTable(t: seq<Row>, u: seq<Row>)
    requires Ordered(t) && Ordered(u) && Chained(t, 0.0) && Chained(u, 0.0)
    requires Shapes(t) == Shapes(u)
    ensures t == u
  {
    var st := seq(|t|, i requires 0 <= i < |t| => Shape(t[i]));
    var su := seq(|u|, i requires 0 <= i < |u| => Shape(u[i]));
    assert forall s :: s in st <==> s in Shapes(t) by { ShapesListed(t, st); }
    assert forall s :: s in su <==> s in Shapes(u) by { ShapesListed(u, su); }
    StrictlySortedUnique(RowOrder, st, su);
    assert forall i | 0 <= i < |t| :: Shape(t[i]) == st[i] == su[i] == Shape(u[i]);
    SameShapesSameBalances(t, u, |t|);
    assert t == t[..|t|] && u == u[..|t|];
  }

  lemma {:induction false} SameShapesSameBalances(t: seq<Row>, u: seq<Row>, n: nat)
    requires Chained(t, 0.0) && Chained(u, 0.0)
    requires |t| == |u| && n <= |t|
    requires forall i | 0 <= i < |t| :: Shape(t[i]) == Shape(u[i])
    ensures t[..n] == u[..n]
  {
    if n > 0 {
      SameShapesSameBalances(t, u, n - 1);
      assert BalanceBefore(t, 0.0, n - 1) == BalanceBefore(u, 0.0, n - 1) by {
        if n > 1 { assert t[n - 2] == t[..n - 1][n - 2] == u[..n - 1][n - 2]; }
      }
      assert t[n - 1] == u[n - 1];
      assert t[..n] == t[..n - 1] + [t[n - 1]] && u[..n] == u[..n - 1] + [u[n - 1]];
    }
  }

  lemma {:induction false} RecomputedShapes(t: seq<Row>, k: Key, batch: seq<Event>)
    requires Fits(t, k, batch) && Incoming(batch, k) != []
    requires !Refused(t, Incoming(batch, k), BatchIds(batch))
    ensures
      var m := Merged(t, Incoming(batch, k), BatchIds(batch));
      var a := Recomputed(t, Incoming(batch, k), BatchIds(batch));
      && (forall e | e in m :: EventShape(e) in Shapes(a))
      && (forall s | s in Shapes(a) :: exists e | e in m :: s == EventShape(e))
  {
    var m := Merged(t, Incoming(batch, k), BatchIds(batch));
    var a := Recomputed(t, Incoming(batch, k), BatchIds(batch));
    AccumulateRows(Seed(t, EventOrder(Incoming(batch, k)[0])), m);
    assert forall i | 0 <= i < |a| :: Shape(a[i]) == EventShape(m[i]);
    forall e | e in m ensures EventShape(e) in Shapes(a) {
      var i :| 0 <= i < |m| && m[i] == e;
      assert a[i] in a;
    }
    forall s | s in Shapes(a) ensures exists e | e in m :: s == EventShape(e) {
      var i :| 0 <= i < |a| && Shape(a[i]) == s;
      assert m[i] in m;
    }
  }

  ghost predicate ShapeOfEvent(s: Row, es: seq<Event>) { exists e | e in es :: s == EventShape(e) }

  lemma {:induction false} ShapesConcat(p: seq<Row>, a: seq<Row>)
    ensures Shapes(p + a) == Shapes(p) + Shapes(a)
  {
  }

  lemma {:induction false} RecomputedShape(t: seq<Row>, k: Key, batch: seq<Event>, s: Row)
    requires Fits(t, k, batch) && Incoming(batch, k) != []
    requires !Refused(t, Incoming(batch, k), BatchIds(batch))
    ensures
      var ids := BatchIds(batch);
      var suffix := t[Cut(t, EventOrder(Incoming(batch, k)[0]))..];
      s in Shapes(Recomputed(t, Incoming(batch, k), ids)) <==>
      ShapeOfEvent(s, Incoming(batch, k)) || (s in Shapes(suffix) && s.id !in ids)
  {
    var incoming, ids := Incoming(batch, k), BatchIds(batch);
    var suffix := t[Cut(t, EventOrder(incoming[0]))..];
    MergedFacts(t, k, batch);
    RecomputedShapes(t, k, batch);
    if s in Shapes(Recomputed(t, incoming, ids)) {
      var e :| e in Merged(t, incoming, ids) && s == EventShape(e);
      if e !in incoming {
        assert Replays(e, suffix, ids);
        var r :| r in suffix && r.id !in ids && r.delta.Some? && e == AsEvent(r);
        assert s == Shape(r);
      }
    }
    if s in Shapes(suffix) && s.id !in ids {
      var r :| r in suffix && Shape(r) == s;
      assert AsEvent(r) in Merged(t, incoming, ids);
      assert EventShape(AsEvent(r)) == s;
    }
  }

  lemma {:induction false} PrefixIsKept(t: seq<Row>, k: Key, batch: seq<Event>, s: Row)
    requires Fits(t, k, batch) && Incoming(batch, k) != []
    requires s in Shapes(t[..Cut(t, EventOrder(Incoming(batch, k)[0]))])
    ensures s.id !in BatchIds(batch)
  {
    var cut := Cut(t, EventOrder(Incoming(batch, k)[0]));
    var i :| 0 <= i < cut && Shape(t[i]) == s;
    if t[i].id in BatchIds(batch) {
      ReplacedRowsAreInSuffix(t, k, batch, i);
    }
  }

  /** The shapes after a recomputation: the incoming events, and every stored row they do not replace. */
  lemma {:induction false} NextTableShapes(t: seq<Row>, k: Key, batch: seq<Event>, s: Row)
    requires Fits(t, k, batch) && Incoming(batch, k) != []
    requires !Refused(t, Incoming(batch, k), BatchIds(batch))
    ensures s in Shapes(NextTable(t, Incoming(batch, k), BatchIds(batch))) <==>
            ShapeOfEvent(s, Incoming(batch, k)) || (s in Shapes(t) && s.id !in BatchIds(batch))
  {
    var cut := Cut(t, EventOrder(Incoming(batch, k)[0]));
    RecomputedShape(t, k, batch, s);
    assert Shapes(t) == Shapes(t[..cut]) + Shapes(t[cut..]) by {
      ShapesConcat(t[..cut], t[cut..]);
      assert t == t[..cut] + t[cut..];
    }
    ShapesConcat(t[..cut], Recomputed(t, Incoming(batch, k), BatchIds(batch)));
    if s in Shapes(t[..cut]) { PrefixIsKept(t, k, batch, s); }
  }
}
