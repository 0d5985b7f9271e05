/** Whole runs of the incremental balance history: any batches, in any order, with replays and refusals. */
module BalanceRuns {
  import opened Common
  import opened BalanceHistory

  predicate BatchRefused(t: seq<Row>, k: Key, batch: seq<Event>) {
    Incoming(batch, k) != [] && Refused(t, Incoming(batch, k), BatchIds(batch))
  }

  /** One key's table after a materialization; a refused key is left as it was. */
  function StepTable(t: seq<Row>, k: Key, batch: seq<Event>): seq<Row> {
    if Incoming(batch, k) == [] || BatchRefused(t, k, batch) then t
    else NextTable(t, Incoming(batch, k), BatchIds(batch))
  }

  function Run(t: seq<Row>, k: Key, batches: seq<seq<Event>>): seq<Row> {
    if batches == [] then t
    else StepTable(Run(t, k, batches[..|batches| - 1]), k, batches[|batches| - 1])
  }

  /** The events of key `k` in the batches that were not refused. */
  ghost function Accepted(t: seq<Row>, k: Key, batches: seq<seq<Event>>): set<Event> {
    if batches == [] then {}
    else
      var earlier, batch := batches[..|batches| - 1], batches[|batches| - 1];
      Accepted(t, k, earlier) +
      if BatchRefused(Run(t, k, earlier), k, batch) then {} else set e | e in Incoming(batch, k)
  }

  ghost predicate Identified(world: set<Event>) {
    forall e, f | e in world && f in world && e.id == f.id :: e == f
  }

  ghost predicate RowsAgree(t: seq<Row>, world: set<Event>) {
    forall r, e | r in t && e in world && r.id == e.id :: r.key == e.key && r.timestamp == e.timestamp
  }

  ghost predicate Drawn(batches: seq<seq<Event>>, world: set<Event>) {
    forall b | b in batches :: DistinctBy(EventId, b) && forall e | e in b :: e in world
  }

  /** A stored table of key `k`, and the events that may ever be delivered, each with its own id. */
  ghost predicate Sound(t: seq<Row>, k: Key, world: set<Event>) {
    Ordered(t) && OfKey(t, k) && Chained(t, 0.0) && RowsAgree(t, world) && Identified(world)
  }

  ghost predicate ShapeIn(s: Row, events: set<Event>) { exists e | e in events :: s == EventShape(e) }

  ghost predicate IdIn(id: Uuid, events: set<Event>) { exists e | e in events :: e.id == id }

  /**
   Refusal, stated on the replay order: a stored row at or after the first incoming event, outside
   the batch, without a delta.
   */
  lemma {:induction false} RefusedIff(t: seq<Row>, k: Key, batch: seq<Event>)
    requires Ordered(t)
    ensures BatchRefused(t, k, batch) <==>
            && Incoming(batch, k) != []
            && exists r | r in t ::
              EventOrder(Incoming(batch, k)[0]) <= RowOrder(r) && r.id !in BatchIds(batch) && r.delta.None?
  {
    if Incoming(batch, k) != [] {
      var first := EventOrder(Incoming(batch, k)[0]);
      CutSplits(t, first);
      forall i | 0 <= i < |t| && first <= RowOrder(t[i]) ensures t[i] in t[Cut(t, first)..] {
        assert t[i] == t[Cut(t, first)..][i - Cut(t, first)];
      }
    }
  }

  lemma {:induction false} StepFits(t: seq<Row>, k: Key, batch: seq<Event>, world: set<Event>)
    requires Sound(t, k, world) && Drawn([batch], world)
    ensures Fits(t, k, batch)
  {
    assert batch in [batch];
  }

  /** Every materialization keeps the table ordered, chained and in agreement with the event ids. */
  lemma {:induction false} StepKeepsSound(t: seq<Row>, k: Key, batch: seq<Event>, world: set<Event>)
    requires Sound(t, k, world) && Drawn([batch], world)
    ensures Sound(StepTable(t, k, batch), k, world)
  {
    StepFits(t, k, batch, world);
    if Incoming(batch, k) != [] && !BatchRefused(t, k, batch) {
      NextTableKeepsChain(t, k, batch);
      IncomingFacts(batch, k);
      assert batch in [batch];
      var u := StepTable(t, k, batch);
      forall r, e | r in u && e in world && r.id == e.id ensures r.key == e.key && r.timestamp == e.timestamp {
        NextTableShapes(t, k, batch, Shape(r));
        assert Shape(r) in Shapes(u);
        if Shape(r) in Shapes(t) {
          var q :| q in t && Shape(q) == Shape(r);
        }
      }
    }
  }

  lemma {:induction false} DrawnPrefix(batches: seq<seq<Event>>, world: set<Event>)
    requires batches != [] && Drawn(batches, world)
    ensures Drawn(batches[..|batches| - 1], world) && Drawn([batches[|batches| - 1]], world)
  {
    forall b | b in batches[..|batches| - 1] ensures b in batches {
    }
    assert batches[|batches| - 1] in batches;
  }

  lemma {:induction false} RunKeepsSound(t: seq<Row>, k: Key, batches: seq<seq<Event>>, world: set<Event>)
    requires Sound(t, k, world) && Drawn(batches, world)
    ensures Sound(Run(t, k, batches), k, world)
  {
    if batches != [] {
      var n := |batches| - 1;
      DrawnPrefix(batches, world);
      RunKeepsSound(t, k, batches[..n], world);
      StepKeepsSound(Run(t, k, batches[..n]), k, batches[n], world);
    }
  }

  lemma {:induction false} StepShapes(u: seq<Row>, k: Key, batch: seq<Event>, world: set<Event>, s: Row)
    requires Sound(u, k, world) && Drawn([batch], world)
    requires !BatchRefused(u, k, batch)
    ensures s in Shapes(StepTable(u, k, batch)) <==>
            ShapeOfEvent(s, Incoming(batch, k)) ||
              (s in Shapes(u) && !exists e | e in Incoming(batch, k) :: e.id == s.id)
  {
    StepFits(u, k, batch, world);
    IncomingFacts(batch, k);
    if Incoming(batch, k) != [] {
      NextTableShapes(u, k, batch, s);
      if s in Shapes(u) && s.id in BatchIds(batch) {
        var e :| e in batch && e.id == s.id;
        var r :| r in u && Shape(r) == s;
        assert e in Incoming(batch, k);
      }
    }
  }

  /** After any run a table records the accepted events, and the initial rows they do not replace. */
  lemma {:induction false} RunShapes(t: seq<Row>, k: Key, batches: seq<seq<Event>>, world: set<Event>, s: Row)
    requires Sound(t, k, world) && Drawn(batches, world)
    ensures Accepted(t, k, batches) <= world
    ensures s in Shapes(Run(t, k, batches)) <==>
            ShapeIn(s, Accepted(t, k, batches)) || (s in Shapes(t) && !IdIn(s.id, Accepted(t, k, batches)))
  {
    if batches != [] {
      var n := |batches| - 1;
      var earlier, batch := batches[..n], batches[n];
      DrawnPrefix(batches, world);
      RunShapes(t, k, earlier, world, s);
      RunKeepsSound(t, k, earlier, world);
      IncomingFacts(batch, k);
      if !BatchRefused(Run(t, k, earlier), k, batch) {
        StepShapes(Run(t, k, earlier), k, batch, world, s);
        ShapesOfUnion(Accepted(t, k, earlier), Incoming(batch, k), world, s);
      }
    }
  }

  lemma {:induction false} ShapesOfUnion(acc: set<Event>, incoming: seq<Event>, world: set<Event>, s: Row)
    requires Identified(world) && acc <= world && forall e | e in incoming :: e in world
    ensures var all := acc + (set e | e in incoming);
            && (ShapeIn(s, all) <==>
                ShapeOfEvent(s, incoming) || (ShapeIn(s, acc) && !exists e | e in incoming :: e.id == s.id))
            && (IdIn(s.id, all) <==> IdIn(s.id, acc) || exists e | e in incoming :: e.id == s.id)
  {
    var all := acc + (set e | e in incoming);
    if ShapeIn(s, all) {
      var e :| e in all && s == EventShape(e);
      if f :| f in incoming && f.id == s.id { assert e == f; }
    }
    if ShapeOfEvent(s, incoming) {
      var e :| e in incoming && s == EventShape(e);
      assert e in all;
    }
    if ShapeIn(s, acc) {
      var e :| e in acc && s == EventShape(e);
      assert e in all;
    }
    if IdIn(s.id, all) {
      var e :| e in all && e.id == s.id;
      assert e in acc || e in incoming;
    }
    if IdIn(s.id, acc) {
      var e :| e in acc && e.id == s.id;
      assert e in all;
    }
    if e :| e in incoming && e.id == s.id { assert e in all; }
  }

  /**
   Confluence: two runs from the same stored table that accept the same events end in the same
   table, however the events were split, ordered and replayed, and whatever else was refused.
   */
  lemma {:induction false} Confluence(t: seq<Row>, k: Key, one: seq<seq<Event>>, two: seq<seq<Event>>,
                                      world: set<Event>)
    requires Sound(t, k, world) && Drawn(one, world) && Drawn(two, world)
    requires Accepted(t, k, one) == Accepted(t, k, two)
    ensures Run(t, k, one) == Run(t, k, two)
  {
    RunKeepsSound(t, k, one, world);
    RunKeepsSound(t, k, two, world);
    forall s ensures s in Shapes(Run(t, k, one)) <==> s in Shapes(Run(t, k, two)) {
      RunShapes(t, k, one, world, s);
      RunShapes(t, k, two, world, s);
    }
    ShapesDetermineTable(Run(t, k, one), Run(t, k, two));
  }

  /** Replaying a batch whose events of this key were accepted before changes nothing. */
  lemma {:induction false} ReplayIsIdempotent(t: seq<Row>, k: Key, batches: seq<seq<Event>>, batch: seq<Event>,
                                              world: set<Event>)
    requires Sound(t, k, world) && Drawn(batches, world) && Drawn([batch], world)
    requires forall e | e in Incoming(batch, k) :: e in Accepted(t, k, batches)
    ensures StepTable(Run(t, k, batches), k, batch) == Run(t, k, batches)
  {
    var all := batches + [batch];
    assert all[..|all| - 1] == batches;
    assert batch in [batch];
    Confluence(t, k, all, batches, world);
  }

  /** The key's delivered events, whatever the batches. */
  ghost predicate Delivered(e: Event, batches: seq<seq<Event>>) { exists b | b in batches :: e in b }

  lemma {:induction false} FreshTableHasDeltas(k: Key, batches: seq<seq<Event>>, world: set<Event>)
    requires Identified(world) && Drawn(batches, world)
    ensures forall r | r in Run([], k, batches) :: r.delta.Some?
  {
    forall r | r in Run([], k, batches) ensures r.delta.Some? {
      RunShapes([], k, batches, world, Shape(r));
      assert Shape(r) in Shapes(Run([], k, batches));
    }
  }

  /** Starting without legacy rows no batch is ever refused. */
  lemma {:induction false} FreshTableAcceptsAll(k: Key, batches: seq<seq<Event>>, world: set<Event>)
    requires Identified(world) && Drawn(batches, world)
    ensures forall e :: e in Accepted([], k, batches) <==> e.key == k && Delivered(e, batches)
  {
    if batches != [] {
      var n := |batches| - 1;
      DrawnPrefix(batches, world);
      FreshTableAcceptsAll(k, batches[..n], world);
      FreshTableHasDeltas(k, batches[..n], world);
      assert batches[n] in [batches[n]];
      IncomingFacts(batches[n], k);
      assert !BatchRefused(Run([], k, batches[..n]), k, batches[n]);
      forall e ensures Delivered(e, batches) <==> Delivered(e, batches[..n]) || e in batches[n] {
        DeliveredLast(e, batches);
      }
    }
  }

  lemma {:induction false} DeliveredLast(e: Event, batches: seq<seq<Event>>)
    requires batches != []
    ensures Delivered(e, batches) <==> Delivered(e, batches[..|batches| - 1]) || e in batches[|batches| - 1]
  {
    assert batches == batches[..|batches| - 1] + [batches[|batches| - 1]];
    assert batches[|batches| - 1] in batches;
    assert forall b | b in batches[..|batches| - 1] :: b in batches;
  }

  ghost predicate NeverRefused(t: seq<Row>, k: Key, batches: seq<seq<Event>>) {
    forall n | 0 <= n < |batches| :: !BatchRefused(Run(t, k, batches[..n]), k, batches[n])
  }

  lemma {:induction false} AcceptsDelivered(t: seq<Row>, k: Key, batches: seq<seq<Event>>, world: set<Event>)
    requires Drawn(batches, world) && NeverRefused(t, k, batches)
    ensures forall e :: e in Accepted(t, k, batches) <==> e.key == k && Delivered(e, batches)
  {
    if batches != [] {
      var n := |batches| - 1;
      DrawnPrefix(batches, world);
      assert NeverRefused(t, k, batches[..n]) by {
        assert forall i | 0 <= i < n :: batches[..n][..i] == batches[..i] && batches[..n][i] == batches[i];
      }
      AcceptsDelivered(t, k, batches[..n], world);
      assert batches[n] in [batches[n]];
      IncomingFacts(batches[n], k);
      assert !BatchRefused(Run(t, k, batches[..n]), k, batches[n]);
      forall e ensures Delivered(e, batches) <==> Delivered(e, batches[..n]) || e in batches[n] {
        DeliveredLast(e, batches);
      }
    }
  }

  /** Any split, arrival order and replays of the same events end in the same table when no batch is refused. */
  lemma {:induction false} ArrivalOrderIsIrrelevant(t: seq<Row>, k: Key, one: seq<seq<Event>>, two: seq<seq<Event>>,
                                                    world: set<Event>)
    requires Sound(t, k, world) && Drawn(one, world) && Drawn(two, world)
    requires NeverRefused(t, k, one) && NeverRefused(t, k, two)
    requires forall e :: Delivered(e, one) <==> Delivered(e, two)
    ensures Run(t, k, one) == Run(t, k, two)
  {
    AcceptsDelivered(t, k, one, world);
    AcceptsDelivered(t, k, two, world);
    Confluence(t, k, one, two, world);
  }

  lemma {:induction false} RebuildShapes(es: seq<Event>)
    requires StrictlySortedBy(EventOrder, es)
    ensures Ordered(Accumulate(0.0, es))
    ensures forall s :: s in Shapes(Accumulate(0.0, es)) <==> ShapeOfEvent(s, es)
  {
    var a := Accumulate(0.0, es);
    AccumulateRows(0.0, es);
    assert forall i | 0 <= i < |a| :: RowOrder(a[i]) == EventOrder(es[i]) && Shape(a[i]) == EventShape(es[i]);
    forall s | s in Shapes(a) ensures ShapeOfEvent(s, es) {
      var i :| 0 <= i < |a| && Shape(a[i]) == s;
      assert es[i] in es;
    }
    forall s | ShapeOfEvent(s, es) ensures s in Shapes(a) {
      var i :| 0 <= i < |es| && s == EventShape(es[i]);
      assert a[i] in a;
    }
  }

  /**
   The incremental table equals the simple full rebuild: list the delivered events of the key once
   each in replay order and sum them from zero.
   */
  lemma {:induction false} EqualsFullRebuild(k: Key, batches: seq<seq<Event>>, world: set<Event>, es: seq<Event>)
    requires Identified(world) && Drawn(batches, world)
    requires StrictlySortedBy(EventOrder, es)
    requires forall e :: e in es <==> e.key == k && Delivered(e, batches)
    ensures Run([], k, batches) == Accumulate(0.0, es)
    ensures |Accumulate(0.0, es)| == |es|
    ensures forall i | 0 <= i < |es| :: Accumulate(0.0, es)[i].balance == Sum(DeltaOf, es[..i + 1])
  {
    RunKeepsSound([], k, batches, world);
    FreshTableAcceptsAll(k, batches, world);
    AccumulateRows(0.0, es);
    RebuildShapes(es);
    forall s ensures s in Shapes(Run([], k, batches)) <==> s in Shapes(Accumulate(0.0, es)) {
      RunShapes([], k, batches, world, s);
      assert ShapeIn(s, Accepted([], k, batches)) <==> ShapeOfEvent(s, es);
    }
    ShapesDetermineTable(Run([], k, batches), Accumulate(0.0, es));
    forall i | 0 <= i < |es| ensures Accumulate(0.0, es)[i].balance == Sum(DeltaOf, es[..i + 1]) {
      AccumulateSums(0.0, es, i);
    }
  }

  // ---------------------------------------------------------------------------
  // Events that are delivered again with another delta
  // ---------------------------------------------------------------------------

  function NotIn(ids: set<Uuid>): Event -> bool { (e: Event) => e.id !in ids }

  /** The last delivery of every id. */
  function LatestEvents(batches: seq<seq<Event>>): seq<Event> {
    if batches == [] then []
    else
      var n := |batches| - 1;
      Filter(NotIn(BatchIds(batches[n])), LatestEvents(batches[..n])) + batches[n]
  }

  lemma {:induction false} LatestSnoc(batches: seq<seq<Event>>, batch: seq<Event>)
    ensures LatestEvents(batches + [batch]) == Filter(NotIn(BatchIds(batch)), LatestEvents(batches)) + batch
  {
    assert (batches + [batch])[..|batches|] == batches;
  }

  /** An id fixes key and timestamp, though perhaps not the delta. */
  ghost predicate Consistent(world: set<Event>) {
    forall e, f | e in world && f in world && e.id == f.id :: e.key == f.key && e.timestamp == f.timestamp
  }

  lemma {:induction false} LatestFacts(batches: seq<seq<Event>>, world: set<Event>)
    requires Drawn(batches, world)
    ensures DistinctBy(EventId, LatestEvents(batches)) && forall e | e in LatestEvents(batches) :: e in world
  {
    if batches != [] {
      var n := |batches| - 1;
      var earlier, batch := LatestEvents(batches[..n]), batches[n];
      DrawnPrefix(batches, world);
      assert batch in [batch];
      LatestFacts(batches[..n], world);
      FilterContents(NotIn(BatchIds(batch)), earlier);
      FilterKeepsDistinct(EventId, NotIn(BatchIds(batch)), earlier);
      var kept := Filter(NotIn(BatchIds(batch)), earlier);
      forall i, j | 0 <= i < j < |kept + batch| ensures EventId((kept + batch)[i]) != EventId((kept + batch)[j]) {
        if i < |kept| <= j { assert (kept + batch)[i] in kept && (kept + batch)[j] in batch; }
      }
    }
  }

  lemma {:induction false} LatestShape(batches: seq<seq<Event>>, k: Key, s: Row, world: set<Event>)
    requires batches != [] && Drawn(batches, world)
    ensures var n := |batches| - 1;
            ShapeOfEvent(s, Incoming(LatestEvents(batches), k)) <==>
            || ShapeOfEvent(s, Incoming(batches[n], k))
            || (ShapeOfEvent(s, Incoming(LatestEvents(batches[..n]), k)) && s.id !in BatchIds(batches[n]))
  {
    var n := |batches| - 1;
    var earlier, batch := LatestEvents(batches[..n]), batches[n];
    DrawnPrefix(batches, world);
    assert batch in [batch];
    LatestFacts(batches, world);
    LatestFacts(batches[..n], world);
    IncomingFacts(LatestEvents(batches), k);
    IncomingFacts(earlier, k);
    IncomingFacts(batch, k);
    FilterContents(NotIn(BatchIds(batch)), earlier);
    if ShapeOfEvent(s, Incoming(batch, k)) {
      var e :| e in Incoming(batch, k) && s == EventShape(e);
      assert e in LatestEvents(batches);
    }
    if ShapeOfEvent(s, Incoming(earlier, k)) && s.id !in BatchIds(batch) {
      var e :| e in Incoming(earlier, k) && s == EventShape(e);
      assert NotIn(BatchIds(batch))(e);
      assert e in LatestEvents(batches);
    }
  }

  /** A sequence of events of the world, each id once. */
  ghost predicate Listed(es: seq<Event>, world: set<Event>) {
    DistinctBy(EventId, es) && forall e | e in es :: e in world
  }

  function Summed(es: seq<Event>, k: Key): seq<Row> { Accumulate(0.0, Incoming(es, k)) }

  lemma {:induction false} SummedFacts(es: seq<Event>, k: Key)
    requires DistinctBy(EventId, es)
    ensures Ordered(Summed(es, k)) && OfKey(Summed(es, k), k) && Chained(Summed(es, k), 0.0)
    ensures forall r | r in Summed(es, k) :: r.delta.Some?
    ensures forall s :: s in Shapes(Summed(es, k)) <==> ShapeOfEvent(s, Incoming(es, k))
  {
    var mine, t := Incoming(es, k), Summed(es, k);
    IncomingFacts(es, k);
    RebuildShapes(mine);
    AccumulateRows(0.0, mine);
    forall r | r in t ensures r.key == k && r.delta.Some? {
      var i :| 0 <= i < |t| && t[i] == r;
      assert mine[i] in mine;
    }
  }

  lemma {:induction false} SummedFits(es: seq<Event>, k: Key, batch: seq<Event>, world: set<Event>)
    requires Consistent(world) && Listed(es, world) && Listed(batch, world)
    ensures Fits(Summed(es, k), k, batch)
  {
    var mine, t := Incoming(es, k), Summed(es, k);
    SummedFacts(es, k);
    IncomingFacts(es, k);
    AccumulateRows(0.0, mine);
    forall r, e | r in t && e in batch && r.id == e.id ensures r.key == e.key && r.timestamp == e.timestamp {
      var i :| 0 <= i < |t| && t[i] == r;
      assert mine[i] in mine;
    }
  }

  /** `latest` is `es` with the batch's events in place of those they correct. */
  ghost predicate Corrected(es: seq<Event>, batch: seq<Event>, latest: seq<Event>, k: Key) {
    forall s :: ShapeOfEvent(s, Incoming(latest, k)) <==>
                ShapeOfEvent(s, Incoming(batch, k)) || (ShapeOfEvent(s, Incoming(es, k)) && s.id !in BatchIds(batch))
  }

  lemma {:induction false} StepShape(es: seq<Event>, batch: seq<Event>, latest: seq<Event>, k: Key, world: set<Event>,
                                     s: Row)
    requires Consistent(world) && Listed(es, world) && Listed(batch, world) && Listed(latest, world)
    requires Corrected(es, batch, latest, k)
    ensures s in Shapes(StepTable(Summed(es, k), k, batch)) <==> s in Shapes(Summed(latest, k))
  {
    SummedFacts(es, k);
    SummedFacts(latest, k);
    SummedFits(es, k, batch, world);
    if Incoming(batch, k) != [] {
      NextTableShapes(Summed(es, k), k, batch, s);
    } else if ShapeOfEvent(s, Incoming(es, k)) {
      NoneReplaced(es, k, batch, world, s);
    }
  }

  lemma {:induction false} StepCorrects(es: seq<Event>, batch: seq<Event>, latest: seq<Event>, k: Key,
                                        world: set<Event>)
    requires Consistent(world) && Listed(es, world) && Listed(batch, world) && Listed(latest, world)
    requires Corrected(es, batch, latest, k)
    ensures StepTable(Summed(es, k), k, batch) == Summed(latest, k)
  {
    SummedFacts(es, k);
    SummedFacts(latest, k);
    SummedFits(es, k, batch, world);
    if Incoming(batch, k) != [] { NextTableKeepsChain(Summed(es, k), k, batch); }
    forall s ensures s in Shapes(StepTable(Summed(es, k), k, batch)) <==> s in Shapes(Summed(latest, k)) {
      StepShape(es, batch, latest, k, world, s);
    }
    ShapesDetermineTable(StepTable(Summed(es, k), k, batch), Summed(latest, k));
  }

  lemma {:induction false} NoneReplaced(es: seq<Event>, k: Key, batch: seq<Event>, world: set<Event>, s: Row)
    requires Consistent(world) && DistinctBy(EventId, es) && DistinctBy(EventId, batch) && Incoming(batch, k) == []
    requires (forall e | e in es :: e in world) && (forall e | e in batch :: e in world)
    requires ShapeOfEvent(s, Incoming(es, k))
    ensures s.id !in BatchIds(batch)
  {
    IncomingFacts(es, k);
    IncomingFacts(batch, k);
    var e :| e in Incoming(es, k) && s == EventShape(e);
    forall f | f in batch ensures f.id != e.id {
      assert f.key == k ==> f in Incoming(batch, k);
    }
  }

  /**
   From an empty table, any run stores the last delivery of every event, in replay order and summed from
   zero: a corrected delta takes the place of the old one in every balance behind it.
   */
  lemma {:induction false} EqualsLatest(k: Key, batches: seq<seq<Event>>, world: set<Event>)
    requires Consistent(world) && Drawn(batches, world)
    ensures Run([], k, batches) == Accumulate(0.0, Incoming(LatestEvents(batches), k))
  {
    if batches == [] {
      assert Filter(InKey(k), []) == [];
    } else {
      var n := |batches| - 1;
      DrawnPrefix(batches, world);
      EqualsLatest(k, batches[..n], world);
      LatestFacts(batches, world);
      LatestFacts(batches[..n], world);
      assert batches[n] in [batches[n]];
      forall s { LatestShape(batches, k, s, world); }
      assert Corrected(LatestEvents(batches[..n]), batches[n], LatestEvents(batches), k);
      StepCorrects(LatestEvents(batches[..n]), batches[n], LatestEvents(batches), k, world);
    }
  }
}
