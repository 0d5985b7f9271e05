/**
 The rows of the balance history over whole runs, on the raw rows they come from: block times, deltas,
 the order in which they count, and what the last balance adds up to.
 */
module GoldTimes {
  import opened Common
  import opened GoldLedger
  import opened GoldAmounts
  import opened LedgerTable
  import opened BalanceHistory
  import opened BalanceRuns
  import opened GoldRuns

  /** The event is one of a delivered raw row, and carries that row's block time. */
  ghost predicate ComesFrom(c: Context, hash: Hash, e: Event, raw: Raw) {
    && e.timestamp == raw.origin.timestamp
    && exists x | x in EventsOf(c, [raw]) :: e.id == hash(KeyOf(x)) && e.key == x.key && e.delta == x.delta
  }

  /** Events of a key at an earlier time, or tied with an id at or below the given one. */
  function UpTo(k: Key, time: int, id: Uuid): Event -> bool {
    (e: Event) => e.key == k && (e.timestamp < time || (e.timestamp == time && e.id <= id))
  }

  /**
   A row of the key's table: it is a stored event, of a delivered raw row and at its block time, and its
   balance is the sum of the stored deltas up to it.
   */
  ghost predicate RowTimed(c: Context, hash: Hash, batches: seq<seq<Raw>>, k: Key, r: Row) {
    && r.key == k && r.delta.Some?
    && var e := Event(k, r.timestamp, r.id, r.delta.value);
       && e in Stored(c, hash, batches)
       && (exists raw | RawDelivered(raw, batches) :: ComesFrom(c, hash, e, raw))
       && r.balance == Sum(DeltaOf, Filter(UpTo(k, r.timestamp, r.id), Stored(c, hash, batches)))
  }

  ghost predicate Earlier(r: Row, s: Row) { r.timestamp < s.timestamp || (r.timestamp == s.timestamp && r.id < s.id) }

  /** The latest version of a raw row has a row for each of its events. */
  ghost predicate HasRow(t: seq<Row>, hash: Hash, raw: Raw, x: BalanceEvent) {
    exists r | r in t :: r.id == hash(KeyOf(x)) && r.timestamp == raw.origin.timestamp && r.delta == Some(x.delta)
  }

  /** The table of a key after the given batches. */
  ghost predicate Timed(t: seq<Row>, c: Context, hash: Hash, batches: seq<seq<Raw>>, k: Key) {
    && (forall i, j | 0 <= i < j < |t| :: Earlier(t[i], t[j]))
    && (forall r | r in t :: RowTimed(c, hash, batches, k, r))
    && forall raw, x | raw in Latest(batches) && x in EventsOf(c, [raw]) && x.key == k :: HasRow(t, hash, raw, x)
  }

  lemma {:induction false} FilterOfFilter(k: Key, time: int, id: Uuid, es: seq<Event>)
    ensures Filter(UpTo(k, time, id), Filter(InKey(k), es)) == Filter(UpTo(k, time, id), es)
  {
    if es != [] {
      FilterOfFilter(k, time, id, es[1..]);
      FilterConcat(UpTo(k, time, id), if InKey(k)(es[0]) then [es[0]] else [], Filter(InKey(k), es[1..]));
    }
  }

  /** Of strictly ordered events, those up to the i-th are the first i + 1. */
  lemma {:induction false} UpToIsPrefix(k: Key, es: seq<Event>, i: nat)
    requires StrictlySortedBy(EventOrder, es) && (forall e | e in es :: e.key == k) && i < |es|
    ensures Filter(UpTo(k, es[i].timestamp, es[i].id), es) == es[..i + 1]
  {
    var upTo := UpTo(k, es[i].timestamp, es[i].id);
    forall j | 0 <= j < |es| ensures upTo(es[j]) <==> j <= i {
      assert es[j] in es;
      OrderIsLexicographic(es[j].timestamp, es[j].id, es[i].timestamp, es[i].id);
    }
    assert es == es[..i + 1] + es[i + 1..];
    FilterConcat(upTo, es[..i + 1], es[i + 1..]);
    FilterKeepsAll(upTo, es[..i + 1]);
    FilterKeepsNone(upTo, es[i + 1..]);
  }

  /** The i-th balance, whatever the order in which the events are stored. */
  lemma {:induction false} BalanceIsUpTo(k: Key, stored: seq<Event>, i: nat)
    requires DistinctBy(EventId, stored) && i < |Incoming(stored, k)|
    ensures var es := Incoming(stored, k);
            Sum(DeltaOf, es[..i + 1]) == Sum(DeltaOf, Filter(UpTo(k, es[i].timestamp, es[i].id), stored))
  {
    var es := Incoming(stored, k);
    var upTo := UpTo(k, es[i].timestamp, es[i].id);
    IncomingFacts(stored, k);
    UpToIsPrefix(k, es, i);
    SortBySorts(EventOrder, Filter(InKey(k), stored));
    FilterPermutes(upTo, es, Filter(InKey(k), stored));
    FilterOfFilter(k, es[i].timestamp, es[i].id, stored);
    SumPermutes(DeltaOf, es[..i + 1], Filter(upTo, stored));
  }

  lemma {:induction false} StoredComesFrom(c: Context, hash: Hash, batches: seq<seq<Raw>>, e: Event)
    requires e in Stored(c, hash, batches)
    ensures exists raw | RawDelivered(raw, batches) :: ComesFrom(c, hash, e, raw)
  {
    var raw, x := StoredIsDelivered(c, hash, batches, e);
    EventsNameRaw(c, raw, x);
    assert ComesFrom(c, hash, e, raw);
  }

  /** The table after a run, row by row: the stored events in replay order, with the sums up to them. */
  lemma {:induction false} RunRow(c: Context, hash: Hash, world: set<Raw>, batches: seq<seq<Raw>>, k: Key, i: nat)
    requires ValidWorld(c, hash, world) && BatchesFrom(world, batches)
    requires i < |Incoming(Stored(c, hash, batches), k)|
    ensures var t, es := Run([], k, EventBatches(c, hash, batches)), Incoming(Stored(c, hash, batches), k);
            && |t| == |es| && t[i].key == k && t[i].timestamp == es[i].timestamp && t[i].id == es[i].id
            && t[i].delta == Some(es[i].delta) && RowTimed(c, hash, batches, k, t[i])
  {
    var stored := Stored(c, hash, batches);
    var es := Incoming(stored, k);
    RunIs(c, hash, world, batches, k);
    AccumulateRows(0.0, es);
    AccumulateSums(0.0, es, i);
    IncomingFacts(stored, k);
    BalanceIsUpTo(k, stored, i);
    assert es[i] in es;
    StoredComesFrom(c, hash, batches, es[i]);
  }

  lemma {:induction false} RunIs(c: Context, hash: Hash, world: set<Raw>, batches: seq<seq<Raw>>, k: Key)
    requires ValidWorld(c, hash, world) && BatchesFrom(world, batches)
    ensures DistinctBy(EventId, Stored(c, hash, batches))
    ensures Run([], k, EventBatches(c, hash, batches)) == Accumulate(0.0, Incoming(Stored(c, hash, batches), k))
  {
    WorldIsConsistent(c, hash, world);
    RunIsDrawn(c, hash, world, batches);
    EqualsLatest(k, EventBatches(c, hash, batches), EventWorld(c, hash, world));
    LatestFacts(EventBatches(c, hash, batches), EventWorld(c, hash, world));
  }

  lemma {:induction false} LatestHasRow(c: Context, hash: Hash, world: set<Raw>, batches: seq<seq<Raw>>, raw: Raw,
                                        x: BalanceEvent)
    requires ValidWorld(c, hash, world) && BatchesFrom(world, batches)
    requires raw in Latest(batches) && x in EventsOf(c, [raw])
    ensures HasRow(Run([], x.key, EventBatches(c, hash, batches)), hash, raw, x)
  {
    var e, stored := ToEvent(hash)(x), Stored(c, hash, batches);
    EventsNameRaw(c, raw, x);
    CurrentIsStored(c, hash, world, batches, raw, x);
    RunIs(c, hash, world, batches, x.key);
    IncomingFacts(stored, x.key);
    var i :| 0 <= i < |Incoming(stored, x.key)| && Incoming(stored, x.key)[i] == e;
    RunRow(c, hash, world, batches, x.key, i);
    assert Run([], x.key, EventBatches(c, hash, batches))[i] in Run([], x.key, EventBatches(c, hash, batches));
  }

  /**
   After any run, in any batching, with replays and changed raw rows, every row carries the block time of a
   delivered raw row, and its balance is the sum of the stored deltas that are earlier or tied below it.
   */
  lemma {:induction false} RunIsTimed(c: Context, hash: Hash, world: set<Raw>, batches: seq<seq<Raw>>, k: Key)
    requires ValidWorld(c, hash, world) && BatchesFrom(world, batches)
    ensures Timed(Run([], k, EventBatches(c, hash, batches)), c, hash, batches, k)
  {
    var t, es := Run([], k, EventBatches(c, hash, batches)), Incoming(Stored(c, hash, batches), k);
    RunIs(c, hash, world, batches, k);
    AccumulateRows(0.0, es);
    IncomingFacts(Stored(c, hash, batches), k);
    forall r | r in t ensures RowTimed(c, hash, batches, k, r) {
      var i :| 0 <= i < |t| && t[i] == r;
      RunRow(c, hash, world, batches, k, i);
    }
    forall i, j | 0 <= i < j < |t| ensures Earlier(t[i], t[j]) {
      OrderIsLexicographic(es[i].timestamp, es[i].id, es[j].timestamp, es[j].id);
    }
    forall raw, x | raw in Latest(batches) && x in EventsOf(c, [raw]) && x.key == k ensures HasRow(t, hash, raw, x) {
      LatestHasRow(c, hash, world, batches, raw, x);
    }
  }

  /** The last balance on the payloads: what the latest versions of the raw rows gained, plus the stale deltas. */
  lemma {:induction false} LastBalanceIsGained(c: Context, hash: Hash, world: set<Raw>, batches: seq<seq<Raw>>, k: Key)
    requires ValidWorld(c, hash, world) && Bookable(c, world) && BatchesFrom(world, batches) && !c.Mine("external")
    ensures LastBalance(Run([], k, EventBatches(c, hash, batches))) ==
            Gained(c, k, Latest(batches)) + Sum(GoldRuns.MovedIn(k), Stale(c, hash, batches))
  {
    LastBalanceIsLedger(c, hash, world, batches, k);
    BookableIsWritable(c, world, batches);
    StoredLedgerBooks(c, k, batches);
    LatestIsBatch(world, batches);
    BookedIsGained(c, k, Latest(batches));
  }
}
