/**
 The simple full rebuild of balance history: group the entries by key, sort each group by timestamp
 alone, and sum. It is the reference that the incremental table is held against.
 */
module BalanceRebuild {
  import opened Common
  import opened BalanceHistory
  import opened BalanceRuns

  datatype Snapshot = Snapshot(key: Key, timestamp: int, balance: real)

  function TimeOf(e: Event): int { e.timestamp }

  function SnapshotTime(s: Snapshot): int { s.timestamp }

  /** The snapshots of a key's entries in the order given, each with the sum so far. */
  function Sums(es: seq<Event>): seq<Snapshot> {
    seq(|es|, i requires 0 <= i < |es| => Snapshot(es[i].key, es[i].timestamp, Sum(DeltaOf, es[..i + 1])))
  }

  function ByTime(entries: seq<Event>, k: Key): seq<Event> { SortBy(TimeOf, Filter(InKey(k), entries)) }

  function Rebuilt(entries: seq<Event>): Key -> seq<Snapshot> { (k: Key) => Sums(ByTime(entries, k)) }

  /** The running balance of one key. */
  method RunningBalance(es: seq<Event>) returns (snapshots: seq<Snapshot>)
    ensures snapshots == Sums(es)
  {
    snapshots := [];
    var balance := 0.0;
    for i := 0 to |es|
      invariant balance == Sum(DeltaOf, es[..i])
      invariant snapshots == Sums(es)[..i]
    {
      SumSnoc(es, i);
      balance := balance + es[i].delta;
      snapshots := snapshots + [Snapshot(es[i].key, es[i].timestamp, balance)];
    }
  }

  method RebuildKeys(entries: seq<Event>, keys: seq<Key>) returns (snapshots: seq<Snapshot>)
    ensures snapshots == FlatMap(Rebuilt(entries), keys)
  {
    snapshots := [];
    var rest := keys;
    while rest != []
      invariant FlatMap(Rebuilt(entries), keys) == snapshots + FlatMap(Rebuilt(entries), rest)
      decreases |rest|
    {
      var mine := RunningBalance(SortBy(TimeOf, Filter(InKey(rest[0]), entries)));
      snapshots, rest := snapshots + mine, rest[1..];
    }
  }

  /** `keys` lists the entries' keys once each, in the order the hash map yields them. */
  ghost predicate ListsEntryKeys(keys: seq<Key>, entries: seq<Event>) {
    && (forall i, j | 0 <= i < j < |keys| :: keys[i] != keys[j])
    && (forall k :: k in keys <==> exists e | e in entries :: e.key == k)
  }

  function InSome(keys: seq<Key>): Event -> bool { (e: Event) => e.key in keys }

  lemma {:induction false} CountByKeys(entries: seq<Event>, keys: seq<Key>)
    requires forall i, j | 0 <= i < j < |keys| :: keys[i] != keys[j]
    ensures |FlatMap(Rebuilt(entries), keys)| == |Filter(InSome(keys), entries)|
  {
    if keys == [] {
      FilterKeepsNone(InSome(keys), entries);
    } else {
      CountByKeys(entries, keys[1..]);
      SortBySorts(TimeOf, Filter(InKey(keys[0]), entries));
      SplitByKey(entries, keys);
    }
  }

  lemma {:induction false} SplitByKey(entries: seq<Event>, keys: seq<Key>)
    requires keys != [] && forall i, j | 0 <= i < j < |keys| :: keys[i] != keys[j]
    ensures |Filter(InSome(keys), entries)| == |Filter(InKey(keys[0]), entries)| + |Filter(InSome(keys[1..]), entries)|
  {
    forall e | e in entries
      ensures InSome(keys)(e) <==> InKey(keys[0])(e) || InSome(keys[1..])(e)
      ensures !(InKey(keys[0])(e) && InSome(keys[1..])(e))
    {
      assert keys == [keys[0]] + keys[1..];
    }
    FilterUnion(InSome(keys), InKey(keys[0]), InSome(keys[1..]), entries);
    SameElements(Filter(InSome(keys), entries), Filter(InKey(keys[0]), entries) + Filter(InSome(keys[1..]), entries));
  }

  /** One snapshot per entry: every key's entries in time order, each with the sum of its key so far. */
  method DeriveBalanceHistory(entries: seq<Event>, keys: seq<Key>) returns (snapshots: seq<Snapshot>)
    requires ListsEntryKeys(keys, entries)
    ensures SortedBy(SnapshotTime, snapshots) && |snapshots| == |entries|
    ensures multiset(snapshots) == multiset(FlatMap(Rebuilt(entries), keys))
  {
    snapshots := RebuildKeys(entries, keys);
    CountByKeys(entries, keys);
    FilterKeepsAll(InSome(keys), entries);
    SortBySorts(SnapshotTime, snapshots);
    snapshots := SortBy(SnapshotTime, snapshots);
  }

  // ---------------------------------------------------------------------------
  // Two orders of the same entries
  // ---------------------------------------------------------------------------

  function UpTo(t: int): Event -> bool { (e: Event) => e.timestamp <= t }

  /** In time order, the entries up to a time are a prefix. */
  lemma {:induction false} UpToIsPrefix(es: seq<Event>, t: int)
    requires SortedBy(TimeOf, es)
    ensures |Filter(UpTo(t), es)| <= |es| && Filter(UpTo(t), es) == es[..|Filter(UpTo(t), es)|]
    ensures forall i | 0 <= i < |es| :: es[i].timestamp <= t <==> i < |Filter(UpTo(t), es)|
  {
    if es != [] {
      UpToIsPrefix(es[1..], t);
      assert forall i | 1 <= i < |es| :: es[i] == es[1..][i - 1] && TimeOf(es[0]) <= TimeOf(es[i]);
      if es[0].timestamp <= t {
        assert Filter(UpTo(t), es) == [es[0]] + Filter(UpTo(t), es[1..]);
      } else {
        FilterKeepsNone(UpTo(t), es);
      }
    }
  }

  lemma {:induction false} SamePrefix(u: seq<Event>, v: seq<Event>, t: int)
    requires SortedBy(TimeOf, u) && SortedBy(TimeOf, v) && multiset(u) == multiset(v)
    ensures |Filter(UpTo(t), u)| == |Filter(UpTo(t), v)|
    ensures Sum(DeltaOf, Filter(UpTo(t), u)) == Sum(DeltaOf, Filter(UpTo(t), v))
  {
    FilterPermutes(UpTo(t), u, v);
    SameElements(Filter(UpTo(t), u), Filter(UpTo(t), v));
    SumPermutes(DeltaOf, Filter(UpTo(t), u), Filter(UpTo(t), v));
  }

  /** The last entry of its timestamp. */
  predicate ClosesTime(es: seq<Event>, i: nat)
    requires i < |es|
  {
    i + 1 == |es| || es[i].timestamp < es[i + 1].timestamp
  }

  lemma {:induction false} SameTimes(u: seq<Event>, v: seq<Event>, i: nat)
    requires SortedBy(TimeOf, u) && SortedBy(TimeOf, v) && multiset(u) == multiset(v) && |u| == |v| && i < |u|
    ensures u[i].timestamp <= v[i].timestamp
  {
    SamePrefix(u, v, v[i].timestamp);
    UpToIsPrefix(u, v[i].timestamp);
    UpToIsPrefix(v, v[i].timestamp);
  }

  lemma {:induction false} SameClosingSums(u: seq<Event>, v: seq<Event>, i: nat)
    requires SortedBy(TimeOf, u) && SortedBy(TimeOf, v) && multiset(u) == multiset(v) && |u| == |v| && i < |u|
    requires ClosesTime(v, i)
    ensures Sum(DeltaOf, u[..i + 1]) == Sum(DeltaOf, v[..i + 1])
  {
    var t := v[i].timestamp;
    SamePrefix(u, v, t);
    UpToIsPrefix(u, t);
    UpToIsPrefix(v, t);
    assert |Filter(UpTo(t), v)| == i + 1;
  }

  lemma {:induction false} ReplayOrderIsTimeOrder(es: seq<Event>)
    requires StrictlySortedBy(EventOrder, es)
    ensures SortedBy(TimeOf, es)
  {
    forall i, j | 0 <= i < j < |es| ensures TimeOf(es[i]) <= TimeOf(es[j]) {
      OrderIsLexicographic(es[i].timestamp, es[i].id, es[j].timestamp, es[j].id);
    }
  }

  /** What the incremental table of a key and the rebuild of it have in common. */
  ghost predicate AgreesAtTimes(table: seq<Row>, rebuilt: seq<Snapshot>) {
    && |table| == |rebuilt|
    && (forall i | 0 <= i < |table| :: table[i].timestamp == rebuilt[i].timestamp)
    && (forall i | 0 <= i < |table| && (i + 1 == |table| || table[i].timestamp < table[i + 1].timestamp) ::
          table[i].balance == rebuilt[i].balance)
  }

  /**
   However the entries were batched, the incremental table and the full rebuild have the same
   timestamps, and the same balance at the end of each of them. Within one timestamp the rebuild
   follows the order of its input, the table the ids.
   */
  lemma {:induction false} RebuildAgrees(k: Key, batches: seq<seq<Event>>, world: set<Event>, entries: seq<Event>)
    requires Identified(world) && Drawn(batches, world) && DistinctBy(EventId, entries)
    requires forall e :: e in entries <==> Delivered(e, batches)
    ensures AgreesAtTimes(Run([], k, batches), Rebuilt(entries)(k))
  {
    var v := Incoming(entries, k);
    IncomingFacts(entries, k);
    SortBySorts(TimeOf, Filter(InKey(k), entries));
    SortBySorts(EventOrder, Filter(InKey(k), entries));
    ReplayOrderIsTimeOrder(v);
    assert Run([], k, batches) == Accumulate(0.0, v) by { EqualsFullRebuild(k, batches, world, v); }
    OrdersAgree(ByTime(entries, k), v);
  }

  lemma {:induction false} OrdersAgree(u: seq<Event>, v: seq<Event>)
    requires SortedBy(TimeOf, u) && SortedBy(TimeOf, v) && multiset(u) == multiset(v) && |u| == |v|
    ensures AgreesAtTimes(Accumulate(0.0, v), Sums(u))
  {
    var table := Accumulate(0.0, v);
    AccumulateRows(0.0, v);
    forall i | 0 <= i < |u| ensures table[i].timestamp == u[i].timestamp {
      SameTimes(u, v, i);
      SameTimes(v, u, i);
    }
    forall i | 0 <= i < |u| && (i + 1 == |u| || table[i].timestamp < table[i + 1].timestamp)
      ensures table[i].balance == Sum(DeltaOf, u[..i + 1])
    {
      SameClosingSums(u, v, i);
      AccumulateSums(0.0, v, i);
    }
  }

  // ---------------------------------------------------------------------------
  // Ties
  // ---------------------------------------------------------------------------

  /** Entries of one timestamp are listed in the order of their ids. */
  ghost predicate TiesInOrder(es: seq<Event>) {
    forall i, j | 0 <= i < j < |es| && es[i].timestamp == es[j].timestamp :: es[i].id < es[j].id
  }

  lemma {:induction false} InsertKeepsReplayOrder(e: Event, es: seq<Event>)
    requires StrictlySortedBy(EventOrder, es) && forall f | f in es && f.timestamp == e.timestamp :: e.id < f.id
    ensures StrictlySortedBy(EventOrder, Insert(TimeOf, e, es))
    ensures forall f | f in Insert(TimeOf, e, es) :: f == e || f in es
  {
    if es == [] {
    } else if TimeOf(e) <= TimeOf(es[0]) {
      forall f | f in es ensures EventOrder(e) < EventOrder(f) {
        OrderIsLexicographic(e.timestamp, e.id, es[0].timestamp, es[0].id);
        assert es[0] in es;
        assert EventOrder(es[0]) <= EventOrder(f);
      }
      StrictlySortedCons(EventOrder, e, es);
    } else {
      InsertKeepsReplayOrder(e, es[1..]);
      var rest := Insert(TimeOf, e, es[1..]);
      forall f | f in rest ensures EventOrder(es[0]) < EventOrder(f) {
        OrderIsLexicographic(es[0].timestamp, es[0].id, e.timestamp, e.id);
      }
      StrictlySortedCons(EventOrder, es[0], rest);
    }
  }

  lemma {:induction false} SortKeepsTies(es: seq<Event>)
    requires TiesInOrder(es)
    ensures StrictlySortedBy(EventOrder, SortBy(TimeOf, es))
  {
    if es != [] {
      SortKeepsTies(es[1..]);
      SortBySorts(TimeOf, es[1..]);
      InsertKeepsReplayOrder(es[0], SortBy(TimeOf, es[1..]));
    }
  }

  ghost predicate AgreesEverywhere(table: seq<Row>, rebuilt: seq<Snapshot>) {
    && |table| == |rebuilt|
    && forall i | 0 <= i < |table| ::
      table[i].timestamp == rebuilt[i].timestamp && table[i].balance == rebuilt[i].balance
  }

  lemma {:induction false} AccumulateIsSums(es: seq<Event>)
    ensures AgreesEverywhere(Accumulate(0.0, es), Sums(es))
  {
    AccumulateRows(0.0, es);
    forall i | 0 <= i < |es| ensures Accumulate(0.0, es)[i].balance == Sums(es)[i].balance {
      AccumulateSums(0.0, es, i);
    }
  }

  /** Both orders put the same delta in every place. */
  ghost predicate SameDeltas(u: seq<Event>, v: seq<Event>) {
    |u| == |v| && forall i | 0 <= i < |u| :: u[i].delta == v[i].delta
  }

  lemma {:induction false} SameSums(u: seq<Event>, v: seq<Event>, n: nat)
    requires SameDeltas(u, v) && n <= |u|
    ensures Sum(DeltaOf, u[..n]) == Sum(DeltaOf, v[..n])
  {
    if n > 0 {
      SameSums(u, v, n - 1);
      SumSnoc(u, n - 1);
      SumSnoc(v, n - 1);
    }
  }

  lemma {:induction false} DeltaOfSums(u: seq<Event>, v: seq<Event>, i: nat)
    requires |u| == |v| && i < |u| && Sums(u)[i].balance == Sums(v)[i].balance
    requires i > 0 ==> Sums(u)[i - 1].balance == Sums(v)[i - 1].balance
    ensures u[i].delta == v[i].delta
  {
    SumSnoc(u, i);
    SumSnoc(v, i);
    assert i == 0 ==> u[..i] == [] && v[..i] == [];
  }

  lemma {:induction false} SumsAgreeIff(u: seq<Event>, v: seq<Event>)
    requires SortedBy(TimeOf, u) && SortedBy(TimeOf, v) && multiset(u) == multiset(v) && |u| == |v|
    ensures AgreesEverywhere(Accumulate(0.0, v), Sums(u)) <==> SameDeltas(u, v)
  {
    AccumulateIsSums(v);
    OrdersAgree(u, v);
    if SameDeltas(u, v) {
      forall i | 0 <= i < |u| ensures Sums(u)[i].balance == Sums(v)[i].balance { SameSums(u, v, i + 1); }
    }
    if AgreesEverywhere(Accumulate(0.0, v), Sums(u)) {
      assert forall n | 0 <= n < |u| :: Accumulate(0.0, v)[n].balance == Sums(u)[n].balance == Sums(v)[n].balance;
      forall i | 0 <= i < |u| ensures u[i].delta == v[i].delta { DeltaOfSums(u, v, i); }
    }
  }

  /**
   The table and the rebuild agree row by row if and only if the entries of the key, sorted by time
   and sorted by (time, id), have the same deltas place by place.
   */
  lemma {:induction false} RebuildEqualsIff(k: Key, batches: seq<seq<Event>>, world: set<Event>, entries: seq<Event>)
    requires Identified(world) && Drawn(batches, world) && DistinctBy(EventId, Filter(InKey(k), entries))
    requires forall e :: e in entries <==> Delivered(e, batches)
    ensures AgreesEverywhere(Run([], k, batches), Rebuilt(entries)(k)) <==>
            SameDeltas(ByTime(entries, k), Incoming(entries, k))
  {
    var v := Incoming(entries, k);
    KeyFacts(entries, k);
    SortBySorts(TimeOf, Filter(InKey(k), entries));
    SortBySorts(EventOrder, Filter(InKey(k), entries));
    ReplayOrderIsTimeOrder(v);
    assert Run([], k, batches) == Accumulate(0.0, v) by { EqualsFullRebuild(k, batches, world, v); }
    SumsAgreeIff(ByTime(entries, k), v);
  }

  /** In particular they agree when the entries list ties in the order of their ids. */
  lemma {:induction false} RebuildEquals(k: Key, batches: seq<seq<Event>>, world: set<Event>, entries: seq<Event>)
    requires Identified(world) && Drawn(batches, world)
    requires forall e :: e in entries <==> Delivered(e, batches)
    requires TiesInOrder(Filter(InKey(k), entries))
    ensures AgreesEverywhere(Run([], k, batches), Rebuilt(entries)(k))
  {
    var mine := Filter(InKey(k), entries);
    FilterContents(InKey(k), entries);
    forall i, j | 0 <= i < j < |mine| ensures EventId(mine[i]) != EventId(mine[j]) {
      InWorld(mine[i], batches, world);
      InWorld(mine[j], batches, world);
    }
    SortKeepsTies(mine);
    SortBySorts(TimeOf, mine);
    KeyFacts(entries, k);
    StrictlySortedUnique(EventOrder, ByTime(entries, k), Incoming(entries, k));
    RebuildEqualsIff(k, batches, world, entries);
  }

  lemma {:induction false} InWorld(e: Event, batches: seq<seq<Event>>, world: set<Event>)
    requires Drawn(batches, world) && Delivered(e, batches)
    ensures e in world
  {
    var b :| b in batches && e in b;
  }

  /** Distinct ids within the key are enough to replay its entries in a strict order. */
  lemma {:induction false} KeyFacts(entries: seq<Event>, k: Key)
    requires DistinctBy(EventId, Filter(InKey(k), entries))
    ensures StrictlySortedBy(EventOrder, Incoming(entries, k))
    ensures forall e :: e in Incoming(entries, k) <==> e in entries && e.key == k
  {
    var mine := Filter(InKey(k), entries);
    FilterContents(InKey(k), entries);
    FilterKeepsAll(InKey(k), mine);
    IncomingFacts(mine, k);
  }

  lemma {:induction false} SortTwo(key: Event -> int, a: Event, b: Event)
    ensures SortBy(key, [a, b]) == if key(a) <= key(b) then [a, b] else [b, a]
  {
    assert [a, b][1..] == [b] && [b][1..] == [];
    assert Insert(key, b, []) == [b] && Insert(key, a, []) == [a];
    assert SortBy(key, [b]) == [b];
    assert SortBy(key, [a, b]) == Insert(key, a, [b]);
    assert Insert(key, a, [b]) == if key(a) <= key(b) then [a] + [b] else [b] + Insert(key, a, [b][1..]);
  }

  /**
   Two entries of one timestamp, listed against the order of their ids: the table and the rebuild
   pass through different balances.
   */
  lemma {:induction false} TiesCanDiffer(k: Key)
    ensures var entries := [Event(k, 7, 2, 5.0), Event(k, 7, 1, 3.0)];
            && Run([], k, [entries])[0].balance == 3.0
            && Rebuilt(entries)(k)[0].balance == 5.0
  {
    var a, b := Event(k, 7, 2, 5.0), Event(k, 7, 1, 3.0);
    var entries := [a, b];
    FilterKeepsAll(InKey(k), entries);
    SortTwo(TimeOf, a, b);
    SortTwo(EventOrder, a, b);
    SortTwo(EventOrder, b, a);
    assert [b, a] + [] == [b, a];
    assert Merged([], [b, a], BatchIds(entries)) == [b, a];
    assert Accumulate(0.0, [b, a])[0].balance == 3.0;
    assert [] + Accumulate(0.0, [b, a]) == Accumulate(0.0, [b, a]);
    assert Run([], k, [entries]) == StepTable(Run([], k, [entries][..0]), k, entries);
    assert [entries][..0] == [];
    assert [a, b][..1] == [a] && Sum(DeltaOf, [a]) == 5.0;
  }
}
