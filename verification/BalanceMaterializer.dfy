/** The materialization loop over the stored table, and what its completeness status promises. */
module BalanceMaterializer {
  import opened Common
  import opened BalanceHistory
  import opened BalanceRuns
  import opened BalanceStore

  // ---------------------------------------------------------------------------
  // Failure counters and status
  // ---------------------------------------------------------------------------

  datatype Status = Complete | Partial

  function Failures(failed: map<string, nat>, network: string): nat {
    if network in failed then failed[network] else 0
  }

  function AddFailures(failed: map<string, nat>, network: string, count: nat): map<string, nat> {
    if count == 0 then failed else failed[network := Failures(failed, network) + count]
  }

  function WalletStatus(failed: map<string, nat>, network: string): Status {
    if Failures(failed, network) == 0 then Complete else Partial
  }

  /** Events of a network whose keys were skipped. */
  function SkippedEvents(rows: seq<Row>, batch: seq<Event>, faults: set<Key>, keys: seq<Key>, network: string): nat {
    if keys == [] then 0
    else
      var k := keys[|keys| - 1];
      SkippedEvents(rows, batch, faults, keys[..|keys| - 1], network) +
      if k.network == network && Skipped(rows, batch, faults, k) then |Incoming(batch, k)| else 0
  }

  ghost predicate CountsSkipped(failed: map<string, nat>, rows: seq<Row>, batch: seq<Event>, faults: set<Key>,
                                keys: seq<Key>) {
    forall network :: Failures(failed, network) == SkippedEvents(rows, batch, faults, keys, network)
  }

  /** One more key in the loop: its events count for its network when it is skipped. */
  lemma {:induction false} SkipCounted(failed: map<string, nat>, rows: seq<Row>, batch: seq<Event>, faults: set<Key>,
                                       keys: seq<Key>, k: Key)
    requires CountsSkipped(failed, rows, batch, faults, keys)
    ensures CountsSkipped(if Skipped(rows, batch, faults, k) then AddFailures(failed, k.network, |Incoming(batch, k)|)
                          else failed,
                          rows, batch, faults, keys + [k])
  {
    var skipped := Skipped(rows, batch, faults, k);
    var next := if skipped then AddFailures(failed, k.network, |Incoming(batch, k)|) else failed;
    forall network ensures Failures(next, network) == SkippedEvents(rows, batch, faults, keys + [k], network) {
      assert (keys + [k])[..|keys|] == keys;
      assert SkippedEvents(rows, batch, faults, keys + [k], network) ==
             SkippedEvents(rows, batch, faults, keys, network)
             + if k.network == network && skipped then |Incoming(batch, k)| else 0;
    }
  }

  function RowsOfNetwork(rows: seq<Row>, network: string): nat {
    if rows == [] then 0
    else RowsOfNetwork(rows[..|rows| - 1], network) + if rows[|rows| - 1].key.network == network then 1 else 0
  }

  lemma {:induction false} SkippedEventsZero(rows: seq<Row>, batch: seq<Event>, faults: set<Key>, keys: seq<Key>,
                                             network: string)
    requires forall k | k in keys :: Incoming(batch, k) != []
    ensures SkippedEvents(rows, batch, faults, keys, network) == 0 <==>
            forall k | k in keys && k.network == network :: !Skipped(rows, batch, faults, k)
  {
    if keys != [] {
      var n := |keys| - 1;
      assert keys == keys[..n] + [keys[n]];
      SkippedEventsZero(rows, batch, faults, keys[..n], network);
      assert keys[n] in keys;
    }
  }

  lemma {:induction false} RowsOfNetworkZero(rows: seq<Row>, network: string)
    ensures RowsOfNetwork(rows, network) == 0 <==> forall r | r in rows :: r.key.network != network
  {
    if rows != [] {
      var n := |rows| - 1;
      assert rows == rows[..n] + [rows[n]];
      RowsOfNetworkZero(rows[..n], network);
      assert rows[n] in rows;
    }
  }

  function FailedRecords(rows: seq<Row>, batch: seq<Event>, faults: set<Key>, saveFails: bool, keys: seq<Key>,
                         network: string): nat {
    SkippedEvents(rows, batch, faults, keys, network) +
    if saveFails then RowsOfNetwork(Snapshots(rows, batch, faults, keys), network) else 0
  }

  /** The key of an accepted event always yields a snapshot for that event. */
  lemma {:induction false} AcceptedEventIsSnapshot(rows: seq<Row>, batch: seq<Event>, faults: set<Key>, e: Event)
    requires Ready(rows, batch) && e in batch && !Skipped(rows, batch, faults, e.key)
    ensures exists r | r in KeySnapshots(rows, batch, faults, e.key) ::
              r.key == e.key && r.id == e.id && r.timestamp == e.timestamp && r.delta == Some(e.delta)
  {
    var t := Table(rows, e.key);
    ReadyFits(rows, batch, e.key);
    IncomingFacts(batch, e.key);
    assert e in Incoming(batch, e.key);
    MergedFacts(t, e.key, batch);
    RecomputedShapes(t, e.key, batch);
    assert EventShape(e) in Shapes(Recomputed(t, Incoming(batch, e.key), BatchIds(batch)));
  }

  /** The counters of a materialization, network by network. */
  ghost predicate Counts(failed: map<string, nat>, rows: seq<Row>, batch: seq<Event>, faults: set<Key>, saveFails: bool,
                         keys: seq<Key>) {
    forall network :: Failures(failed, network) == FailedRecords(rows, batch, faults, saveFails, keys, network)
  }

  /**
   A network is Partial exactly when one of its own keys was skipped, or the shared save failed with
   its rows in it.
   */
  lemma {:induction false} PartialIff(rows: seq<Row>, batch: seq<Event>, faults: set<Key>, saveFails: bool,
                                      keys: seq<Key>, failed: map<string, nat>, network: string)
    requires Ready(rows, batch) && ListsKeys(keys, batch) && Counts(failed, rows, batch, faults, saveFails, keys)
    ensures WalletStatus(failed, network) == Partial <==>
            exists e | e in batch :: e.key.network == network && (saveFails || Skipped(rows, batch, faults, e.key))
  {
    FailedIff(rows, batch, faults, saveFails, keys, network);
  }

  lemma {:induction false} FailedIff(rows: seq<Row>, batch: seq<Event>, faults: set<Key>, saveFails: bool,
                                     keys: seq<Key>, network: string)
    requires Ready(rows, batch) && ListsKeys(keys, batch)
    ensures FailedRecords(rows, batch, faults, saveFails, keys, network) > 0 <==>
            exists e | e in batch :: e.key.network == network && (saveFails || Skipped(rows, batch, faults, e.key))
  {
    forall k | k in keys ensures Incoming(batch, k) != [] { UnlistedHasNoIncoming(keys, batch, k); }
    SkippedEventsZero(rows, batch, faults, keys, network);
    var snaps := Snapshots(rows, batch, faults, keys);
    RowsOfNetworkZero(snaps, network);
    SnapshotsContents(rows, batch, faults, keys);
    if e :| e in batch && e.key.network == network && (saveFails || Skipped(rows, batch, faults, e.key)) {
      assert e.key in keys;
      if !Skipped(rows, batch, faults, e.key) {
        AcceptedEventIsSnapshot(rows, batch, faults, e);
        var r :| r in KeySnapshots(rows, batch, faults, e.key) && r.key == e.key;
        assert r in snaps;
      }
    }
    if FailedRecords(rows, batch, faults, saveFails, keys, network) > 0 {
      if k :| k in keys && k.network == network && Skipped(rows, batch, faults, k) {
        var e :| e in batch && e.key == k;
      } else {
        var r :| r in snaps && r.key.network == network;
        var e :| e in batch && e.key == r.key;
      }
    }
  }

  /**
   Honest completeness: if a network reports Complete, the batch was saved and every one of its
   events of that network is stored, with its delta, in the recomputed table of its key.
   */
  lemma {:induction false} CompleteMeansStored(rows: seq<Row>, batch: seq<Event>, faults: set<Key>, saveFails: bool,
                                               keys: seq<Key>, failed: map<string, nat>, e: Event)
    requires Ready(rows, batch) && ListsKeys(keys, batch) && Counts(failed, rows, batch, faults, saveFails, keys)
    requires e in batch && WalletStatus(failed, e.key.network) == Complete
    ensures !saveFails && e.key !in faults && !BatchRefused(Table(rows, e.key), e.key, batch)
    ensures exists r | r in StepTable(Table(rows, e.key), e.key, batch) ::
              r.id == e.id && r.timestamp == e.timestamp && r.delta == Some(e.delta)
  {
    PartialIff(rows, batch, faults, saveFails, keys, failed, e.key.network);
    AcceptedEventIsSnapshot(rows, batch, faults, e);
    IncomingFacts(batch, e.key);
    assert e in Incoming(batch, e.key);
  }

  // ---------------------------------------------------------------------------
  // Loop lemmas
  // ---------------------------------------------------------------------------

  lemma {:induction false} CarriedSnoc(s: seq<Row>, r: Row, ids: set<Uuid>)
    requires forall q | q in s + [r] && q.id !in ids :: q.delta.Some?
    ensures r.id !in ids ==> r.delta.Some?
    ensures forall q | q in s && q.id !in ids :: q.delta.Some?
    ensures Carried(s + [r], ids) == Carried(s, ids) + if r.id in ids then [] else [AsEvent(r)]
  {
    assert r in s + [r];
    assert forall q | q in s :: q in s + [r];
    if s == [] {
      assert s + [r] == [r];
    } else {
      assert (s + [r])[0] == s[0] && (s + [r])[1..] == s[1..] + [r];
      assert forall q | q in s[1..] + [r] :: q in s + [r];
      CarriedSnoc(s[1..], r, ids);
      Associate(if s[0].id in ids then [] else [AsEvent(s[0])], Carried(s[1..], ids),
                if r.id in ids then [] else [AsEvent(r)]);
    }
  }

  lemma {:induction false} LatestIs(rows: seq<Row>, k: Key, order: int, latest: Option<Row>)
    requires DistinctBy(RowId, rows)
    requires latest.Some? ==> latest.value in rows && latest.value.key == k && RowOrder(latest.value) < order
    requires forall r | r in rows && r.key == k && RowOrder(r) < order ::
             latest.Some? && RowOrder(r) <= RowOrder(latest.value)
    ensures Seed(Table(rows, k), order) == if latest.Some? then latest.value.balance else 0.0
  {
    var t := Table(rows, k);
    var cut := Cut(t, order);
    TableFacts(rows, k);
    CutSplits(t, order);
    assert 0 < cut ==> t[cut - 1] in t && RowOrder(t[cut - 1]) < order;
    if latest.Some? { LastBeforeCut(t, order, latest.value); }
  }

  lemma {:induction false} LastBeforeCut(t: seq<Row>, order: int, r: Row)
    requires Ordered(t) && r in t && RowOrder(r) < order
    requires forall q | q in t && RowOrder(q) < order :: RowOrder(q) <= RowOrder(r)
    ensures 0 < Cut(t, order) && t[Cut(t, order) - 1] == r
  {
    CutSplits(t, order);
    var i :| 0 <= i < |t| && t[i] == r;
    var last := Cut(t, order) - 1;
    assert t[last] in t;
    SameOrderSameRow(t, t[last], r);
  }

  lemma {:induction false} InSuffix(t: seq<Row>, order: int, r: Row)
    requires Ordered(t)
    ensures r in t[Cut(t, order)..] <==> r in t && order <= RowOrder(r)
  {
    var cut := Cut(t, order);
    CutSplits(t, order);
    if r in t {
      var i :| 0 <= i < |t| && t[i] == r;
      if cut <= i { assert t[cut..][i - cut] == r; }
    }
  }

  lemma {:induction false} SuffixIs(rows: seq<Row>, k: Key, order: int, suffix: seq<Row>)
    requires DistinctBy(RowId, rows)
    requires forall r :: r in suffix <==> r in rows && r.key == k && order <= RowOrder(r)
    requires StrictlySortedBy(RowOrder, suffix)
    ensures suffix == Table(rows, k)[Cut(Table(rows, k), order)..]
  {
    var t := Table(rows, k);
    TableFacts(rows, k);
    forall r ensures r in suffix <==> r in t[Cut(t, order)..] {
      InSuffix(t, order, r);
    }
    StrictlySortedUnique(RowOrder, suffix, t[Cut(t, order)..]);
  }

  /** The suffix rows to replay, from their stored deltas. */
  method CarriedEvents(suffix: seq<Row>, ids: set<Uuid>) returns (carried: seq<Event>)
    requires forall r | r in suffix && r.id !in ids :: r.delta.Some?
    ensures carried == Carried(suffix, ids)
  {
    carried := [];
    for i := 0 to |suffix|
      invariant forall r | r in suffix[..i] && r.id !in ids :: r.delta.Some?
      invariant carried == Carried(suffix[..i], ids)
    {
      assert suffix[..i + 1] == suffix[..i] + [suffix[i]];
      CarriedSnoc(suffix[..i], suffix[i], ids);
      if suffix[i].id !in ids { carried := carried + [AsEvent(suffix[i])]; }
    }
    assert suffix[..|suffix|] == suffix;
  }

  method RunningSum(seed: real, events: seq<Event>) returns (rebuilt: seq<Row>)
    ensures rebuilt == Accumulate(seed, events)
  {
    var balance := seed;
    rebuilt := [];
    for i := 0 to |events|
      invariant rebuilt == Accumulate(seed, events[..i])
      invariant |rebuilt| == i && balance == BalanceBefore(rebuilt, seed, i)
    {
      var e := events[i];
      assert events[..i + 1] == events[..i] + [e];
      AccumulateSnoc(seed, events[..i], e);
      balance := balance + e.delta;
      rebuilt := rebuilt + [Row(e.key, e.timestamp, e.id, balance, Some(e.delta))];
    }
    assert events[..|events|] == events;
  }

  class BalanceHistoryTable {
    /** The stored rows, in no particular order; `id` is the primary key. */
    var rows: seq<Row>

    constructor ()
      ensures rows == []
    {
      rows := [];
    }

    /** get_latest_balance_snapshot_before_order: the seed balance, zero without an earlier row. */
    method SeedBefore(k: Key, order: int) returns (seed: real)
      requires DistinctBy(RowId, rows)
      ensures seed == Seed(Table(rows, k), order)
    {
      var latest: Option<Row> := None;
      for i := 0 to |rows|
        invariant latest.Some? ==> latest.value in rows && latest.value.key == k && RowOrder(latest.value) < order
        invariant forall j | 0 <= j < i && rows[j].key == k && RowOrder(rows[j]) < order ::
                    latest.Some? && RowOrder(rows[j]) <= RowOrder(latest.value)
      {
        var r := rows[i];
        if r.key == k && RowOrder(r) < order && (latest.None? || RowOrder(latest.value) < RowOrder(r)) {
          latest := Some(r);
        }
      }
      LatestIs(rows, k, order, latest);
      seed := if latest.Some? then latest.value.balance else 0.0;
    }

    /** get_balance_snapshots_at_or_after_order: the suffix, in replay order. */
    method AtOrAfter(k: Key, order: int) returns (suffix: seq<Row>)
      requires DistinctBy(RowId, rows)
      ensures suffix == Table(rows, k)[Cut(Table(rows, k), order)..]
    {
      var found: seq<Row> := [];
      for i := 0 to |rows|
        invariant forall r :: r in found <==> r in rows[..i] && r.key == k && order <= RowOrder(r)
        invariant DistinctBy(RowOrder, found)
      {
        assert rows[..i + 1] == rows[..i] + [rows[i]];
        if rows[i].key == k && order <= RowOrder(rows[i]) {
          forall r | r in found ensures RowOrder(r) != RowOrder(rows[i]) {
            var j :| 0 <= j < i && rows[j] == r;
            assert RowId(rows[j]) != RowId(rows[i]);
            OrderIsLexicographic(r.timestamp, r.id, rows[i].timestamp, rows[i].id);
          }
          found := found + [rows[i]];
        }
      }
      assert rows[..|rows|] == rows;
      SortStrictly(RowOrder, found);
      SortBySorts(RowOrder, found);
      suffix := SortBy(RowOrder, found);
      SuffixIs(rows, k, order, suffix);
    }

    /** One key: seed, suffix, refusal, merge and running sum. None when the key must be skipped. */
    method Recompute(k: Key, incoming: seq<Event>, ids: set<Uuid>, fault: bool) returns (snapshots: Option<seq<Row>>)
      requires DistinctBy(RowId, rows) && incoming != []
      ensures snapshots == if fault || Refused(Table(rows, k), incoming, ids) then None
                           else Some(Recomputed(Table(rows, k), incoming, ids))
    {
      if fault { return None; }
      var seed := SeedBefore(k, EventOrder(incoming[0]));
      var suffix := AtOrAfter(k, EventOrder(incoming[0]));
      if exists r | r in suffix :: r.id !in ids && r.delta.None? { return None; }
      var carried := CarriedEvents(suffix, ids);
      var rebuilt := RunningSum(seed, SortBy(EventOrder, incoming + carried));
      snapshots := Some(rebuilt);
    }

    /** save_balance_snapshots_with_deltas: one transaction, all rows or none. */
    method Save(snapshots: seq<Row>, fails: bool)
      modifies this
      ensures rows == if fails then old(rows) else UpsertAll(old(rows), snapshots)
    {
      var saved := rows;
      for i := 0 to |snapshots|
        invariant saved == UpsertAll(rows, snapshots[..i]) && rows == old(rows)
      {
        saved := Upsert(saved, snapshots[i]);
        assert snapshots[..i + 1][..i] == snapshots[..i];
      }
      assert snapshots[..|snapshots|] == snapshots;
      if !fails { rows := saved; }
    }

    /** Everything before the save: the snapshots to write, and the failures counted for skipped keys. */
    method Plan(batch: seq<Event>, keys: seq<Key>, faults: set<Key>)
        returns (snapshots: seq<Row>, failed: map<string, nat>)
      requires Ready(rows, batch) && ListsKeys(keys, batch)
      ensures snapshots == Snapshots(rows, batch, faults, keys)
      ensures CountsSkipped(failed, rows, batch, faults, keys)
    {
      snapshots, failed := [], map[];
      for i := 0 to |keys|
        invariant snapshots == Snapshots(rows, batch, faults, keys[..i])
        invariant CountsSkipped(failed, rows, batch, faults, keys[..i])
      {
        var k := keys[i];
        assert keys[..i + 1] == keys[..i] + [k] && keys[..i + 1][..i] == keys[..i];
        UnlistedHasNoIncoming(keys, batch, k);
        SkipCounted(failed, rows, batch, faults, keys[..i], k);
        var incoming := Incoming(batch, k);
        var rebuilt := Recompute(k, incoming, BatchIds(batch), k in faults);
        if rebuilt.None? {
          failed := AddFailures(failed, k.network, |incoming|);
        } else {
          snapshots := snapshots + rebuilt.value;
        }
      }
      assert keys[..|keys|] == keys;
    }

    /**
     The balance_history part of `materialize_gold_from_silver`. `keys` is the hash map's iteration
     order, `faults` the keys whose queries fail, `saveFails` whether the final transaction fails.
     */
    method Materialize(batch: seq<Event>, keys: seq<Key>, faults: set<Key>, saveFails: bool)
        returns (failed: map<string, nat>)
      requires Ready(rows, batch) && ListsKeys(keys, batch)
      modifies this
      ensures DistinctBy(RowId, rows)
      ensures forall k :: Table(rows, k) ==
                if saveFails || k in faults then old(Table(rows, k)) else StepTable(old(Table(rows, k)), k, batch)
      ensures Counts(failed, old(rows), batch, faults, saveFails, keys)
    {
      var snapshots;
      snapshots, failed := Plan(batch, keys, faults);
      UpsertedHeap(rows, batch, faults, keys);
      forall k ensures Table(UpsertAll(rows, snapshots), k) ==
                       if k in faults then Table(rows, k) else StepTable(Table(rows, k), k, batch)
      {
        SavedTable(rows, batch, faults, keys, k);
      }
      Save(snapshots, saveFails);
      if saveFails {
        failed := CountUnsaved(failed, snapshots);
      }
    }
  }

  method CountUnsaved(skipped: map<string, nat>, snapshots: seq<Row>) returns (failed: map<string, nat>)
    ensures forall n :: Failures(failed, n) == Failures(skipped, n) + RowsOfNetwork(snapshots, n)
  {
    failed := skipped;
    for i := 0 to |snapshots|
      invariant forall n :: Failures(failed, n) == Failures(skipped, n) + RowsOfNetwork(snapshots[..i], n)
    {
      assert snapshots[..i + 1][..i] == snapshots[..i];
      failed := AddFailures(failed, snapshots[i].key.network, 1);
    }
    assert snapshots[..|snapshots|] == snapshots;
  }
}
