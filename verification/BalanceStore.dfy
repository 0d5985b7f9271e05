/**
 The balance_history table and one materialization over it: ordered queries, per-key recomputation,
 one atomic upsert by id, and the failure counters behind the dataset's completeness status.
 */
module BalanceStore {
  import opened Common
  import opened BalanceHistory
  import opened BalanceRuns

  function RowId(r: Row): int { r.id }

  function RowInKey(k: Key): Row -> bool { (r: Row) => r.key == k }

  /** One key's rows in replay order, whatever order the heap keeps them in. */
  function Table(rows: seq<Row>, k: Key): seq<Row> { SortBy(RowOrder, Filter(RowInKey(k), rows)) }

  lemma {:induction false} TableFacts(rows: seq<Row>, k: Key)
    requires DistinctBy(RowId, rows)
    ensures Ordered(Table(rows, k)) && OfKey(Table(rows, k), k)
    ensures forall r :: r in Table(rows, k) <==> r in rows && r.key == k
  {
    var mine := Filter(RowInKey(k), rows);
    FilterContents(RowInKey(k), rows);
    FilterKeepsDistinct(RowId, RowInKey(k), rows);
    forall i, j | 0 <= i < j < |mine| ensures RowOrder(mine[i]) != RowOrder(mine[j]) {
      OrderIsLexicographic(mine[i].timestamp, mine[i].id, mine[j].timestamp, mine[j].id);
      assert RowId(mine[i]) != RowId(mine[j]);
    }
    SortStrictly(RowOrder, mine);
    SortBySorts(RowOrder, mine);
  }

  /** An ordered sequence with a key's rows is that key's table. */
  lemma {:induction false} TableIs(rows: seq<Row>, k: Key, t: seq<Row>)
    requires DistinctBy(RowId, rows) && Ordered(t)
    requires forall r :: r in t <==> r in rows && r.key == k
    ensures Table(rows, k) == t
  {
    TableFacts(rows, k);
    StrictlySortedUnique(RowOrder, Table(rows, k), t);
  }

  // ---------------------------------------------------------------------------
  // INSERT ... ON CONFLICT (id) DO UPDATE SET balance, delta
  // ---------------------------------------------------------------------------

  function Upsert(rows: seq<Row>, s: Row): seq<Row> {
    if rows == [] then [s]
    else if rows[0].id == s.id then
      [rows[0].(balance := s.balance, delta := if s.delta.Some? then s.delta else rows[0].delta)] + rows[1..]
    else [rows[0]] + Upsert(rows[1..], s)
  }

  function UpsertAll(rows: seq<Row>, snapshots: seq<Row>): seq<Row> {
    if snapshots == [] then rows
    else Upsert(UpsertAll(rows, snapshots[..|snapshots| - 1]), snapshots[|snapshots| - 1])
  }

  /** The conflicting stored row, if any, has the snapshot's key and timestamp. */
  ghost predicate Replaces(rows: seq<Row>, s: Row) {
    s.delta.Some? && forall r | r in rows && r.id == s.id :: r.key == s.key && r.timestamp == s.timestamp
  }

  lemma {:induction false} UpsertContents(rows: seq<Row>, s: Row)
    requires DistinctBy(RowId, rows) && Replaces(rows, s)
    ensures forall r :: r in Upsert(rows, s) <==> r == s || (r in rows && r.id != s.id)
    ensures DistinctBy(RowId, Upsert(rows, s))
  {
    if rows != [] {
      assert rows == [rows[0]] + rows[1..] && rows[0] in rows;
      assert forall i | 1 <= i < |rows| :: RowId(rows[0]) != RowId(rows[i]);
      if rows[0].id == s.id {
        DistinctCons(s, rows[1..]);
      } else {
        UpsertContents(rows[1..], s);
        DistinctCons(rows[0], Upsert(rows[1..], s));
      }
    }
  }

  lemma {:induction false} DistinctCons(r: Row, rows: seq<Row>)
    requires DistinctBy(RowId, rows) && forall q | q in rows :: RowId(q) != RowId(r)
    ensures DistinctBy(RowId, [r] + rows)
  {
  }

  ghost predicate OneRowPerId(snapshots: seq<Row>) {
    forall a, b | a in snapshots && b in snapshots && a.id == b.id :: a == b
  }

  ghost predicate HasId(rows: seq<Row>, id: Uuid) { exists r | r in rows :: r.id == id }

  lemma {:induction false} UpsertAllContents(rows: seq<Row>, snapshots: seq<Row>)
    requires DistinctBy(RowId, rows) && OneRowPerId(snapshots)
    requires forall s | s in snapshots :: Replaces(rows, s)
    ensures DistinctBy(RowId, UpsertAll(rows, snapshots))
    ensures forall r :: r in UpsertAll(rows, snapshots) <==> r in snapshots || (r in rows && !HasId(snapshots, r.id))
  {
    if snapshots != [] {
      var n := |snapshots| - 1;
      var earlier, s := snapshots[..n], snapshots[n];
      assert snapshots == earlier + [s];
      UpsertAllContents(rows, earlier);
      assert s in snapshots;
      UpsertContents(UpsertAll(rows, earlier), s);
      forall r: Row ensures HasId(snapshots, r.id) <==> HasId(earlier, r.id) || r.id == s.id {
        assert forall q | q in earlier :: q in snapshots;
      }
    }
  }

  // ---------------------------------------------------------------------------
  // One materialization
  // ---------------------------------------------------------------------------

  ghost predicate HeapAgrees(rows: seq<Row>, batch: seq<Event>) {
    forall r, e | r in rows && e in batch && r.id == e.id :: r.key == e.key && r.timestamp == e.timestamp
  }

  ghost predicate Ready(rows: seq<Row>, batch: seq<Event>) {
    DistinctBy(RowId, rows) && DistinctBy(EventId, batch) && HeapAgrees(rows, batch)
  }

  /** A key is skipped when one of its queries failed or its suffix cannot be replayed. */
  predicate Skipped(rows: seq<Row>, batch: seq<Event>, faults: set<Key>, k: Key) {
    k in faults || BatchRefused(Table(rows, k), k, batch)
  }

  function KeySnapshots(rows: seq<Row>, batch: seq<Event>, faults: set<Key>, k: Key): seq<Row> {
    if Incoming(batch, k) == [] || Skipped(rows, batch, faults, k) then []
    else Recomputed(Table(rows, k), Incoming(batch, k), BatchIds(batch))
  }

  function Snapshots(rows: seq<Row>, batch: seq<Event>, faults: set<Key>, keys: seq<Key>): seq<Row> {
    if keys == [] then []
    else Snapshots(rows, batch, faults, keys[..|keys| - 1]) + KeySnapshots(rows, batch, faults, keys[|keys| - 1])
  }

  lemma {:induction false} ReadyFits(rows: seq<Row>, batch: seq<Event>, k: Key)
    requires Ready(rows, batch)
    ensures Fits(Table(rows, k), k, batch)
  {
    TableFacts(rows, k);
  }

  lemma {:induction false} KeySnapshotFacts(rows: seq<Row>, batch: seq<Event>, faults: set<Key>, k: Key)
    requires Ready(rows, batch)
    ensures Ordered(KeySnapshots(rows, batch, faults, k))
    ensures forall s | s in KeySnapshots(rows, batch, faults, k) :: s.key == k && s.delta.Some?
  {
    if Incoming(batch, k) != [] && !Skipped(rows, batch, faults, k) {
      ReadyFits(rows, batch, k);
      RecomputedFacts(Table(rows, k), k, batch);
    }
  }

  lemma {:induction false} SnapshotsContents(rows: seq<Row>, batch: seq<Event>, faults: set<Key>, keys: seq<Key>)
    requires Ready(rows, batch)
    ensures forall s :: s in Snapshots(rows, batch, faults, keys) <==>
                        s.key in keys && s in KeySnapshots(rows, batch, faults, s.key)
  {
    if keys != [] {
      var n := |keys| - 1;
      assert keys == keys[..n] + [keys[n]];
      SnapshotsContents(rows, batch, faults, keys[..n]);
      KeySnapshotFacts(rows, batch, faults, keys[n]);
    }
  }

  /** Where a snapshot comes from: a batch event, or a stored row outside the batch. */
  lemma {:induction false} SnapshotOrigin(rows: seq<Row>, batch: seq<Event>, faults: set<Key>, k: Key, s: Row)
    requires Ready(rows, batch) && s in KeySnapshots(rows, batch, faults, k)
    ensures || (exists e | e in batch :: e.key == s.key && e.timestamp == s.timestamp && e.id == s.id)
            || (s.id !in BatchIds(batch) &&
                exists r | r in Table(rows, k)[Cut(Table(rows, k), EventOrder(Incoming(batch, k)[0]))..] ::
                  r.key == s.key && r.timestamp == s.timestamp && r.id == s.id)
  {
    var t := Table(rows, k);
    ReadyFits(rows, batch, k);
    IncomingFacts(batch, k);
    MergedFacts(t, k, batch);
    var m := Merged(t, Incoming(batch, k), BatchIds(batch));
    AccumulateRows(Seed(t, EventOrder(Incoming(batch, k)[0])), m);
    var i :| 0 <= i < |m| && Recomputed(t, Incoming(batch, k), BatchIds(batch))[i] == s;
    assert m[i] in m;
    if m[i] !in Incoming(batch, k) {
      assert Replays(m[i], t[Cut(t, EventOrder(Incoming(batch, k)[0]))..], BatchIds(batch));
    }
  }

  lemma {:induction false} SnapshotFitsHeap(rows: seq<Row>, batch: seq<Event>, faults: set<Key>, k: Key, s: Row, r: Row)
    requires Ready(rows, batch) && s in KeySnapshots(rows, batch, faults, k)
    requires r in rows && r.id == s.id
    ensures r.key == s.key && r.timestamp == s.timestamp
  {
    SnapshotOrigin(rows, batch, faults, k, s);
    TableFacts(rows, k);
    if s.id !in BatchIds(batch) {
      var q :| q in Table(rows, k) && q.key == s.key && q.timestamp == s.timestamp && q.id == s.id;
      SameIdSameRow(rows, q, r);
    }
  }

  lemma {:induction false} SameIdSameRow(rows: seq<Row>, q: Row, r: Row)
    requires DistinctBy(RowId, rows) && q in rows && r in rows && q.id == r.id
    ensures q == r
  {
    var i :| 0 <= i < |rows| && rows[i] == q;
    var j :| 0 <= j < |rows| && rows[j] == r;
    assert RowId(rows[i]) == RowId(rows[j]);
  }

  lemma {:induction false} SnapshotsOnePerId(rows: seq<Row>, batch: seq<Event>, faults: set<Key>, a: Row, b: Row)
    requires Ready(rows, batch)
    requires a in KeySnapshots(rows, batch, faults, a.key) && b in KeySnapshots(rows, batch, faults, b.key)
    requires a.id == b.id
    ensures a == b
  {
    SnapshotOrigin(rows, batch, faults, a.key, a);
    SnapshotOrigin(rows, batch, faults, b.key, b);
    TableFacts(rows, a.key);
    TableFacts(rows, b.key);
    if a.id in BatchIds(batch) {
      var e :| e in batch && e.key == a.key && e.timestamp == a.timestamp && e.id == a.id;
      var f :| f in batch && f.key == b.key && f.timestamp == b.timestamp && f.id == b.id;
      SameIdSameEvent(batch, e, f);
    } else {
      var q :| q in Table(rows, a.key) && q.timestamp == a.timestamp && q.id == a.id;
      var r :| r in Table(rows, b.key) && r.timestamp == b.timestamp && r.id == b.id;
      SameIdSameRow(rows, q, r);
    }
    KeySnapshotFacts(rows, batch, faults, a.key);
    SameOrderSameRow(KeySnapshots(rows, batch, faults, a.key), a, b);
  }

  lemma {:induction false} SameOrderSameRow(t: seq<Row>, a: Row, b: Row)
    requires Ordered(t) && a in t && b in t && RowOrder(a) == RowOrder(b)
    ensures a == b
  {
    var i :| 0 <= i < |t| && t[i] == a;
    var j :| 0 <= j < |t| && t[j] == b;
  }

  lemma {:induction false} SameIdSameEvent(batch: seq<Event>, e: Event, f: Event)
    requires DistinctBy(EventId, batch) && e in batch && f in batch && e.id == f.id
    ensures e == f
  {
    var i :| 0 <= i < |batch| && batch[i] == e;
    var j :| 0 <= j < |batch| && batch[j] == f;
    assert EventId(batch[i]) == EventId(batch[j]);
  }

  /** `keys` lists the batch's (network, asset) keys once each, in the order the hash map yields them. */
  ghost predicate ListsKeys(keys: seq<Key>, batch: seq<Event>) {
    && (forall i, j | 0 <= i < j < |keys| :: keys[i] != keys[j])
    && (forall k :: k in keys <==> exists e | e in batch :: e.key == k)
  }

  lemma {:induction false} UnlistedHasNoIncoming(keys: seq<Key>, batch: seq<Event>, k: Key)
    requires ListsKeys(keys, batch) && DistinctBy(EventId, batch)
    ensures k in keys <==> Incoming(batch, k) != []
  {
    IncomingFacts(batch, k);
    if Incoming(batch, k) != [] { assert Incoming(batch, k)[0] in Incoming(batch, k); }
  }

  lemma {:induction false} UpsertedHeap(rows: seq<Row>, batch: seq<Event>, faults: set<Key>, keys: seq<Key>)
    requires Ready(rows, batch)
    ensures var snaps := Snapshots(rows, batch, faults, keys);
            && DistinctBy(RowId, UpsertAll(rows, snaps))
            && forall r :: r in UpsertAll(rows, snaps) <==> r in snaps || (r in rows && !HasId(snaps, r.id))
  {
    var snaps := Snapshots(rows, batch, faults, keys);
    SnapshotsContents(rows, batch, faults, keys);
    forall a, b | a in snaps && b in snaps && a.id == b.id ensures a == b {
      SnapshotsOnePerId(rows, batch, faults, a, b);
    }
    forall s | s in snaps ensures Replaces(rows, s) {
      KeySnapshotFacts(rows, batch, faults, s.key);
      forall r | r in rows && r.id == s.id ensures r.key == s.key && r.timestamp == s.timestamp {
        SnapshotFitsHeap(rows, batch, faults, s.key, s, r);
      }
    }
    UpsertAllContents(rows, snaps);
  }

  /** A stored row survives the upsert exactly when it lies before its key's first incoming event. */
  lemma {:induction false} SurvivesIff(rows: seq<Row>, batch: seq<Event>, faults: set<Key>, keys: seq<Key>, k: Key,
                                       i: nat)
    requires Ready(rows, batch) && ListsKeys(keys, batch)
    requires k in keys && !Skipped(rows, batch, faults, k)
    requires i < |Table(rows, k)|
    ensures Incoming(batch, k) != []
    ensures HasId(Snapshots(rows, batch, faults, keys), Table(rows, k)[i].id) <==>
            Cut(Table(rows, k), EventOrder(Incoming(batch, k)[0])) <= i
  {
    UnlistedHasNoIncoming(keys, batch, k);
    if HasId(Snapshots(rows, batch, faults, keys), Table(rows, k)[i].id) {
      OnlySuffixIsNamed(rows, batch, faults, keys, k, i);
    }
    if Cut(Table(rows, k), EventOrder(Incoming(batch, k)[0])) <= i {
      SuffixIsNamed(rows, batch, faults, keys, k, i);
    }
  }

  lemma {:induction false} OnlySuffixIsNamed(rows: seq<Row>, batch: seq<Event>, faults: set<Key>, keys: seq<Key>,
                                             k: Key, i: nat)
    requires Ready(rows, batch) && Incoming(batch, k) != [] && !Skipped(rows, batch, faults, k)
    requires i < |Table(rows, k)| && HasId(Snapshots(rows, batch, faults, keys), Table(rows, k)[i].id)
    ensures Cut(Table(rows, k), EventOrder(Incoming(batch, k)[0])) <= i
  {
    var t := Table(rows, k);
    ReadyFits(rows, batch, k);
    TableFacts(rows, k);
    SnapshotsContents(rows, batch, faults, keys);
    assert t[i] in t;
    var s :| s in Snapshots(rows, batch, faults, keys) && s.id == t[i].id;
    SnapshotFitsHeap(rows, batch, faults, s.key, s, t[i]);
    RecomputedFacts(t, k, batch);
    CutSplits(t, EventOrder(Incoming(batch, k)[0]));
  }

  lemma {:induction false} SuffixIsNamed(rows: seq<Row>, batch: seq<Event>, faults: set<Key>, keys: seq<Key>, k: Key,
                                         i: nat)
    requires Ready(rows, batch) && k in keys && Incoming(batch, k) != [] && !Skipped(rows, batch, faults, k)
    requires Cut(Table(rows, k), EventOrder(Incoming(batch, k)[0])) <= i < |Table(rows, k)|
    ensures HasId(Snapshots(rows, batch, faults, keys), Table(rows, k)[i].id)
  {
    SuffixIsRewritten(rows, batch, k, i);
    var s :| s in Recomputed(Table(rows, k), Incoming(batch, k), BatchIds(batch)) && s.id == Table(rows, k)[i].id;
    SnapshotsContents(rows, batch, faults, keys);
    KeySnapshotFacts(rows, batch, faults, k);
    assert s in Snapshots(rows, batch, faults, keys);
  }

  lemma {:induction false} SuffixIsRewritten(rows: seq<Row>, batch: seq<Event>, k: Key, i: nat)
    requires Ready(rows, batch)
    requires Incoming(batch, k) != [] && !BatchRefused(Table(rows, k), k, batch)
    requires Cut(Table(rows, k), EventOrder(Incoming(batch, k)[0])) <= i < |Table(rows, k)|
    ensures exists s | s in Recomputed(Table(rows, k), Incoming(batch, k), BatchIds(batch)) ::
            s.id == Table(rows, k)[i].id
  {
    ReadyFits(rows, batch, k);
    SuffixRowIsRewritten(Table(rows, k), k, batch, i);
  }

  lemma {:induction false} SuffixRowIsRewritten(t: seq<Row>, k: Key, batch: seq<Event>, i: nat)
    requires Fits(t, k, batch) && Incoming(batch, k) != [] && !Refused(t, Incoming(batch, k), BatchIds(batch))
    requires Cut(t, EventOrder(Incoming(batch, k)[0])) <= i < |t|
    ensures exists s | s in Recomputed(t, Incoming(batch, k), BatchIds(batch)) :: s.id == t[i].id
  {
    var s := SuffixShape(t, k, batch, i);
    RecomputedShape(t, k, batch, s);
  }

  /** What a suffix row is rewritten to: the incoming event that replaces it, or itself. */
  lemma {:induction false} SuffixShape(t: seq<Row>, k: Key, batch: seq<Event>, i: nat) returns (s: Row)
    requires Fits(t, k, batch) && Incoming(batch, k) != []
    requires Cut(t, EventOrder(Incoming(batch, k)[0])) <= i < |t|
    ensures s.id == t[i].id
    ensures || ShapeOfEvent(s, Incoming(batch, k))
            || (s in Shapes(t[Cut(t, EventOrder(Incoming(batch, k)[0]))..]) && s.id !in BatchIds(batch))
  {
    if t[i].id in BatchIds(batch) {
      ReplacedRowsAreInSuffix(t, k, batch, i);
      var e :| e in Incoming(batch, k) && e.id == t[i].id;
      s := EventShape(e);
    } else {
      var cut := Cut(t, EventOrder(Incoming(batch, k)[0]));
      assert t[i] == t[cut..][i - cut];
      s := Shape(t[i]);
    }
  }

  lemma {:induction false} SkippedTableIsKept(rows: seq<Row>, batch: seq<Event>, faults: set<Key>, keys: seq<Key>,
                                              k: Key)
    requires Ready(rows, batch)
    requires k !in keys || Skipped(rows, batch, faults, k)
    ensures Table(UpsertAll(rows, Snapshots(rows, batch, faults, keys)), k) == Table(rows, k)
  {
    var snaps := Snapshots(rows, batch, faults, keys);
    UpsertedHeap(rows, batch, faults, keys);
    SnapshotsContents(rows, batch, faults, keys);
    TableFacts(rows, k);
    forall r | r in Table(rows, k) ensures !HasId(snaps, r.id) {
      if HasId(snaps, r.id) {
        var s :| s in snaps && s.id == r.id;
        SnapshotFitsHeap(rows, batch, faults, s.key, s, r);
      }
    }
    TableIs(UpsertAll(rows, snaps), k, Table(rows, k));
  }

  lemma {:induction false} RecomputedTableIsSaved(rows: seq<Row>, batch: seq<Event>, faults: set<Key>, keys: seq<Key>,
                                                  k: Key)
    requires Ready(rows, batch) && ListsKeys(keys, batch)
    requires k in keys && !Skipped(rows, batch, faults, k) && Incoming(batch, k) != []
    ensures Table(UpsertAll(rows, Snapshots(rows, batch, faults, keys)), k) ==
            NextTable(Table(rows, k), Incoming(batch, k), BatchIds(batch))
  {
    var saved := UpsertAll(rows, Snapshots(rows, batch, faults, keys));
    var next := NextTable(Table(rows, k), Incoming(batch, k), BatchIds(batch));
    ReadyFits(rows, batch, k);
    NextTableOrdered(Table(rows, k), k, batch);
    assert DistinctBy(RowId, saved) by { UpsertedHeap(rows, batch, faults, keys); }
    forall r ensures r in next <==> r in saved && r.key == k {
      RecomputedRowIsSaved(rows, batch, faults, keys, k, r);
    }
    TableIs(saved, k, next);
  }

  lemma {:induction false} RecomputedRowIsSaved(rows: seq<Row>, batch: seq<Event>, faults: set<Key>, keys: seq<Key>,
                                                k: Key, r: Row)
    requires Ready(rows, batch) && ListsKeys(keys, batch)
    requires k in keys && !Skipped(rows, batch, faults, k) && Incoming(batch, k) != []
    ensures r in NextTable(Table(rows, k), Incoming(batch, k), BatchIds(batch)) <==>
            r in UpsertAll(rows, Snapshots(rows, batch, faults, keys)) && r.key == k
  {
    UpsertedHeap(rows, batch, faults, keys);
    PrefixSurvives(rows, batch, faults, keys, k, r);
    SnapshotsContents(rows, batch, faults, keys);
    TableFacts(rows, k);
    KeySnapshotFacts(rows, batch, faults, k);
  }

  /** The saved heap holds, for every key, exactly the table that the arithmetic of one step predicts. */
  lemma {:induction false} SavedTable(rows: seq<Row>, batch: seq<Event>, faults: set<Key>, keys: seq<Key>, k: Key)
    requires Ready(rows, batch) && ListsKeys(keys, batch)
    ensures Table(UpsertAll(rows, Snapshots(rows, batch, faults, keys)), k) ==
            if k in faults then Table(rows, k) else StepTable(Table(rows, k), k, batch)
  {
    UnlistedHasNoIncoming(keys, batch, k);
    if k !in keys || Skipped(rows, batch, faults, k) {
      SkippedTableIsKept(rows, batch, faults, keys, k);
    } else {
      RecomputedTableIsSaved(rows, batch, faults, keys, k);
    }
  }

  lemma {:induction false} PrefixSurvives(rows: seq<Row>, batch: seq<Event>, faults: set<Key>, keys: seq<Key>, k: Key,
                                          r: Row)
    requires Ready(rows, batch) && ListsKeys(keys, batch)
    requires k in keys && !Skipped(rows, batch, faults, k) && Incoming(batch, k) != []
    ensures r in Table(rows, k)[..Cut(Table(rows, k), EventOrder(Incoming(batch, k)[0]))] <==>
            r in Table(rows, k) && !HasId(Snapshots(rows, batch, faults, keys), r.id)
  {
    var t := Table(rows, k);
    var cut := Cut(t, EventOrder(Incoming(batch, k)[0]));
    if r in t[..cut] {
      var i :| 0 <= i < cut && t[i] == r;
      SurvivesIff(rows, batch, faults, keys, k, i);
    } else if r in t {
      var i :| 0 <= i < |t| && t[i] == r;
      assert cut <= i;
      SurvivesIff(rows, batch, faults, keys, k, i);
    }
  }
}
