/**
 The two Gold datasets over whole runs: materializations write the ledger rows of their inputs and merge
 their balance events, in any batching, with replays and with raw rows that change between deliveries.
 */
module GoldRuns {
  import opened Common
  import opened GoldLedger
  import HlLedger
  import opened LedgerTable
  import opened BalanceHistory
  import opened BalanceRuns
  import opened BalanceStore

  // ---------------------------------------------------------------------------
  // Balance events with their ids
  // ---------------------------------------------------------------------------

  /**
   What a snapshot id is hashed from besides the wallet: the asset, and the source with the timestamp,
   the transaction hash and the id of its raw row. The network is not part of it.
   */
  datatype SnapshotKey = SnapshotKey(asset: string, source: Source)

  type Hash = SnapshotKey -> Uuid

  function Nameless(o: Origin): Origin { o.(network := "") }

  function KeyOf(e: BalanceEvent): SnapshotKey {
    SnapshotKey(e.key.asset,
                match e.source
                case FromTransfer(o, token, from, to, index) => FromTransfer(Nameless(o), token, from, to, index)
                case FromDelta(o, account, token) => FromDelta(Nameless(o), account, token)
                case FromFlow(o) => FromFlow(Nameless(o)))
  }

  function ToEvent(hash: Hash): BalanceEvent -> Event {
    (e: BalanceEvent) => Event(e.key, e.source.origin.timestamp, hash(KeyOf(e)), e.delta)
  }

  function ToEvents(hash: Hash, es: seq<BalanceEvent>): seq<Event> {
    seq(|es|, i requires 0 <= i < |es| => ToEvent(hash)(es[i]))
  }

  function BatchEvents(c: Context, hash: Hash, raws: seq<Raw>): seq<Event> { ToEvents(hash, EventsOf(c, raws)) }

  // ---------------------------------------------------------------------------
  // When the events of a batch have distinct keys
  // ---------------------------------------------------------------------------

  predicate MovesTransfer(c: Context, t: TokenTransfer) { 0 <= t.decimals && (c.Mine(t.from) || c.Mine(t.to)) }

  predicate SameTransfer(t: TokenTransfer, u: TokenTransfer) {
    && t.tokenAddress == u.tokenAddress && AssetOf(t) == AssetOf(u)
    && t.from == u.from && t.to == u.to && t.index == u.index
  }

  ghost predicate TransferKeysApart(c: Context, ts: seq<TokenTransfer>) {
    forall i, j | 0 <= i < j < |ts| && MovesTransfer(c, ts[i]) && MovesTransfer(c, ts[j]) :: !SameTransfer(ts[i], ts[j])
  }

  ghost predicate DeltaKeysApart(c: Context, ds: seq<NativeDelta>) {
    forall i, j | 0 <= i < j < |ds| && c.Mine(ds[i].account) && c.Mine(ds[j].account) ::
      ds[i].account != ds[j].account || ds[i].token != ds[j].token
  }

  /** No two of a raw row's balance events are hashed from the same. */
  ghost predicate EventKeysApart(c: Context, raw: Raw) {
    TransferKeysApart(c, TransfersOf(c)(raw)) && DeltaKeysApart(c, DeltasOf(c)(raw))
  }

  lemma {:induction false} TransferKeysIff(c: Context, ts: seq<TokenTransfer>, origin: Origin)
    requires forall t | t in ts :: t.origin == origin
    ensures Unique(KeyOf, FlatMap(TransferEvents(c), ts)) <==> TransferKeysApart(c, ts)
  {
    UniqueFlatMap(KeyOf, TransferEvents(c), ts);
    forall i, j | 0 <= i < j < |ts|
      ensures KeysApart(KeyOf, TransferEvents(c)(ts[i]), TransferEvents(c)(ts[j])) <==>
              (MovesTransfer(c, ts[i]) && MovesTransfer(c, ts[j]) ==> !SameTransfer(ts[i], ts[j]))
    {
      assert ts[i] in ts && ts[j] in ts;
      TransferKeyPair(c, ts[i], ts[j]);
    }
  }

  lemma {:induction false} TransferKeyPair(c: Context, t: TokenTransfer, u: TokenTransfer)
    requires t.origin == u.origin
    ensures KeysApart(KeyOf, TransferEvents(c)(t), TransferEvents(c)(u)) <==>
            (MovesTransfer(c, t) && MovesTransfer(c, u) ==> !SameTransfer(t, u))
  {
    var a, b := TransferEvents(c)(t), TransferEvents(c)(u);
    if MovesTransfer(c, t) && MovesTransfer(c, u) {
      assert a == [a[0]] && b == [b[0]];
      assert KeysApart(KeyOf, a, b) <==> KeyOf(a[0]) != KeyOf(b[0]);
    }
  }

  lemma {:induction false} DeltaKeysIff(c: Context, ds: seq<NativeDelta>, origin: Origin)
    requires forall d | d in ds :: d.origin == origin
    ensures Unique(KeyOf, FlatMap(DeltaEvents(c), ds)) <==> DeltaKeysApart(c, ds)
  {
    UniqueFlatMap(KeyOf, DeltaEvents(c), ds);
    forall i, j | 0 <= i < j < |ds|
      ensures KeysApart(KeyOf, DeltaEvents(c)(ds[i]), DeltaEvents(c)(ds[j])) <==>
              (c.Mine(ds[i].account) && c.Mine(ds[j].account) ==>
                 ds[i].account != ds[j].account || ds[i].token != ds[j].token)
    {
      assert ds[i] in ds && ds[j] in ds;
      DeltaKeyPair(c, ds[i], ds[j]);
    }
  }

  lemma {:induction false} DeltaKeyPair(c: Context, d: NativeDelta, e: NativeDelta)
    requires d.origin == e.origin
    ensures KeysApart(KeyOf, DeltaEvents(c)(d), DeltaEvents(c)(e)) <==>
            (c.Mine(d.account) && c.Mine(e.account) ==> d.account != e.account || d.token != e.token)
  {
    var a, b := DeltaEvents(c)(d), DeltaEvents(c)(e);
    if c.Mine(d.account) && c.Mine(e.account) {
      assert a == [a[0]] && b == [b[0]];
      assert KeysApart(KeyOf, a, b) <==> KeyOf(a[0]) != KeyOf(b[0]);
    }
  }

  function TransferPart(c: Context): Raw -> seq<BalanceEvent> {
    (raw: Raw) => FlatMap(TransferEvents(c), TransfersOf(c)(raw))
  }

  function DeltaPart(c: Context): Raw -> seq<BalanceEvent> { (raw: Raw) => FlatMap(DeltaEvents(c), DeltasOf(c)(raw)) }

  function EventParts(c: Context, raws: seq<Raw>): seq<BalanceEvent> {
    FlatMap(TransferPart(c), raws) + FlatMap(DeltaPart(c), raws) + FlatMap(FlowEvents(c), raws)
  }

  lemma {:induction false} EventsByRaw(c: Context, raws: seq<Raw>)
    ensures EventsOf(c, raws) == EventParts(c, raws)
  {
    Nested(TransferEvents(c), TransfersOf(c), TransferPart(c), raws);
    Nested(DeltaEvents(c), DeltasOf(c), DeltaPart(c), raws);
  }

  function Sort(s: Source): nat {
    match s case FromTransfer(_, _, _, _, _) => 0 case FromDelta(_, _, _) => 1 case FromFlow(_) => 2
  }

  /** The events of one kind come from the raw row, and are filed under its network. */
  ghost predicate Sourced(es: seq<BalanceEvent>, origin: Origin, sort: nat) {
    forall e | e in es :: e.source.origin == origin && Sort(e.source) == sort && e.key.network == origin.network
  }

  lemma {:induction false} SourcedAll<T>(f: T -> seq<BalanceEvent>, s: seq<T>, origin: Origin, sort: nat)
    requires forall x | x in s :: Sourced(f(x), origin, sort)
    ensures Sourced(FlatMap(f, s), origin, sort)
  {
    if s != [] { SourcedAll(f, s[1..], origin, sort); }
  }

  lemma {:induction false} PartsSourced(c: Context, raw: Raw)
    ensures Sourced(TransferPart(c)(raw), raw.origin, 0)
    ensures Sourced(DeltaPart(c)(raw), raw.origin, 1)
    ensures Sourced(FlowEvents(c)(raw), raw.origin, 2)
  {
    SilverOrigins(c, raw);
    SourcedAll(TransferEvents(c), TransfersOf(c)(raw), raw.origin, 0);
    SourcedAll(DeltaEvents(c), DeltasOf(c)(raw), raw.origin, 1);
  }

  ghost predicate AllSourced(part: Raw -> seq<BalanceEvent>, raws: seq<Raw>, sort: nat) {
    forall raw | raw in raws :: Sourced(part(raw), raw.origin, sort)
  }

  lemma {:induction false} PartKeysIff(part: Raw -> seq<BalanceEvent>, raws: seq<Raw>, sort: nat)
    requires DistinctBy(RawId, raws) && AllSourced(part, raws, sort)
    ensures Unique(KeyOf, FlatMap(part, raws)) <==> forall raw | raw in raws :: Unique(KeyOf, part(raw))
    ensures forall e | e in FlatMap(part, raws) :: Sort(KeyOf(e).source) == sort
  {
    UniqueFlatMap(KeyOf, part, raws);
    forall i, j | 0 <= i < j < |raws| ensures KeysApart(KeyOf, part(raws[i]), part(raws[j])) {
      assert raws[i] in raws && raws[j] in raws && RawId(raws[i]) != RawId(raws[j]);
      RawsApart(part(raws[i]), part(raws[j]), raws[i].origin, raws[j].origin, sort);
    }
    PartSorts(part, raws, sort);
  }

  lemma {:induction false} RawsApart(a: seq<BalanceEvent>, b: seq<BalanceEvent>, o: Origin, q: Origin, sort: nat)
    requires Sourced(a, o, sort) && Sourced(b, q, sort) && o.raw != q.raw
    ensures KeysApart(KeyOf, a, b)
  {
    forall x, y | x in a && y in b ensures KeyOf(x) != KeyOf(y) {
      assert KeyOf(x).source.origin.raw != KeyOf(y).source.origin.raw;
    }
  }

  lemma {:induction false} PartSorts(part: Raw -> seq<BalanceEvent>, raws: seq<Raw>, sort: nat)
    requires AllSourced(part, raws, sort)
    ensures forall e | e in FlatMap(part, raws) :: Sort(KeyOf(e).source) == sort
  {
    forall e | e in FlatMap(part, raws) ensures Sort(KeyOf(e).source) == sort {
      InFlatMap(part, raws, e);
      var raw :| raw in raws && e in part(raw);
      assert Sourced(part(raw), raw.origin, sort);
    }
  }

  lemma {:induction false} AllPartsSourced(c: Context, raws: seq<Raw>)
    ensures AllSourced(TransferPart(c), raws, 0) && AllSourced(DeltaPart(c), raws, 1) &&
            AllSourced(FlowEvents(c), raws, 2)
  {
    forall raw | raw in raws
      ensures Sourced(TransferPart(c)(raw), raw.origin, 0) && Sourced(DeltaPart(c)(raw), raw.origin, 1)
      ensures Sourced(FlowEvents(c)(raw), raw.origin, 2)
    {
      PartsSourced(c, raw);
    }
  }

  lemma {:induction false} SortsApart(a: seq<BalanceEvent>, b: seq<BalanceEvent>, d: seq<BalanceEvent>)
    requires forall e | e in a :: Sort(KeyOf(e).source) == 0
    requires forall e | e in b :: Sort(KeyOf(e).source) == 1
    requires forall e | e in d :: Sort(KeyOf(e).source) == 2
    ensures Unique(KeyOf, a + b + d) <==> Unique(KeyOf, a) && Unique(KeyOf, b) && Unique(KeyOf, d)
  {
    UniqueConcat(KeyOf, a, b);
    UniqueConcat(KeyOf, a + b, d);
    forall x, y | x in a && y in b ensures KeyOf(x) != KeyOf(y) {
      assert Sort(KeyOf(x).source) != Sort(KeyOf(y).source);
    }
    forall x, y | x in a + b && y in d ensures KeyOf(x) != KeyOf(y) {
      assert Sort(KeyOf(x).source) != Sort(KeyOf(y).source);
    }
  }

  /** The events of a batch are hashed from different keys if and only if those of each of its raw rows are. */
  lemma {:induction false} EventKeysIff(c: Context, raws: seq<Raw>)
    requires DistinctBy(RawId, raws)
    ensures Unique(KeyOf, EventsOf(c, raws)) <==> forall raw | raw in raws :: EventKeysApart(c, raw)
  {
    EventsByRaw(c, raws);
    AllPartsSourced(c, raws);
    PartKeysIff(TransferPart(c), raws, 0);
    PartKeysIff(DeltaPart(c), raws, 1);
    PartKeysIff(FlowEvents(c), raws, 2);
    SortsApart(FlatMap(TransferPart(c), raws), FlatMap(DeltaPart(c), raws), FlatMap(FlowEvents(c), raws));
    forall raw | raw in raws
      ensures Unique(KeyOf, TransferPart(c)(raw)) && Unique(KeyOf, DeltaPart(c)(raw)) <==> EventKeysApart(c, raw)
    {
      SilverOrigins(c, raw);
      TransferKeysIff(c, TransfersOf(c)(raw), raw.origin);
      DeltaKeysIff(c, DeltasOf(c)(raw), raw.origin);
    }
  }

  // ---------------------------------------------------------------------------
  // The world of deliveries
  // ---------------------------------------------------------------------------

  ghost predicate EventIn(c: Context, world: set<Raw>, e: BalanceEvent) {
    exists raw | raw in world :: e in EventsOf(c, [raw])
  }

  /** The hash tells apart what the events of the world are hashed from. */
  ghost predicate CollisionFree(c: Context, hash: Hash, world: set<Raw>) {
    forall x, y | EventIn(c, world, x) && EventIn(c, world, y) && hash(KeyOf(x)) == hash(KeyOf(y)) ::
      KeyOf(x) == KeyOf(y)
  }

  /** A raw row may change between deliveries, but not move to another network. */
  ghost predicate OneNetworkPerId(world: set<Raw>) {
    forall a, b | a in world && b in world && RawId(a) == RawId(b) :: a.origin.network == b.origin.network
  }

  /** All versions of all raw rows that may ever be materialized. */
  ghost predicate ValidWorld(c: Context, hash: Hash, world: set<Raw>) {
    OneNetworkPerId(world) && CollisionFree(c, hash, world) && forall raw | raw in world :: EventKeysApart(c, raw)
  }

  ghost predicate BatchFrom(world: set<Raw>, batch: seq<Raw>) {
    DistinctBy(RawId, batch) && forall raw | raw in batch :: raw in world
  }

  ghost predicate BatchesFrom(world: set<Raw>, batches: seq<seq<Raw>>) {
    forall b | b in batches :: BatchFrom(world, b)
  }

  lemma {:induction false} EventsOfRaw(c: Context, raw: Raw)
    ensures EventsOf(c, [raw]) == TransferPart(c)(raw) + DeltaPart(c)(raw) + FlowEvents(c)(raw)
  {
    EventsByRaw(c, [raw]);
    FlatMapOne(TransferPart(c), raw);
    FlatMapOne(DeltaPart(c), raw);
    FlatMapOne(FlowEvents(c), raw);
  }

  lemma {:induction false} EventsNameRaw(c: Context, raw: Raw, e: BalanceEvent)
    requires e in EventsOf(c, [raw])
    ensures e.source.origin == raw.origin && e.key.network == raw.origin.network
  {
    EventsOfRaw(c, raw);
    PartsSourced(c, raw);
  }

  lemma {:induction false} EventsOfRaws(c: Context, raws: seq<Raw>, e: BalanceEvent)
    ensures e in EventsOf(c, raws) <==> exists raw | raw in raws :: e in EventsOf(c, [raw])
  {
    EventsByRaw(c, raws);
    InFlatMap(TransferPart(c), raws, e);
    InFlatMap(DeltaPart(c), raws, e);
    InFlatMap(FlowEvents(c), raws, e);
    forall raw | raw in raws
      ensures e in EventsOf(c, [raw]) <==>
              e in TransferPart(c)(raw) || e in DeltaPart(c)(raw) || e in FlowEvents(c)(raw)
    {
      EventsOfRaw(c, raw);
    }
  }

  ghost function EventWorld(c: Context, hash: Hash, world: set<Raw>): set<Event> {
    set raw, e | raw in world && e in EventsOf(c, [raw]) :: ToEvent(hash)(e)
  }

  /** Events of one key come from versions of one raw row, and so share network, asset and timestamp. */
  lemma {:induction false} SameKeySamePlace(c: Context, hash: Hash, world: set<Raw>, a: Raw, b: Raw, x: BalanceEvent,
                                            y: BalanceEvent)
    requires ValidWorld(c, hash, world) && a in world && b in world
    requires x in EventsOf(c, [a]) && y in EventsOf(c, [b]) && hash(KeyOf(x)) == hash(KeyOf(y))
    ensures RawId(a) == RawId(b) && x.key == y.key && x.source.origin.timestamp == y.source.origin.timestamp
  {
    assert EventIn(c, world, x) && EventIn(c, world, y);
    assert KeyOf(x) == KeyOf(y);
    EventsNameRaw(c, a, x);
    EventsNameRaw(c, b, y);
    assert Nameless(a.origin) == KeyOf(x).source.origin && Nameless(b.origin) == KeyOf(y).source.origin;
    assert RawId(a) == RawId(b);
  }

  lemma {:induction false} WorldIsConsistent(c: Context, hash: Hash, world: set<Raw>)
    requires ValidWorld(c, hash, world)
    ensures Consistent(EventWorld(c, hash, world))
  {
    forall e, f | e in EventWorld(c, hash, world) && f in EventWorld(c, hash, world) && e.id == f.id
      ensures e.key == f.key && e.timestamp == f.timestamp
    {
      var a, x :| a in world && x in EventsOf(c, [a]) && ToEvent(hash)(x) == e;
      var b, y :| b in world && y in EventsOf(c, [b]) && ToEvent(hash)(y) == f;
      SameKeySamePlace(c, hash, world, a, b, x, y);
    }
  }

  lemma {:induction false} InBatchEvents(c: Context, hash: Hash, raws: seq<Raw>, e: Event)
    ensures e in BatchEvents(c, hash, raws) <==>
            exists raw, x | raw in raws && x in EventsOf(c, [raw]) :: ToEvent(hash)(x) == e
  {
    var es := EventsOf(c, raws);
    if raw, x :| raw in raws && x in EventsOf(c, [raw]) && ToEvent(hash)(x) == e {
      EventsOfRaws(c, raws, x);
      var i :| 0 <= i < |es| && es[i] == x;
      assert BatchEvents(c, hash, raws)[i] == e;
    }
    if e in BatchEvents(c, hash, raws) {
      var i :| 0 <= i < |es| && ToEvent(hash)(es[i]) == e;
      EventsOfRaws(c, raws, es[i]);
    }
  }

  /** The events of a batch have distinct ids, and are events of the world. */
  lemma {:induction false} BatchIsDrawn(c: Context, hash: Hash, world: set<Raw>, batch: seq<Raw>)
    requires ValidWorld(c, hash, world) && BatchFrom(world, batch)
    ensures DistinctBy(EventId, BatchEvents(c, hash, batch))
    ensures forall e | e in BatchEvents(c, hash, batch) :: e in EventWorld(c, hash, world)
  {
    var es, out := EventsOf(c, batch), BatchEvents(c, hash, batch);
    EventKeysIff(c, batch);
    forall i | 0 <= i < |es| ensures EventIn(c, world, es[i]) && out[i] in EventWorld(c, hash, world) {
      EventsOfRaws(c, batch, es[i]);
      var raw :| raw in batch && es[i] in EventsOf(c, [raw]);
      assert raw in world && ToEvent(hash)(es[i]) == out[i];
    }
    forall i, j | 0 <= i < j < |out| ensures EventId(out[i]) != EventId(out[j]) {
      assert EventIn(c, world, es[i]) && EventIn(c, world, es[j]);
      assert KeyOf(es[i]) != KeyOf(es[j]);
    }
  }

  function EventBatches(c: Context, hash: Hash, batches: seq<seq<Raw>>): seq<seq<Event>> {
    seq(|batches|, i requires 0 <= i < |batches| => BatchEvents(c, hash, batches[i]))
  }

  lemma {:induction false} RunIsDrawn(c: Context, hash: Hash, world: set<Raw>, batches: seq<seq<Raw>>)
    requires ValidWorld(c, hash, world) && BatchesFrom(world, batches)
    ensures Drawn(EventBatches(c, hash, batches), EventWorld(c, hash, world))
  {
    forall b | b in EventBatches(c, hash, batches)
      ensures DistinctBy(EventId, b) && forall e | e in b :: e in EventWorld(c, hash, world)
    {
      var i :| 0 <= i < |batches| && EventBatches(c, hash, batches)[i] == b;
      assert batches[i] in batches;
      BatchIsDrawn(c, hash, world, batches[i]);
    }
  }

  // ---------------------------------------------------------------------------
  // Latest raw rows, latest events, and what only the history keeps
  // ---------------------------------------------------------------------------

  /** The latest versions of the delivered raw rows are themselves a batch of the world. */
  lemma {:induction false} LatestIsBatch(world: set<Raw>, batches: seq<seq<Raw>>)
    requires BatchesFrom(world, batches)
    ensures BatchFrom(world, Latest(batches))
  {
    if batches != [] {
      var n := |batches| - 1;
      var ids, earlier := RawIds(batches[n]), Latest(batches[..n]);
      assert batches[n] in batches && forall b | b in batches[..n] :: b in batches;
      LatestIsBatch(world, batches[..n]);
      FilterContents(OtherThan(ids), earlier);
      FilterKeepsDistinct(RawId, OtherThan(ids), earlier);
      LatestDistinct(Filter(OtherThan(ids), earlier), batches[n]);
    }
  }

  lemma {:induction false} LatestDistinct(kept: seq<Raw>, batch: seq<Raw>)
    requires DistinctBy(RawId, kept) && DistinctBy(RawId, batch)
    requires forall raw | raw in kept :: OtherThan(RawIds(batch))(raw)
    ensures DistinctBy(RawId, kept + batch)
  {
    forall i, j | 0 <= i < j < |kept + batch| ensures RawId((kept + batch)[i]) != RawId((kept + batch)[j]) {
      if i < |kept| <= j { assert (kept + batch)[i] in kept && (kept + batch)[j] in batch; }
    }
  }

  function Stored(c: Context, hash: Hash, batches: seq<seq<Raw>>): seq<Event> {
    LatestEvents(EventBatches(c, hash, batches))
  }

  lemma {:induction false} StoredSnoc(c: Context, hash: Hash, batches: seq<seq<Raw>>, batch: seq<Raw>)
    ensures Stored(c, hash, batches + [batch]) ==
            Filter(NotIn(BatchIds(BatchEvents(c, hash, batch))), Stored(c, hash, batches)) + BatchEvents(c, hash, batch)
  {
    assert EventBatches(c, hash, batches + [batch]) == EventBatches(c, hash, batches) + [BatchEvents(c, hash, batch)];
    LatestSnoc(EventBatches(c, hash, batches), BatchEvents(c, hash, batch));
  }

  lemma {:induction false} StoredLast(c: Context, hash: Hash, batches: seq<seq<Raw>>)
    requires batches != []
    ensures var n := |batches| - 1;
            var last := BatchEvents(c, hash, batches[n]);
            Stored(c, hash, batches) == Filter(NotIn(BatchIds(last)), Stored(c, hash, batches[..n])) + last
  {
    var n := |batches| - 1;
    assert batches == batches[..n] + [batches[n]];
    StoredSnoc(c, hash, batches[..n], batches[n]);
  }

  lemma {:induction false} OtherRawOtherId(c: Context, hash: Hash, world: set<Raw>, raw: Raw, x: BalanceEvent,
                                           batch: seq<Raw>)
    requires ValidWorld(c, hash, world) && BatchFrom(world, batch) && raw in world && x in EventsOf(c, [raw])
    requires raw.origin.raw !in RawIds(batch)
    ensures ToEvent(hash)(x).id !in BatchIds(BatchEvents(c, hash, batch))
  {
    forall f | f in BatchEvents(c, hash, batch) ensures f.id != ToEvent(hash)(x).id {
      InBatchEvents(c, hash, batch, f);
      var b, y :| b in batch && y in EventsOf(c, [b]) && ToEvent(hash)(y) == f;
      if f.id == ToEvent(hash)(x).id {
        SameKeySamePlace(c, hash, world, raw, b, x, y);
        assert false;
      }
    }
  }

  /** Every event of the latest version of a raw row is stored as it is. */
  lemma {:induction false} CurrentIsStored(c: Context, hash: Hash, world: set<Raw>, batches: seq<seq<Raw>>, raw: Raw,
                                           x: BalanceEvent)
    requires ValidWorld(c, hash, world) && BatchesFrom(world, batches)
    requires raw in Latest(batches) && x in EventsOf(c, [raw])
    ensures ToEvent(hash)(x) in Stored(c, hash, batches)
  {
    var n := |batches| - 1;
    var last, e := BatchEvents(c, hash, batches[n]), ToEvent(hash)(x);
    StoredLast(c, hash, batches);
    assert batches[n] in batches && forall b | b in batches[..n] :: b in batches;
    if raw in batches[n] {
      InBatchEvents(c, hash, batches[n], e);
    } else {
      FilterContents(OtherThan(RawIds(batches[n])), Latest(batches[..n]));
      assert OtherThan(RawIds(batches[n]))(raw);
      CurrentIsStored(c, hash, world, batches[..n], raw, x);
      LatestIsBatch(world, batches[..n]);
      OtherRawOtherId(c, hash, world, raw, x, batches[n]);
      FilterContents(NotIn(BatchIds(last)), Stored(c, hash, batches[..n]));
      assert NotIn(BatchIds(last))(e);
    }
  }

  /** The events of the latest versions. */
  function Current(c: Context, hash: Hash, batches: seq<seq<Raw>>): seq<Event> {
    BatchEvents(c, hash, Latest(batches))
  }

  function In(ids: set<Uuid>): Event -> bool { (e: Event) => e.id in ids }

  /** Delivered events that the latest versions no longer have: nothing deletes their rows. */
  function Stale(c: Context, hash: Hash, batches: seq<seq<Raw>>): seq<Event> {
    Filter(NotIn(BatchIds(Current(c, hash, batches))), Stored(c, hash, batches))
  }

  lemma {:induction false} SameMembers(a: seq<Event>, b: seq<Event>)
    requires DistinctBy(EventId, a) && DistinctBy(EventId, b) && forall e :: e in a <==> e in b
    ensures multiset(a) == multiset(b)
  {
    SortStrictly(EventId, a);
    SortStrictly(EventId, b);
    SortBySorts(EventId, a);
    SortBySorts(EventId, b);
    StrictlySortedUnique(EventId, SortBy(EventId, a), SortBy(EventId, b));
  }

  lemma {:induction false} CurrentMembers(stored: seq<Event>, current: seq<Event>)
    requires DistinctBy(EventId, stored) && DistinctBy(EventId, current) && forall e | e in current :: e in stored
    ensures multiset(Filter(In(BatchIds(current)), stored)) == multiset(current)
  {
    FilterContents(In(BatchIds(current)), stored);
    FilterKeepsDistinct(EventId, In(BatchIds(current)), stored);
    forall e ensures e in Filter(In(BatchIds(current)), stored) <==> e in current {
      if e in Filter(In(BatchIds(current)), stored) {
        assert In(BatchIds(current))(e);
        var f :| f in current && f.id == e.id;
        SameIdSameEvent(stored, e, f);
      }
      if e in current { assert In(BatchIds(current))(e); }
    }
    SameMembers(Filter(In(BatchIds(current)), stored), current);
  }

  /** What is stored: the events of the latest versions, and the stale ones. */
  lemma {:induction false} StoredSplits(c: Context, hash: Hash, world: set<Raw>, batches: seq<seq<Raw>>)
    requires ValidWorld(c, hash, world) && BatchesFrom(world, batches)
    ensures multiset(Stored(c, hash, batches)) ==
            multiset(Current(c, hash, batches)) + multiset(Stale(c, hash, batches))
  {
    var stored, current := Stored(c, hash, batches), Current(c, hash, batches);
    RunIsDrawn(c, hash, world, batches);
    LatestFacts(EventBatches(c, hash, batches), EventWorld(c, hash, world));
    LatestIsBatch(world, batches);
    BatchIsDrawn(c, hash, world, Latest(batches));
    forall e | e in current ensures e in stored {
      InBatchEvents(c, hash, Latest(batches), e);
      var raw, x :| raw in Latest(batches) && x in EventsOf(c, [raw]) && ToEvent(hash)(x) == e;
      CurrentIsStored(c, hash, world, batches, raw, x);
    }
    CurrentMembers(stored, current);
    SplitByIds(stored, BatchIds(current));
  }

  lemma {:induction false} SplitByIds(stored: seq<Event>, ids: set<Uuid>)
    ensures multiset(stored) == multiset(Filter(In(ids), stored)) + multiset(Filter(NotIn(ids), stored))
  {
    FilterUnion(Any, In(ids), NotIn(ids), stored);
    FilterKeepsAll(Any, stored);
  }

  predicate Any(e: Event) { true }

  // ---------------------------------------------------------------------------
  // The end-to-end law
  // ---------------------------------------------------------------------------

  function MovedIn(k: Key): Event -> real { (e: Event) => if e.key == k then e.delta else 0.0 }

  lemma {:induction false} SumOfKey(k: Key, es: seq<Event>)
    ensures Sum(DeltaOf, Filter(InKey(k), es)) == Sum(MovedIn(k), es)
  {
    if es != [] {
      SumOfKey(k, es[1..]);
      SumConcat(DeltaOf, if InKey(k)(es[0]) then [es[0]] else [], Filter(InKey(k), es[1..]));
      SumOne(DeltaOf, es[0]);
    }
  }

  lemma {:induction false} MovedIsSum(hash: Hash, k: Key, es: seq<BalanceEvent>)
    ensures Sum(MovedIn(k), ToEvents(hash, es)) == Sum(Moved(k), es)
  {
    if es != [] {
      MovedIsSum(hash, k, es[1..]);
      var all := ToEvents(hash, es);
      assert all[1..] == ToEvents(hash, es[1..]) && all[0] == ToEvent(hash)(es[0]);
      assert MovedIn(k)(all[0]) == Moved(k)(es[0]);
    }
  }

  function LastBalance(t: seq<Row>): real { BalanceBefore(t, 0.0, |t|) }

  lemma {:induction false} LastBalanceIsSum(es: seq<Event>)
    ensures LastBalance(Accumulate(0.0, es)) == Sum(DeltaOf, es)
  {
    AccumulateRows(0.0, es);
    if es != [] {
      AccumulateSums(0.0, es, |es| - 1);
      assert es[..|es| - 1 + 1] == es;
    }
  }

  lemma {:induction false} LastBalanceIsStored(c: Context, hash: Hash, world: set<Raw>, batches: seq<seq<Raw>>, k: Key)
    requires ValidWorld(c, hash, world) && BatchesFrom(world, batches)
    ensures LastBalance(Run([], k, EventBatches(c, hash, batches))) == Sum(MovedIn(k), Stored(c, hash, batches))
  {
    var stored := Stored(c, hash, batches);
    WorldIsConsistent(c, hash, world);
    RunIsDrawn(c, hash, world, batches);
    EqualsLatest(k, EventBatches(c, hash, batches), EventWorld(c, hash, world));
    LastBalanceIsSum(Incoming(stored, k));
    SortBySorts(EventOrder, Filter(InKey(k), stored));
    SumPermutes(DeltaOf, Incoming(stored, k), Filter(InKey(k), stored));
    SumOfKey(k, stored);
  }

  /** What every delivered raw row may look like: amounts decode, fees are in USDC, and ledger ids are distinct. */
  ghost predicate Bookable(c: Context, world: set<Raw>) {
    forall raw | raw in world :: Reconcilable(c.parse, raw) && LedgerIdsApart(c, raw)
  }

  lemma {:induction false} BookableIsWritable(c: Context, world: set<Raw>, batches: seq<seq<Raw>>)
    requires Bookable(c, world) && BatchesFrom(world, batches)
    ensures Writable(c, batches)
  {
    forall b | b in batches ensures WritableBatch(c, b) { assert BatchFrom(world, b); }
  }

  /**
   End to end: after any run of materializations from empty tables, in any batching, with replays and
   with raw rows that change between deliveries, the last stored balance of every (network, asset) is the
   sum of its stored non-trade ledger amounts plus the deltas of the stale events.
   */
  lemma {:induction false} LastBalanceIsLedger(c: Context, hash: Hash, world: set<Raw>, batches: seq<seq<Raw>>, k: Key)
    requires ValidWorld(c, hash, world) && Bookable(c, world) && BatchesFrom(world, batches)
    ensures LastBalance(Run([], k, EventBatches(c, hash, batches))) ==
            Sum(Booked(k), StoredLedger(c, batches)) + Sum(MovedIn(k), Stale(c, hash, batches))
  {
    var current, stale := Current(c, hash, batches), Stale(c, hash, batches);
    LastBalanceIsStored(c, hash, world, batches, k);
    StoredSplits(c, hash, world, batches);
    SumPermutes(MovedIn(k), Stored(c, hash, batches), current + stale);
    SumConcat(MovedIn(k), current, stale);
    MovedIsSum(hash, k, EventsOf(c, Latest(batches)));
    BookableIsWritable(c, world, batches);
    StoredLedgerBooks(c, k, batches);
    LatestIsBatch(world, batches);
    LedgerReconciles(c, Latest(batches), k);
  }

  ghost predicate OneVersionPerId(world: set<Raw>) {
    forall a, b | a in world && b in world && RawId(a) == RawId(b) :: a == b
  }

  ghost predicate RawDelivered(raw: Raw, batches: seq<seq<Raw>>) { exists b | b in batches :: raw in b }

  lemma {:induction false} DeliveredIsLatest(world: set<Raw>, batches: seq<seq<Raw>>, raw: Raw)
    requires OneVersionPerId(world) && BatchesFrom(world, batches) && RawDelivered(raw, batches)
    ensures raw in Latest(batches)
  {
    var n := |batches| - 1;
    var ids, earlier := RawIds(batches[n]), Latest(batches[..n]);
    assert batches[n] in batches && forall b | b in batches[..n] :: b in batches;
    FilterContents(OtherThan(ids), earlier);
    if raw !in batches[n] {
      var b :| b in batches && raw in b;
      assert batches == batches[..n] + [batches[n]];
      DeliveredIsLatest(world, batches[..n], raw);
      assert BatchFrom(world, batches[n]) && BatchFrom(world, b);
      forall twin | twin in batches[n] ensures twin.origin.raw != raw.origin.raw {
        assert RawId(twin) == RawId(raw) ==> twin == raw;
      }
      assert OtherThan(ids)(raw);
    }
  }

  lemma {:induction false} StoredIsDelivered(c: Context, hash: Hash, batches: seq<seq<Raw>>, e: Event)
      returns (raw: Raw, x: BalanceEvent)
    requires e in Stored(c, hash, batches)
    ensures RawDelivered(raw, batches) && x in EventsOf(c, [raw]) && ToEvent(hash)(x) == e
  {
    var n := |batches| - 1;
    StoredLast(c, hash, batches);
    if e in BatchEvents(c, hash, batches[n]) {
      InBatchEvents(c, hash, batches[n], e);
      raw, x :| raw in batches[n] && x in EventsOf(c, [raw]) && ToEvent(hash)(x) == e;
    } else {
      FilterContents(NotIn(BatchIds(BatchEvents(c, hash, batches[n]))), Stored(c, hash, batches[..n]));
      raw, x := StoredIsDelivered(c, hash, batches[..n], e);
      var b :| b in batches[..n] && raw in b;
      assert b in batches;
    }
  }

  /**
   Raw rows that never change leave nothing stale: balance and ledger agree, whatever the batching
   and the replays.
   */
  lemma {:induction false} NothingStale(c: Context, hash: Hash, world: set<Raw>, batches: seq<seq<Raw>>)
    requires OneVersionPerId(world) && BatchesFrom(world, batches)
    ensures Stale(c, hash, batches) == []
  {
    forall e | e in Stored(c, hash, batches) ensures !NotIn(BatchIds(Current(c, hash, batches)))(e) {
      var raw, x := StoredIsDelivered(c, hash, batches, e);
      DeliveredIsLatest(world, batches, raw);
      InBatchEvents(c, hash, Latest(batches), e);
    }
    FilterKeepsNone(NotIn(BatchIds(Current(c, hash, batches))), Stored(c, hash, batches));
  }

  /**
   A repaired row leaves a stale one: the ledger forgets a transfer that the parser took back, the
   balance does not.
   */
  lemma {:induction false} RepairLeavesStale(origin: Origin, hash: Hash)
    requires !IsHyperliquid(origin.network)
    ensures var t := TokenTransfer(origin, "X", None, "A", "W", 5.0, 18, 1);
            var first := Raw(origin, HlLedger.UnknownPayload, [t], [], None);
            var batches := [] + [[first]] + [[first.(transfers := [])]];
            && StoredLedger(PLAIN, batches) == []
            && Sum(MovedIn(KeyIn(origin, "X")), Stale(PLAIN, hash, batches)) == 5.0
  {
    var t := TokenTransfer(origin, "X", None, "A", "W", 5.0, 18, 1);
    var first := Raw(origin, HlLedger.UnknownPayload, [t], [], None);
    var second := first.(transfers := []);
    assert "A" != "W" by { assert "A"[0] != "W"[0]; }
    OneTransfer(first, t);
    NoTransfers(second);
    var x := TransferEvents(PLAIN)(t)[0];
    assert x.key == KeyIn(origin, "X") && x.delta == 5.0;
    RepairLeaves(hash, first, second, x);
    SumOne(MovedIn(KeyIn(origin, "X")), ToEvent(hash)(x));
  }

  lemma {:induction false} RepairLeaves(hash: Hash, first: Raw, second: Raw, x: BalanceEvent)
    requires first.origin == second.origin && EventsOf(PLAIN, [first]) == [x]
    requires EventsOf(PLAIN, [second]) == [] && LedgerOf(PLAIN, [second]) == []
    ensures StoredLedger(PLAIN, [] + [[first]] + [[second]]) == []
    ensures Stale(PLAIN, hash, [] + [[first]] + [[second]]) == [ToEvent(hash)(x)]
  {
    StoredFromOne(first);
    RepairedLedger([] + [[first]], second);
    StoredOnce(hash, first, x);
    LatestOfTwo(first, second);
    StaleAfter(hash, [] + [[first]], second, ToEvent(hash)(x));
  }

  lemma {:induction false} StaleAfter(hash: Hash, done: seq<seq<Raw>>, second: Raw, e: Event)
    requires EventsOf(PLAIN, [second]) == [] && Stored(PLAIN, hash, done) == [e] &&
             Latest(done + [[second]]) == [second]
    ensures Stale(PLAIN, hash, done + [[second]]) == [e]
  {
    assert BatchEvents(PLAIN, hash, [second]) == [];
    StoredSnoc(PLAIN, hash, done, [second]);
    KeepsOne(e);
  }

  lemma {:induction false} StoredOnce(hash: Hash, first: Raw, x: BalanceEvent)
    requires EventsOf(PLAIN, [first]) == [x]
    ensures Stored(PLAIN, hash, [] + [[first]]) == [ToEvent(hash)(x)]
  {
    assert BatchEvents(PLAIN, hash, [first]) == [ToEvent(hash)(x)];
    StoredSnoc(PLAIN, hash, [], [first]);
    assert Stored(PLAIN, hash, []) == [];
  }

  lemma {:induction false} KeepsOne(e: Event)
    ensures Filter(NotIn(BatchIds([])), [e]) == [e]
  {
    assert BatchIds([]) == {};
  }

  lemma {:induction false} LatestOfTwo(first: Raw, second: Raw)
    requires first.origin == second.origin
    ensures Latest([] + [[first]] + [[second]]) == [second]
  {
    LatestRawsSnoc([], [first]);
    LatestRawsSnoc([] + [[first]], [second]);
    assert !OtherThan(RawIds([second]))(first) by { assert second in [second]; }
  }

  lemma {:induction false} LatestRawsSnoc(batches: seq<seq<Raw>>, batch: seq<Raw>)
    ensures Latest(batches + [batch]) == Filter(OtherThan(RawIds(batch)), Latest(batches)) + batch
  {
    assert (batches + [batch])[..|batches|] == batches;
  }

  lemma {:induction false} OneTransfer(raw: Raw, t: TokenTransfer)
    requires !IsHyperliquid(raw.origin.network) && raw.transfers == [t] && t.origin == raw.origin
    requires raw.deltas == [] && raw.evm.None? && raw.payload.UnknownPayload?
    ensures EventsOf(PLAIN, [raw]) == TransferEvents(PLAIN)(t) && LedgerOf(PLAIN, [raw]) == TransferRows(PLAIN)(t)
  {
    FlatMapOne(StampTransfer(raw.origin), t);
    FlatMapOne(TransfersOf(PLAIN), raw);
    FlatMapOne(DeltasOf(PLAIN), raw);
    FlatMapOne(FillsOf(PLAIN), raw);
    FlatMapOne(FundingOf(PLAIN), raw);
    FlatMapOne(FlowRows(PLAIN), raw);
    FlatMapOne(FlowEvents(PLAIN), raw);
    FlatMapOne(TransferRows(PLAIN), t);
    FlatMapOne(TransferEvents(PLAIN), t);
  }

  lemma {:induction false} NoTransfers(raw: Raw)
    requires !IsHyperliquid(raw.origin.network) && raw.transfers == []
    requires raw.deltas == [] && raw.evm.None? && raw.payload.UnknownPayload?
    ensures EventsOf(PLAIN, [raw]) == [] && LedgerOf(PLAIN, [raw]) == []
  {
    FlatMapOne(TransfersOf(PLAIN), raw);
    FlatMapOne(DeltasOf(PLAIN), raw);
    FlatMapOne(FillsOf(PLAIN), raw);
    FlatMapOne(FundingOf(PLAIN), raw);
    FlatMapOne(FlowRows(PLAIN), raw);
    FlatMapOne(FlowEvents(PLAIN), raw);
  }

  lemma {:induction false} RepairedLedger(done: seq<seq<Raw>>, raw: Raw)
    requires LedgerOf(PLAIN, [raw]) == [] && forall r | r in StoredLedger(PLAIN, done) :: r.id.raw == raw.origin.raw
    ensures StoredLedger(PLAIN, done + [[raw]]) == []
  {
    OneMoreWrite(PLAIN, done, [raw]);
    var stored := StoredLedger(PLAIN, done);
    forall r | r in stored ensures !NotFrom(RawIds([raw]))(r) { assert raw in [raw]; }
    FilterKeepsNone(NotFrom(RawIds([raw])), stored);
  }

  lemma {:induction false} StoredFromOne(raw: Raw)
    ensures forall r | r in StoredLedger(PLAIN, [] + [[raw]]) :: r.id.raw == raw.origin.raw
  {
    var rows := LedgerOf(PLAIN, [raw]);
    OneMoreWrite(PLAIN, [], [raw]);
    LedgerRowsFrom(PLAIN, raw);
    WriteFailsIff([], rows);
    WrittenFrom([], rows, raw.origin.raw);
  }

  lemma {:induction false} WrittenFrom(stored: seq<LedgerRow>, rows: seq<LedgerRow>, raw: nat)
    requires (forall r | r in stored :: r.id.raw == raw) && (forall r | r in rows :: r.id.raw == raw)
    ensures forall r | r in PutAll(stored, rows) :: r.id.raw == raw
    decreases |rows|
  {
    if rows != [] {
      PutFrom(stored, rows[0], raw);
      WrittenFrom(Put(stored, rows[0]), rows[1..], raw);
    }
  }

  lemma {:induction false} PutFrom(stored: seq<LedgerRow>, row: LedgerRow, raw: nat)
    requires (forall r | r in stored :: r.id.raw == raw) && row.id.raw == raw
    ensures forall r | r in Put(stored, row) :: r.id.raw == raw
  {
    if stored != [] && stored[0].id != row.id { PutFrom(stored[1..], row, raw); }
  }

  // ---------------------------------------------------------------------------
  // The stored tables
  // ---------------------------------------------------------------------------

  /** Every key's table is what a run of the delivered batches stores. */
  ghost predicate HistoryHolds(rows: seq<Row>, c: Context, hash: Hash, done: seq<seq<Raw>>) {
    DistinctBy(RowId, rows) && forall k :: Table(rows, k) == Run([], k, EventBatches(c, hash, done))
  }

  /** The ids of a new batch agree with everything stored, so it is ready to be materialized. */
  lemma {:induction false} BatchIsReady(rows: seq<Row>, c: Context, hash: Hash, world: set<Raw>, done: seq<seq<Raw>>,
                                        batch: seq<Raw>)
    requires ValidWorld(c, hash, world) && BatchesFrom(world, done) && BatchFrom(world, batch)
    requires HistoryHolds(rows, c, hash, done)
    ensures Ready(rows, BatchEvents(c, hash, batch))
  {
    BatchIsDrawn(c, hash, world, batch);
    RunIsDrawn(c, hash, world, done);
    WorldIsConsistent(c, hash, world);
    ReadyAfter(rows, EventBatches(c, hash, done), EventWorld(c, hash, world), BatchEvents(c, hash, batch));
  }

  lemma {:induction false} ReadyAfter(rows: seq<Row>, done: seq<seq<Event>>, events: set<Event>, batch: seq<Event>)
    requires DistinctBy(RowId, rows) && forall k :: Table(rows, k) == Run([], k, done)
    requires Consistent(events) && Drawn(done, events)
    requires DistinctBy(EventId, batch) && forall e | e in batch :: e in events
    ensures Ready(rows, batch)
  {
    forall r, e | r in rows && e in batch && r.id == e.id ensures r.key == e.key && r.timestamp == e.timestamp {
      StoredRowAgrees(rows, done, events, r, e);
    }
  }

  lemma {:induction false} StoredRowAgrees(rows: seq<Row>, done: seq<seq<Event>>, events: set<Event>, r: Row, e: Event)
    requires DistinctBy(RowId, rows) && Consistent(events) && Drawn(done, events)
    requires Table(rows, r.key) == Run([], r.key, done) && r in rows && e in events && r.id == e.id
    ensures r.key == e.key && r.timestamp == e.timestamp
  {
    var mine := Incoming(LatestEvents(done), r.key);
    TableFacts(rows, r.key);
    assert r in Table(rows, r.key);
    EqualsLatest(r.key, done, events);
    LatestFacts(done, events);
    IncomingFacts(LatestEvents(done), r.key);
    AccumulateRows(0.0, mine);
    var i :| 0 <= i < |mine| && Accumulate(0.0, mine)[i] == r;
    assert mine[i] in mine;
  }

  lemma {:induction false} OneMoreBatch(c: Context, hash: Hash, done: seq<seq<Raw>>, batch: seq<Raw>, k: Key)
    ensures Run([], k, EventBatches(c, hash, done + [batch])) ==
            StepTable(Run([], k, EventBatches(c, hash, done)), k, BatchEvents(c, hash, batch))
  {
    assert EventBatches(c, hash, done + [batch]) == EventBatches(c, hash, done) + [BatchEvents(c, hash, batch)];
    assert (EventBatches(c, hash, done) + [BatchEvents(c, hash, batch)])[..|done|] == EventBatches(c, hash, done);
  }

  lemma {:induction false} OneMoreWrite(c: Context, done: seq<seq<Raw>>, batch: seq<Raw>)
    ensures var r := Replace(StoredLedger(c, done), RawIds(batch), LedgerOf(c, batch));
            StoredLedger(c, done + [batch]) == if r.Ok? then r.value else StoredLedger(c, done)
  {
    assert (done + [batch])[..|done|] == done;
  }

  lemma {:induction false} BatchesGrow(world: set<Raw>, done: seq<seq<Raw>>, batch: seq<Raw>)
    requires BatchesFrom(world, done) && BatchFrom(world, batch)
    ensures BatchesFrom(world, done + [batch])
  {
  }

  /** Balances and ledger of every key, apart by the stale events. */
  ghost predicate Agree(rows: seq<Row>, ledger: seq<LedgerRow>, c: Context, hash: Hash, done: seq<seq<Raw>>) {
    forall k :: LastBalance(Table(rows, k)) == Sum(Booked(k), ledger) + Sum(MovedIn(k), Stale(c, hash, done))
  }

  lemma {:induction false} LawAfter(rows: seq<Row>, ledger: seq<LedgerRow>, c: Context, hash: Hash, world: set<Raw>,
                                    done: seq<seq<Raw>>)
    requires ValidWorld(c, hash, world) && Bookable(c, world) && BatchesFrom(world, done)
    requires HistoryHolds(rows, c, hash, done) && ledger == StoredLedger(c, done)
    ensures Agree(rows, ledger, c, hash, done)
  {
    forall k ensures LastBalance(Table(rows, k)) == Sum(Booked(k), ledger) + Sum(MovedIn(k), Stale(c, hash, done)) {
      LastBalanceIsLedger(c, hash, world, done, k);
    }
  }

  lemma {:induction false} LawAfterNext(rows: seq<Row>, ledger: seq<LedgerRow>, c: Context, hash: Hash,
                                        world: set<Raw>, done: seq<seq<Raw>>, raws: seq<Raw>)
    requires ValidWorld(c, hash, world) && BatchesFrom(world, done) && BatchFrom(world, raws)
    requires HistoryHolds(rows, c, hash, done + [raws]) && ledger == StoredLedger(c, done + [raws])
    ensures Bookable(c, world) ==> Agree(rows, ledger, c, hash, done + [raws])
  {
    if Bookable(c, world) {
      BatchesGrow(world, done, raws);
      LawAfter(rows, ledger, c, hash, world, done + [raws]);
    }
  }

  lemma {:induction false} HistoryAfter(before: seq<Row>, after: seq<Row>, c: Context, hash: Hash, done: seq<seq<Raw>>,
                                        batch: seq<Raw>)
    requires HistoryHolds(before, c, hash, done) && DistinctBy(RowId, after)
    requires forall k :: Table(after, k) == StepTable(Table(before, k), k, BatchEvents(c, hash, batch))
    ensures HistoryHolds(after, c, hash, done + [batch])
  {
    forall k ensures Table(after, k) == Run([], k, EventBatches(c, hash, done + [batch])) {
      OneMoreBatch(c, hash, done, batch, k);
    }
  }
}
