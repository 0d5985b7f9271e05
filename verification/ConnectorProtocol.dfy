/**
 Resumable ingestion of one target as a protocol: any number of jobs and workers read the stored
 cursor, fetch from the provider, crash, lose their lease, and commit through one transaction.
 */
module ConnectorProtocol {
  import opened Common
  import opened TimeWindow
  import Hl = HlBackfill
  import Sol = SolanaHistory
  import Evm = EvmScan
  import HlPaging

  type JobId = nat
  type RunId = nat
  type WorkerId = nat

  datatype Family = Hyperliquid | Solana | EvmChain

  datatype Target = Target(family: Family, isWallet: bool, startBlock: Option<Evm.U64>)

  /** A raw transaction, named by its tx_hash. */
  datatype Row = HlRow(record: Hl.Record) | SolRow(signature: Sol.Signature) | EvmRow(hash: Evm.Hash)

  datatype Checkpoint = HlAt(hl: Hl.Cursor) | SolAt(sol: Sol.Cursor) | EvmAt(evm: Evm.Cursor)

  // ---------------------------------------------------------------------------
  // The database and its atomic commit
  // ---------------------------------------------------------------------------

  datatype Db = Db(
    raw: set<Row>,
    matches: set<Row>,
    links: set<(RunId, Row)>,
    checkpoint: Option<Checkpoint>,
    queued: set<RunId>,
    completed: set<RunId>,
    leases: map<JobId, WorkerId>)

  predicate HoldsLease(db: Db, job: JobId, worker: WorkerId) { job in db.leases && db.leases[job] == worker }

  function Elements(rows: seq<Row>): set<Row> { set r | r in rows }

  function Links(run: RunId, rows: set<Row>): set<(RunId, Row)> { set r | r in rows :: (run, r) }

  /** Everything `commit_connector_batch` makes durable together. */
  function Committed(db: Db, target: Target, run: RunId, rows: set<Row>, next: Option<Checkpoint>): Db {
    db.(raw := db.raw + rows,
        matches := db.matches + rows,
        links := db.links + Links(run, rows),
        checkpoint := if next.Some? then next else db.checkpoint,
        queued := if target.isWallet && rows != {} then db.queued + {run} else db.queued,
        completed := db.completed + {run})
  }

  function Min(a: nat, b: nat): nat { if a < b then a else b }

  lemma {:induction false} NextChunk(run: RunId, records: seq<Row>, at: nat, end: nat)
    requires at <= end <= |records|
    ensures Elements(records[..end]) == Elements(records[..at]) + Elements(records[at..end])
    ensures Links(run, Elements(records[..end])) ==
            Links(run, Elements(records[..at])) + Links(run, Elements(records[at..end]))
  {
    assert records[..end] == records[..at] + records[at..end];
    assert Elements(records[..end]) == Elements(records[..at]) + Elements(records[at..end]);
  }

  lemma {:induction false} CommitMeans(db: Db, target: Target, run: RunId, records: seq<Row>, next: Option<Checkpoint>)
    ensures var after := Committed(db, target, run, Elements(records), next);
            && (forall r :: r in after.raw <==> r in db.raw || r in records)
            && (forall r :: r in after.matches <==> r in db.matches || r in records)
            && (forall l :: l in after.links <==> l in db.links || (l.0 == run && l.1 in records))
            && after.queued == db.queued + if target.isWallet && records != [] then {run} else {}
  {
    assert records != [] ==> records[0] in Elements(records);
  }

  class Database {
    var raw: set<Row>
    var matches: set<Row>
    var links: set<(RunId, Row)>
    var checkpoint: Option<Checkpoint>
    var queued: set<RunId>
    var completed: set<RunId>
    var leases: map<JobId, WorkerId>

    constructor ()
      ensures State() == Db({}, {}, {}, None, {}, {}, map[])
    {
      raw, matches, links, checkpoint, queued, completed, leases := {}, {}, {}, None, {}, {}, map[];
    }

    function State(): Db
      reads this
    {
      Db(raw, matches, links, checkpoint, queued, completed, leases)
    }

    /** The lease-fenced transaction; chunks of 500 rows are upserted, linked and matched. */
    method CommitConnectorBatch(target: Target, run: RunId, records: seq<Row>, next: Option<Checkpoint>, job: JobId,
                                worker: WorkerId)
      returns (ok: bool)
      modifies this
      ensures ok <==> job in old(leases) && old(leases)[job] == worker
      ensures ok ==> forall r :: r in raw <==> r in old(raw) || r in records
      ensures ok ==> forall r :: r in matches <==> r in old(matches) || r in records
      ensures ok ==> forall l :: l in links <==> l in old(links) || (l.0 == run && l.1 in records)
      ensures ok ==> checkpoint == if next.Some? then next else old(checkpoint)
      ensures ok ==> queued == old(queued) + if target.isWallet && records != [] then {run} else {}
      ensures ok ==> completed == old(completed) + {run} && leases == old(leases)
      ensures State() == if ok then Committed(old(State()), target, run, Elements(records), next) else old(State())
    {
      if !(job in leases && leases[job] == worker) { return false; }
      var newRaw, newLinks, newMatches := raw, links, matches;
      var at := 0;
      while at < |records|
        invariant 0 <= at <= |records|
        invariant newRaw == raw + Elements(records[..at])
        invariant newMatches == matches + Elements(records[..at])
        invariant newLinks == links + Links(run, Elements(records[..at]))
        invariant State() == old(State())
      {
        var end := Min(at + 500, |records|);
        var chunk := Elements(records[at..end]);
        NextChunk(run, records, at, end);
        newRaw, newLinks, newMatches := newRaw + chunk, newLinks + Links(run, chunk), newMatches + chunk;
        at := end;
      }
      assert records[..|records|] == records;
      assert records != [] ==> records[0] in Elements(records);
      raw, links, matches := newRaw, newLinks, newMatches;
      if next.Some? { checkpoint := next; }
      if target.isWallet && records != [] { queued := queued + {run}; }
      completed := completed + {run};
      CommitMeans(old(State()), target, run, records, next);
      return true;
    }
  }

  /** The worker keeps the first of every repeated raw row before it commits. */
  method Deduplicate(records: seq<Row>) returns (kept: seq<Row>)
    ensures forall i, j | 0 <= i < j < |kept| :: kept[i] != kept[j]
    ensures Elements(kept) == Elements(records)
  {
    kept := [];
    var seen: set<Row> := {};
    for i := 0 to |records|
      invariant seen == Elements(kept) == Elements(records[..i])
      invariant forall a, b | 0 <= a < b < |kept| :: kept[a] != kept[b]
    {
      assert records[..i + 1] == records[..i] + [records[i]];
      if records[i] !in seen {
        seen, kept := seen + {records[i]}, kept + [records[i]];
      }
    }
    assert records[..|records|] == records;
  }

  // ---------------------------------------------------------------------------
  // What a cursor promises, and what a fetch returns
  // ---------------------------------------------------------------------------

  datatype World = World(hl: Hl.World, sol: seq<Sol.Signature>, evm: Evm.Chain)

  ghost predicate ValidWorld(w: World) { Hl.ValidWorld(w.hl) && Sol.Distinct(w.sol) }

  /**
   Growth behind a cursor: Solana signatures are prepended, EVM blocks may be replaced down to the
   reorganization depth, and Hyperliquid events appear at any time after the cursor.
   */
  ghost predicate Grows(a: World, b: World, c: Option<Checkpoint>) {
    ValidWorld(b) && Sol.Newer(a.sol, b.sol) && Evm.Grows(a.evm, b.evm) && Hl.Later(a.hl, b.hl, HlCursor(c))
  }

  ghost function HlRows(rows: set<Row>): set<Hl.Record> { set r | r in rows && r.HlRow? :: r.record }

  ghost function SolRows(rows: set<Row>): set<Sol.Signature> { set r | r in rows && r.SolRow? :: r.signature }

  ghost function EvmRows(rows: set<Row>): set<Evm.Hash> { set r | r in rows && r.EvmRow? :: r.hash }

  function HlCursor(c: Option<Checkpoint>): Hl.Cursor {
    if c.Some? && c.value.HlAt? then c.value.hl else Hl.Cursor(None, None, None)
  }

  function SolCursor(c: Option<Checkpoint>): Sol.Cursor {
    if c.Some? && c.value.SolAt? then c.value.sol else Sol.EMPTY
  }

  function EvmCursor(c: Option<Checkpoint>): Option<Evm.Cursor> {
    if c.Some? && c.value.EvmAt? then Some(c.value.evm) else None
  }

  /** Everything the cursor claims to have passed is among `rows`. */
  ghost predicate Covered(t: Target, w: World, c: Option<Checkpoint>, rows: set<Row>) {
    match t.family
    case Hyperliquid => Hl.Covered(w.hl, HlCursor(c), HlRows(rows))
    case Solana => Sol.Covered(w.sol, SolCursor(c), SolRows(rows))
    case EvmChain => Evm.Covered(w.evm, t.startBlock, EvmCursor(c), EvmRows(rows))
  }

  /** The windows of the Hyperliquid streams that a worker has already requested. */
  type Windows = map<Hl.Kind, seq<Value>>

  /** The end of a connector's fetch. */
  datatype FetchKind =
    | HlFetch(batch: Hl.Batch)
    | SolFetch(incremental: bool, limit: nat, listing: Sol.Listing)
    | EvmFetch(attempt: Evm.Attempt, hashes: set<Evm.Hash>)

  ghost predicate FetchOk(t: Target, w: World, c: Option<Checkpoint>, ws: Windows, f: FetchKind) {
    match t.family
    case Hyperliquid => f.HlFetch? && Hl.Completes(HlCursor(c), ws, f.batch)
    case Solana => f.SolFetch? && Sol.Fetched(w.sol, SolCursor(c), f.incremental, f.limit, f.listing)
    case EvmChain => f.EvmFetch? && Evm.Fetched(w.evm, t.startBlock, EvmCursor(c), f.attempt, f.hashes)
  }

  ghost function RowsOf(f: FetchKind): set<Row> {
    match f
    case HlFetch(batch) => set r | r in batch.records :: HlRow(r)
    case SolFetch(_, _, listing) => set s | s in listing.signatures :: SolRow(s)
    case EvmFetch(_, hashes) => set h | h in hashes :: EvmRow(h)
  }

  /** The checkpoint the fetch proposes; an empty EVM window proposes none. */
  function Proposed(t: Target, c: Option<Checkpoint>, f: FetchKind): Option<Checkpoint>
    requires f.EvmFetch? ==> 1 <= f.attempt.limit <= 100_000
  {
    match f
    case HlFetch(batch) => Some(HlAt(batch.next))
    case SolFetch(incremental, _, listing) => Some(SolAt(Sol.NextCursor(SolCursor(c), incremental, listing)))
    case EvmFetch(attempt, _) =>
      var window := Evm.WindowOf(EvmCursor(c), t.startBlock, attempt);
      if window.from <= window.end then Some(EvmAt(Evm.Cursor(Some(window.end), None))) else None
  }

  lemma {:induction false} CoveredIsMonotone(t: Target, a: World, b: World, c: Option<Checkpoint>, rows: set<Row>,
                                             more: set<Row>)
    requires Grows(a, b, c) && Covered(t, a, c, rows) && rows <= more
    ensures Covered(t, b, c, more)
  {
    match t.family
    case Hyperliquid => Hl.CoveredIsMonotone(a.hl, b.hl, HlCursor(c), HlRows(rows), HlRows(more));
    case Solana => Sol.CoveredIsMonotone(a.sol, b.sol, SolCursor(c), SolRows(rows), SolRows(more));
    case EvmChain => Evm.CoveredIsMonotone(a.evm, b.evm, t.startBlock, EvmCursor(c), EvmRows(rows), EvmRows(more));
  }

  lemma {:induction false} MoreRows(t: Target, w: World, c: Option<Checkpoint>, rows: set<Row>, more: set<Row>)
    requires ValidWorld(w) && Covered(t, w, c, rows) && rows <= more
    ensures Covered(t, w, c, more)
  {
    assert Grows(w, w, c);
    CoveredIsMonotone(t, w, w, c, rows, more);
  }

  lemma {:induction false} SolRowsOf(f: FetchKind, rows: set<Row>)
    requires f.SolFetch?
    ensures SolRows(rows + RowsOf(f)) == SolRows(rows) + set s | s in f.listing.signatures
  {
    assert forall s | s in f.listing.signatures :: SolRow(s) in RowsOf(f);
  }

  lemma {:induction false} SolFetchKeepsCovered(t: Target, w: World, c: Option<Checkpoint>, f: FetchKind,
                                                rows: set<Row>)
    requires t.family.Solana? && Covered(t, w, c, rows) && FetchOk(t, w, c, map[], f)
    ensures Covered(t, w, Proposed(t, c, f), rows + RowsOf(f))
  {
    Sol.FetchKeepsCovered(w.sol, SolCursor(c), f.incremental, f.limit, f.listing, SolRows(rows));
    SolRowsOf(f, rows);
  }

  lemma {:induction false} EvmFetchKeepsCovered(t: Target, w: World, c: Option<Checkpoint>, f: FetchKind,
                                                rows: set<Row>)
    requires t.family.EvmChain? && Covered(t, w, c, rows) && FetchOk(t, w, c, map[], f)
    ensures Covered(t, w, Proposed(t, c, f), rows + RowsOf(f))
  {
    Evm.FetchKeepsCovered(w.evm, t.startBlock, EvmCursor(c), f.attempt, f.hashes, EvmRows(rows));
    assert forall h | h in f.hashes :: EvmRow(h) in RowsOf(f);
    assert EvmRows(rows + RowsOf(f)) == EvmRows(rows) + f.hashes;
  }

  // ---------------------------------------------------------------------------
  // Steps and runs
  // ---------------------------------------------------------------------------

  datatype Worker =
    | Idle
    | Claimed(job: JobId, run: RunId)
    | Resumed(job: JobId, run: RunId, cursor: Option<Checkpoint>, windows: Windows)
    | Ready(job: JobId, run: RunId, rows: set<Row>, next: Option<Checkpoint>)

  /** The cursor a worker works with: the one it read, moved by the windows it has, or the one it will store. */
  function Held(w: Worker): Option<Checkpoint> {
    match w
    case Resumed(_, _, cursor, ws) => if ws == map[] then cursor else Some(HlAt(Hl.Advanced(HlCursor(cursor), ws)))
    case Ready(_, _, _, next) => next
    case _ => None
  }

  ghost function HeldRows(w: Worker): set<Row> {
    match w
    case Resumed(_, _, _, ws) => set r | r in Hl.WindowRecords(ws) :: HlRow(r)
    case Ready(_, _, rows, _) => rows
    case _ => {}
  }

  datatype State = State(world: World, db: Db, workers: map<WorkerId, Worker>)

  function WorkerAt(s: State, id: WorkerId): Worker { if id in s.workers then s.workers[id] else Idle }

  datatype Step =
    | Claim(id: WorkerId, job: JobId, run: RunId)
    | ReadCursor(id: WorkerId)
    | Page(id: WorkerId, kind: Hl.Kind, limit: nat, page: seq<Value>, window: seq<Value>)
    | Fetch(id: WorkerId, fetch: FetchKind)
    | Crash(id: WorkerId)
    | Commit(id: WorkerId)
    | Release(job: JobId)
    | Grow(world: World)

  /** A Hyperliquid request answered now, and the window cut from it. */
  ghost predicate PageOk(s: State, w: Worker, kind: Hl.Kind, limit: nat, page: seq<Value>, window: seq<Value>) {
    && w.Resumed? && kind !in w.windows
    && var start := HlPaging.Resume(HlCursor(w.cursor).Get(kind));
    && HlPaging.Faithful(s.world.hl.History(kind), start, Hl.PageSize(kind), page)
    && IsWindow(page, start, limit, Hl.Cap(kind), Ok(window))
  }

  ghost predicate Enabled(t: Target, s: State, step: Step) {
    match step
    case Claim(id, _, _) => WorkerAt(s, id).Idle?
    case ReadCursor(id) => WorkerAt(s, id).Claimed?
    case Page(id, kind, limit, page, window) =>
      t.family.Hyperliquid? && PageOk(s, WorkerAt(s, id), kind, limit, page, window)
    case Fetch(id, f) =>
      WorkerAt(s, id).Resumed? && FetchOk(t, s.world, WorkerAt(s, id).cursor, WorkerAt(s, id).windows, f)
    case Crash(_) => true
    case Commit(id) => WorkerAt(s, id).Ready?
    case Release(_) => true
    case Grow(w) =>
      Grows(s.world, w, s.db.checkpoint) && forall id | id in s.workers :: Grows(s.world, w, Held(s.workers[id]))
  }

  /** A claim takes the job's lease from whoever held it; a commit without the lease changes nothing. */
  ghost function Apply(t: Target, s: State, step: Step): State
    requires Enabled(t, s, step)
  {
    match step
    case Claim(id, job, run) =>
      s.(db := s.db.(leases := s.db.leases[job := id]), workers := s.workers[id := Claimed(job, run)])
    case ReadCursor(id) =>
      var w := WorkerAt(s, id);
      s.(workers := s.workers[id := Resumed(w.job, w.run, s.db.checkpoint, map[])])
    case Page(id, kind, _, _, window) =>
      var w := WorkerAt(s, id);
      s.(workers := s.workers[id := w.(windows := w.windows[kind := window])])
    case Fetch(id, f) =>
      var w := WorkerAt(s, id);
      s.(workers := s.workers[id := Ready(w.job, w.run, RowsOf(f), Proposed(t, w.cursor, f))])
    case Crash(id) => s.(workers := s.workers[id := Idle])
    case Commit(id) =>
      var w := WorkerAt(s, id);
      s.(db := if HoldsLease(s.db, w.job, id) then Committed(s.db, t, w.run, w.rows, w.next) else s.db,
         workers := s.workers[id := Idle])
    case Release(job) => s.(db := s.db.(leases := s.db.leases - {job}))
    case Grow(w) => s.(world := w)
  }

  ghost predicate Initial(s: State) {
    ValidWorld(s.world) && s.workers == map[] && s.db == Db({}, {}, {}, None, {}, {}, map[])
  }

  /** A row is accounted for when some run that brought it is queued for materialization. */
  ghost predicate Queued(db: Db, r: Row) { exists run | run in db.queued :: (run, r) in db.links }

  /** Every run that brought a row is queued for materialization, and what it brought is stored. */
  ghost predicate LinksQueued(db: Db) { forall l | l in db.links :: l.0 in db.queued && l.1 in db.raw }

  ghost predicate WorkerSound(t: Target, s: State, w: Worker) {
    w.Resumed? || w.Ready? ==>
      && Covered(t, s.world, Held(w), s.db.matches + HeldRows(w))
      && (w.Resumed? && w.windows != map[] ==> t.family.Hyperliquid?)
  }

  ghost predicate Safe(t: Target, s: State) {
    && ValidWorld(s.world)
    && s.db.matches == s.db.raw
    && Covered(t, s.world, s.db.checkpoint, s.db.matches)
    && (forall id | id in s.workers :: WorkerSound(t, s, s.workers[id]))
    && (t.isWallet ==> LinksQueued(s.db) && forall r | r in s.db.raw :: Queued(s.db, r))
  }

  lemma {:induction false} InitialIsSafe(t: Target, s: State)
    requires Initial(s)
    ensures Safe(t, s)
  {
  }

  /** More rows and more history never unsettle a worker. */
  lemma {:induction false} WorkersStaySound(t: Target, s: State, u: State, w: Worker)
    requires WorkerSound(t, s, w) && Grows(s.world, u.world, Held(w)) && s.db.matches <= u.db.matches
    ensures WorkerSound(t, u, w)
  {
    if w.Resumed? || w.Ready? {
      CoveredIsMonotone(t, s.world, u.world, Held(w), s.db.matches + HeldRows(w), u.db.matches + HeldRows(w));
    }
  }

  lemma {:induction false} CommitKeepsQueued(t: Target, s: State, id: WorkerId)
    requires Safe(t, s) && WorkerAt(s, id).Ready? && t.isWallet && HoldsLease(s.db, WorkerAt(s, id).job, id)
    ensures var db := Apply(t, s, Commit(id)).db; LinksQueued(db) && forall r | r in db.raw :: Queued(db, r)
  {
    var w := WorkerAt(s, id);
    var db := Apply(t, s, Commit(id)).db;
    forall r | r in db.raw ensures Queued(db, r) {
      if r in s.db.raw {
        var run :| run in s.db.queued && (run, r) in s.db.links;
        assert run in db.queued && (run, r) in db.links;
      } else {
        assert w.run in db.queued && (w.run, r) in db.links;
      }
    }
  }

  lemma {:induction false} CommitKeepsCovered(t: Target, s: State, id: WorkerId)
    requires Safe(t, s) && WorkerAt(s, id).Ready?
    ensures var db := Apply(t, s, Commit(id)).db; Covered(t, s.world, db.checkpoint, db.matches)
  {
    var w := WorkerAt(s, id);
    assert WorkerSound(t, s, w);
    if HoldsLease(s.db, w.job, id) && w.next.None? {
      MoreRows(t, s.world, s.db.checkpoint, s.db.matches, s.db.matches + w.rows);
    }
  }

  lemma {:induction false} CommitKeepsWorkers(t: Target, s: State, id: WorkerId, other: WorkerId)
    requires Safe(t, s) && WorkerAt(s, id).Ready? && other in s.workers && other != id
    ensures WorkerSound(t, Apply(t, s, Commit(id)), s.workers[other])
  {
    assert Grows(s.world, s.world, Held(s.workers[other]));
    WorkersStaySound(t, s, Apply(t, s, Commit(id)), s.workers[other]);
  }

  lemma {:induction false} CommitKeepsSafe(t: Target, s: State, id: WorkerId)
    requires Safe(t, s) && WorkerAt(s, id).Ready?
    ensures Safe(t, Apply(t, s, Commit(id)))
  {
    var u := Apply(t, s, Commit(id));
    CommitKeepsCovered(t, s, id);
    if t.isWallet && HoldsLease(s.db, WorkerAt(s, id).job, id) { CommitKeepsQueued(t, s, id); }
    forall other | other in u.workers ensures WorkerSound(t, u, u.workers[other]) {
      if other != id { CommitKeepsWorkers(t, s, id, other); }
    }
  }

  lemma {:induction false} PageKeepsSound(t: Target, s: State, step: Step)
    requires Safe(t, s) && step.Page? && Enabled(t, s, step)
    ensures WorkerSound(t, Apply(t, s, step), WorkerAt(Apply(t, s, step), step.id))
  {
    var w := WorkerAt(s, step.id);
    var v := WorkerAt(Apply(t, s, step), step.id);
    assert WorkerSound(t, s, w);
    HeldHl(w, s.db.matches);
    HeldHl(v, s.db.matches);
    Hl.PageKeepsCovered(s.world.hl, HlCursor(w.cursor), w.windows, step.kind, step.limit, step.page, step.window,
                        HlRows(s.db.matches));
  }

  /** A resumed worker's cursor and rows, in Hyperliquid terms. */
  lemma {:induction false} HeldHl(w: Worker, rows: set<Row>)
    requires w.Resumed?
    ensures HlCursor(Held(w)) == Hl.Advanced(HlCursor(w.cursor), w.windows)
    ensures HlRows(rows + HeldRows(w)) == HlRows(rows) + Hl.WindowRecords(w.windows)
  {
    assert forall r | r in Hl.WindowRecords(w.windows) :: HlRow(r) in HeldRows(w);
  }

  /** Every fetch, of every connector, ends with a checkpoint whose claims are in the stored rows plus the batch. */
  lemma {:induction false} FetchKeepsSound(t: Target, s: State, id: WorkerId, f: FetchKind)
    requires Safe(t, s) && Enabled(t, s, Fetch(id, f))
    ensures Covered(t, s.world, Proposed(t, WorkerAt(s, id).cursor, f), s.db.matches + RowsOf(f))
  {
    var w := WorkerAt(s, id);
    assert WorkerSound(t, s, w);
    match t.family
    case Hyperliquid =>
      HeldHl(w, s.db.matches);
      Hl.CompletedBatch(HlCursor(w.cursor), w.windows, f.batch);
      assert forall r | r in f.batch.records :: HlRow(r) in RowsOf(f);
      assert HlRows(s.db.matches + RowsOf(f)) == HlRows(s.db.matches) + set r | r in f.batch.records;
    case Solana =>
      assert s.db.matches + HeldRows(w) == s.db.matches;
      SolFetchKeepsCovered(t, s.world, w.cursor, f, s.db.matches);
    case EvmChain =>
      assert s.db.matches + HeldRows(w) == s.db.matches;
      EvmFetchKeepsCovered(t, s.world, w.cursor, f, s.db.matches);
  }

  lemma {:induction false} GrowKeepsSafe(t: Target, s: State, w: World)
    requires Safe(t, s) && Enabled(t, s, Grow(w))
    ensures Safe(t, Apply(t, s, Grow(w)))
  {
    var u := Apply(t, s, Grow(w));
    CoveredIsMonotone(t, s.world, w, s.db.checkpoint, s.db.matches, s.db.matches);
    forall id | id in s.workers ensures WorkerSound(t, u, s.workers[id]) {
      WorkersStaySound(t, s, u, s.workers[id]);
    }
  }

  /** Growth of any kind: late Hyperliquid events and reorganizations of any depth included. */
  ghost predicate GrowsAnyhow(a: World, b: World) {
    ValidWorld(b) && Sol.Newer(a.sol, b.sol) && |a.evm| <= |b.evm|
  }

  /** Something unstored that the growth put at or before the cursor. */
  ghost predicate Behind(t: Target, a: World, b: World, c: Option<Checkpoint>, rows: set<Row>)
    requires GrowsAnyhow(a, b) && Covered(t, a, c, rows)
  {
    match t.family
    case Hyperliquid =>
      exists kind: Hl.Kind, v | Hl.Late(a.hl, b.hl, HlCursor(c), kind, v) :: Hl.Record(kind, v) !in HlRows(rows)
    case Solana => false
    case EvmChain => Evm.Unstored(a.evm, b.evm, t.startBlock, EvmCursor(c), EvmRows(rows))
  }

  lemma {:induction false} CoveredIff(t: Target, a: World, b: World, c: Option<Checkpoint>, rows: set<Row>)
    requires GrowsAnyhow(a, b) && Covered(t, a, c, rows)
    ensures Covered(t, b, c, rows) <==> !Behind(t, a, b, c, rows)
  {
    match t.family
    case Hyperliquid => Hl.CoveredIff(a.hl, b.hl, HlCursor(c), HlRows(rows));
    case Solana => Sol.CoveredIsMonotone(a.sol, b.sol, SolCursor(c), SolRows(rows), SolRows(rows));
    case EvmChain => Evm.ReorganizedIff(a.evm, b.evm, t.startBlock, EvmCursor(c), EvmRows(rows));
  }

  ghost predicate Working(s: State, id: WorkerId) {
    id in s.workers && (s.workers[id].Resumed? || s.workers[id].Ready?)
  }

  /**
   Growth of any kind keeps the protocol safe if and only if it puts nothing unstored at or before any
   cursor that the database or a worker holds.
   */
  lemma {:induction false} GrowSafeIff(t: Target, s: State, w: World)
    requires Safe(t, s) && GrowsAnyhow(s.world, w)
    ensures Safe(t, s.(world := w)) <==>
            && !Behind(t, s.world, w, s.db.checkpoint, s.db.matches)
            && forall id | Working(s, id) ::
                 !Behind(t, s.world, w, Held(s.workers[id]), s.db.matches + HeldRows(s.workers[id]))
  {
    var u := s.(world := w);
    CoveredIff(t, s.world, w, s.db.checkpoint, s.db.matches);
    forall id | Working(s, id)
      ensures WorkerSound(t, u, s.workers[id]) <==>
              !Behind(t, s.world, w, Held(s.workers[id]), s.db.matches + HeldRows(s.workers[id]))
    {
      assert WorkerSound(t, s, s.workers[id]);
      CoveredIff(t, s.world, w, Held(s.workers[id]), s.db.matches + HeldRows(s.workers[id]));
    }
    assert forall id | id in s.workers && !Working(s, id) :: WorkerSound(t, u, s.workers[id]);
  }

  /** A step that moves one worker and at most a lease. */
  lemma {:induction false} OneWorkerMoves(t: Target, s: State, u: State, id: WorkerId)
    requires Safe(t, s) && u.world == s.world && u.workers == s.workers[id := WorkerAt(u, id)]
    requires u.db == s.db.(leases := u.db.leases) && WorkerSound(t, u, WorkerAt(u, id))
    ensures Safe(t, u)
  {
    forall other | other in u.workers ensures WorkerSound(t, u, u.workers[other]) {
      if other != id { assert WorkerSound(t, s, s.workers[other]); }
    }
    if t.isWallet {
      forall r | r in u.db.raw ensures Queued(u.db, r) { assert Queued(s.db, r); }
    }
  }

  lemma {:induction false} ReleaseKeepsSafe(t: Target, s: State, job: JobId)
    requires Safe(t, s)
    ensures Safe(t, Apply(t, s, Release(job)))
  {
    var u := Apply(t, s, Release(job));
    forall id | id in s.workers ensures WorkerSound(t, u, s.workers[id]) { assert WorkerSound(t, s, s.workers[id]); }
    forall r | t.isWallet && r in u.db.raw ensures Queued(u.db, r) { assert Queued(s.db, r); }
  }

  /** Every step of every worker, stale or not, keeps the protocol safe. */
  lemma {:induction false} StepKeepsSafe(t: Target, s: State, step: Step)
    requires Safe(t, s) && Enabled(t, s, step)
    ensures Safe(t, Apply(t, s, step))
  {
    var u := Apply(t, s, step);
    match step
    case Claim(id, _, _) => OneWorkerMoves(t, s, u, id);
    case ReadCursor(id) =>
      assert s.db.matches + HeldRows(WorkerAt(u, id)) == s.db.matches;
      OneWorkerMoves(t, s, u, id);
    case Page(id, _, _, _, _) =>
      PageKeepsSound(t, s, step);
      OneWorkerMoves(t, s, u, id);
    case Fetch(id, f) =>
      FetchKeepsSound(t, s, id, f);
      OneWorkerMoves(t, s, u, id);
    case Crash(id) => OneWorkerMoves(t, s, u, id);
    case Commit(id) => CommitKeepsSafe(t, s, id);
    case Release(job) => ReleaseKeepsSafe(t, s, job);
    case Grow(w) => GrowKeepsSafe(t, s, w);
  }

  ghost predicate Runs(t: Target, s: State, steps: seq<Step>)
    decreases |steps|
  {
    steps == [] || (Enabled(t, s, steps[0]) && Runs(t, Apply(t, s, steps[0]), steps[1..]))
  }

  ghost function Final(t: Target, s: State, steps: seq<Step>): State
    requires Runs(t, s, steps)
    decreases |steps|
  {
    if steps == [] then s else Final(t, Apply(t, s, steps[0]), steps[1..])
  }

  lemma {:induction false} RunKeepsSafe(t: Target, s: State, steps: seq<Step>)
    requires Safe(t, s) && Runs(t, s, steps)
    ensures Safe(t, Final(t, s, steps))
    decreases |steps|
  {
    if steps != [] {
      StepKeepsSafe(t, s, steps[0]);
      RunKeepsSafe(t, Apply(t, s, steps[0]), steps[1..]);
    }
  }

  /**
   Protocol safety for Hyperliquid wallets: after any interleaving, every provider event at or before
   a stored stream cursor has a raw row and a target match, and a queued materialization of a run that brought it.
   */
  lemma {:induction false} StoredCursorIsHonest(t: Target, s: State, steps: seq<Step>, kind: Hl.Kind, v: Value)
    requires Initial(s) && Runs(t, s, steps) && t.family.Hyperliquid? && t.isWallet
    requires var end := Final(t, s, steps);
             && v in end.world.hl.History(kind)
             && HlCursor(end.db.checkpoint).Get(kind).Some?
             && Time(v) <= HlCursor(end.db.checkpoint).Get(kind).value
    ensures var db := Final(t, s, steps).db;
            var row := HlRow(Hl.Record(kind, v));
            row in db.raw && row in db.matches && Queued(db, row)
  {
    InitialIsSafe(t, s);
    RunKeepsSafe(t, s, steps);
    var end := Final(t, s, steps);
    assert Hl.StreamCovered(end.world.hl.History(kind), HlCursor(end.db.checkpoint).Get(kind), kind,
                            HlRows(end.db.matches));
    assert Hl.Record(kind, v) in HlRows(end.db.matches);
  }

  /**
   Every run that brought a wallet a row, whatever its connector, is itself queued, with the row
   stored and matched.
   */
  lemma {:induction false} EveryBatchIsQueued(t: Target, s: State, steps: seq<Step>, run: RunId, row: Row)
    requires Initial(s) && Runs(t, s, steps) && t.isWallet && (run, row) in Final(t, s, steps).db.links
    ensures var db := Final(t, s, steps).db; run in db.queued && row in db.raw && row in db.matches
  {
    InitialIsSafe(t, s);
    RunKeepsSafe(t, s, steps);
  }

  /** The same for Solana: the cursor's two ends bound one contiguous stretch of the history, all of it stored. */
  lemma {:induction false} SolanaIntervalIsStored(t: Target, s: State, steps: seq<Step>)
    requires Initial(s) && Runs(t, s, steps) && t.family.Solana?
    ensures var end := Final(t, s, steps);
            Sol.Covered(end.world.sol, SolCursor(end.db.checkpoint), SolRows(end.db.raw))
  {
    InitialIsSafe(t, s);
    RunKeepsSafe(t, s, steps);
  }

  /**
   And for EVM, reorganizations above the settled depth included: every transaction from the start
   block to the stored last block has a row.
   */
  lemma {:induction false} EvmIntervalIsStored(t: Target, s: State, steps: seq<Step>, b: nat, h: Evm.Hash)
    requires Initial(s) && Runs(t, s, steps) && t.family.EvmChain? && t.startBlock.Some?
    requires var end := Final(t, s, steps);
             var c := EvmCursor(end.db.checkpoint);
             && c.Some? && c.value.lastBlock.Some?
             && t.startBlock.value <= b <= c.value.lastBlock.value
             && b < |end.world.evm| && h in end.world.evm[b]
    ensures EvmRow(h) in Final(t, s, steps).db.raw
  {
    InitialIsSafe(t, s);
    RunKeepsSafe(t, s, steps);
    var end := Final(t, s, steps);
    assert end.world.evm[b] <= EvmRows(end.db.matches);
  }

  // ---------------------------------------------------------------------------
  // The exhausted flag of Solana cursors
  // ---------------------------------------------------------------------------

  ghost predicate FlagTrue(w: World, c: Option<Checkpoint>) {
    Sol.ExhaustedIsTrue(w.sol, SolCursor(c)) && (SolCursor(c).exhausted ==> SolCursor(c).head.Some?)
  }

  /** Every cursor, stored or held, tells the truth about the end of the history. */
  ghost predicate FlagsTrue(s: State) {
    && s.world.sol != [] && FlagTrue(s.world, s.db.checkpoint)
    && forall id | id in s.workers :: FlagTrue(s.world, Held(s.workers[id]))
  }

  lemma {:induction false} FlagSurvivesGrowth(t: Target, a: World, b: World, c: Option<Checkpoint>, rows: set<Row>)
    requires t.family.Solana? && Covered(t, a, c, rows) && FlagTrue(a, c) && Sol.Newer(a.sol, b.sol)
    ensures FlagTrue(b, c)
  {
    if SolCursor(c).before.Some? { Sol.ExhaustedSurvivesGrowth(a.sol, b.sol, SolCursor(c)); }
  }

  lemma {:induction false} FetchKeepsFlag(t: Target, s: State, id: WorkerId, f: FetchKind)
    requires t.family.Solana? && Safe(t, s) && FlagsTrue(s) && Enabled(t, s, Fetch(id, f))
    ensures FlagTrue(s.world, Proposed(t, WorkerAt(s, id).cursor, f))
  {
    var w := WorkerAt(s, id);
    assert WorkerSound(t, s, w) && FlagTrue(s.world, Held(w));
    assert s.db.matches + HeldRows(w) == s.db.matches;
    SolFetchKeepsFlag(s.world, w.cursor, f, SolRows(s.db.matches));
  }

  lemma {:induction false} SolFetchKeepsFlag(w: World, c: Option<Checkpoint>, f: FetchKind, rows: set<Sol.Signature>)
    requires f.SolFetch? && w.sol != [] && Sol.Truthfully(w.sol, SolCursor(c), rows)
    requires Sol.Fetched(w.sol, SolCursor(c), f.incremental, f.limit, f.listing)
    ensures FlagTrue(w, Some(SolAt(Sol.NextCursor(SolCursor(c), f.incremental, f.listing))))
  {
    Sol.RoundKeepsTruth(w.sol, SolCursor(c), Sol.Round(w.sol, f.incremental, f.limit, f.listing), rows);
  }

  lemma {:induction false} StepKeepsFlags(t: Target, s: State, step: Step)
    requires t.family.Solana? && Safe(t, s) && FlagsTrue(s) && Enabled(t, s, step)
    ensures FlagsTrue(Apply(t, s, step))
  {
    var u := Apply(t, s, step);
    match step
    case Claim(id, _, _) => OneFlagMoves(s, u, id);
    case ReadCursor(id) => OneFlagMoves(s, u, id);
    case Page(_, _, _, _, _) =>
    case Fetch(id, f) =>
      FetchKeepsFlag(t, s, id, f);
      OneFlagMoves(s, u, id);
    case Crash(id) => OneFlagMoves(s, u, id);
    case Commit(id) => CommitKeepsFlags(t, s, id);
    case Release(_) => assert u.workers == s.workers && u.world == s.world && u.db.checkpoint == s.db.checkpoint;
    case Grow(w) => GrowKeepsFlags(t, s, w);
  }

  lemma {:induction false} OneFlagMoves(s: State, u: State, id: WorkerId)
    requires FlagsTrue(s) && u.world == s.world && u.workers == s.workers[id := WorkerAt(u, id)]
    requires u.db.checkpoint == s.db.checkpoint && FlagTrue(u.world, Held(WorkerAt(u, id)))
    ensures FlagsTrue(u)
  {
    forall other | other in u.workers ensures FlagTrue(u.world, Held(u.workers[other])) {
      if other != id { assert other in s.workers; }
    }
  }

  lemma {:induction false} CommitKeepsFlags(t: Target, s: State, id: WorkerId)
    requires FlagsTrue(s) && WorkerAt(s, id).Ready?
    ensures FlagsTrue(Apply(t, s, Commit(id)))
  {
    var u := Apply(t, s, Commit(id));
    assert FlagTrue(s.world, Held(WorkerAt(s, id)));
    forall other | other in u.workers ensures FlagTrue(u.world, Held(u.workers[other])) {
      if other != id { assert other in s.workers; }
    }
  }

  lemma {:induction false} GrowKeepsFlags(t: Target, s: State, w: World)
    requires t.family.Solana? && Safe(t, s) && FlagsTrue(s) && Enabled(t, s, Grow(w))
    ensures FlagsTrue(Apply(t, s, Grow(w)))
  {
    FlagSurvivesGrowth(t, s.world, w, s.db.checkpoint, s.db.matches);
    forall id | id in s.workers ensures FlagTrue(w, Held(s.workers[id])) {
      var v := s.workers[id];
      assert WorkerSound(t, s, v) && FlagTrue(s.world, Held(v));
      if v.Resumed? || v.Ready? { FlagSurvivesGrowth(t, s.world, w, Held(v), s.db.matches + HeldRows(v)); }
    }
  }

  lemma {:induction false} RunKeepsFlags(t: Target, s: State, steps: seq<Step>)
    requires t.family.Solana? && Safe(t, s) && FlagsTrue(s) && Runs(t, s, steps)
    ensures FlagsTrue(Final(t, s, steps))
    decreases |steps|
  {
    if steps != [] {
      StepKeepsSafe(t, s, steps[0]);
      StepKeepsFlags(t, s, steps[0]);
      RunKeepsFlags(t, Apply(t, s, steps[0]), steps[1..]);
    }
  }

  /**
   In every interleaving, stale commits included, `history_exhausted` in the stored cursor of a wallet
   that had a history from the start means that `before` is the oldest signature.
   */
  lemma {:induction false} StoredFlagIsTrue(t: Target, s: State, steps: seq<Step>)
    requires Initial(s) && s.world.sol != [] && Runs(t, s, steps) && t.family.Solana?
    ensures var end := Final(t, s, steps);
            var c := SolCursor(end.db.checkpoint);
            c.exhausted ==> end.world.sol != [] && c.before == Some(end.world.sol[|end.world.sol| - 1])
  {
    InitialIsSafe(t, s);
    RunKeepsFlags(t, s, steps);
    SolanaIntervalIsStored(t, s, steps);
  }
}
