/**
 Progress of the ingestion protocol: who may commit, what a job that keeps its lease leaves behind, and
 that it brings the stored cursor forward.
 */
module ConnectorProgress {
  import opened Common
  import opened TimeWindow
  import opened ConnectorProtocol
  import Hl = HlBackfill
  import Sol = SolanaHistory
  import Evm = EvmScan
  import HlPaging

  // ---------------------------------------------------------------------------
  // Runs in parts
  // ---------------------------------------------------------------------------

  lemma {:induction false} RunsSplit(t: Target, s: State, a: seq<Step>, b: seq<Step>)
    requires Runs(t, s, a + b)
    ensures Runs(t, s, a) && Runs(t, Final(t, s, a), b)
    ensures Final(t, s, a + b) == Final(t, Final(t, s, a), b)
    decreases |a|
  {
    if a == [] {
      assert a + b == b;
    } else {
      assert (a + b)[0] == a[0] && (a + b)[1..] == a[1..] + b;
      RunsSplit(t, Apply(t, s, a[0]), a[1..], b);
    }
  }

  lemma {:induction false} RunsJoin(t: Target, s: State, a: seq<Step>, b: seq<Step>)
    requires Runs(t, s, a) && Runs(t, Final(t, s, a), b)
    ensures Runs(t, s, a + b) && Final(t, s, a + b) == Final(t, Final(t, s, a), b)
    decreases |a|
  {
    if a == [] {
      assert a + b == b;
    } else {
      assert (a + b)[0] == a[0] && (a + b)[1..] == a[1..] + b;
      RunsJoin(t, Apply(t, s, a[0]), a[1..], b);
    }
  }

  lemma {:induction false} RunsOne(t: Target, s: State, step: Step)
    ensures Runs(t, s, [step]) <==> Enabled(t, s, step)
    ensures Enabled(t, s, step) ==> Final(t, s, [step]) == Apply(t, s, step)
  {
    assert [step][1..] == [];
    if Enabled(t, s, step) { assert Runs(t, Apply(t, s, step), []); }
  }

  // ---------------------------------------------------------------------------
  // Who may commit
  // ---------------------------------------------------------------------------

  /** The worker that claimed the job last, unless the job was released since. */
  function Holder(steps: seq<Step>, job: JobId): Option<WorkerId> {
    if steps == [] then None
    else
      var n := |steps| - 1;
      match steps[n]
      case Claim(id, j, _) => if j == job then Some(id) else Holder(steps[..n], job)
      case Release(j) => if j == job then None else Holder(steps[..n], job)
      case _ => Holder(steps[..n], job)
  }

  lemma {:induction false} LeaseIsLastClaim(t: Target, s: State, steps: seq<Step>, job: JobId)
    requires Initial(s) && Runs(t, s, steps)
    ensures var leases := Final(t, s, steps).db.leases;
            Holder(steps, job) == if job in leases then Some(leases[job]) else None
  {
    if steps != [] {
      var n := |steps| - 1;
      assert steps == steps[..n] + [steps[n]];
      RunsSplit(t, s, steps[..n], [steps[n]]);
      RunsOne(t, Final(t, s, steps[..n]), steps[n]);
      LeaseIsLastClaim(t, s, steps[..n], job);
    }
  }

  /**
   In every interleaving a commit takes effect if and only if nobody else claimed the worker's job after it
   and the job was not released; any other commit leaves the database as it is.
   */
  lemma {:induction false} CommitTakesEffectIff(t: Target, s: State, steps: seq<Step>, id: WorkerId)
    requires Initial(s) && Runs(t, s, steps) && WorkerAt(Final(t, s, steps), id).Ready?
    ensures var before := Final(t, s, steps);
            var w, after := WorkerAt(before, id), Apply(t, before, Commit(id)).db;
            if Holder(steps, w.job) == Some(id) then Stores(before.db, after, t, w.run, w.rows, w.next)
            else after == before.db
  {
    LeaseIsLastClaim(t, s, steps, WorkerAt(Final(t, s, steps), id).job);
  }

  /** What a commit of a run leaves in the database. */
  ghost predicate Stores(before: Db, after: Db, t: Target, run: RunId, rows: set<Row>, next: Option<Checkpoint>) {
    && (forall r :: r in after.raw <==> r in before.raw || r in rows)
    && (forall r :: r in after.matches <==> r in before.matches || r in rows)
    && (forall l :: l in after.links <==> l in before.links || (l.0 == run && l.1 in rows))
    && after.checkpoint == (if next.Some? then next else before.checkpoint)
    && (forall q :: q in after.queued <==> q in before.queued || (q == run && t.isWallet && rows != {}))
    && (forall q :: q in after.completed <==> q in before.completed || q == run)
    && after.leases == before.leases
  }

  // ---------------------------------------------------------------------------
  // One job from claim to commit
  // ---------------------------------------------------------------------------

  /** A step of somebody else that leaves the job's lease alone. */
  predicate Foreign(step: Step, id: WorkerId, job: JobId) {
    match step
    case Claim(i, j, _) => i != id && j != job
    case ReadCursor(i) => i != id
    case Page(i, _, _, _, _) => i != id
    case Fetch(i, _) => i != id
    case Crash(i) => i != id
    case Commit(i) => i != id
    case Release(j) => j != job
    case Grow(_) => true
  }

  predicate Paging(step: Step, id: WorkerId) { step.Page? && step.id == id }

  ghost predicate AllForeign(steps: seq<Step>, id: WorkerId, job: JobId) {
    forall step | step in steps :: Foreign(step, id, job)
  }

  ghost predicate ForeignOrPaging(steps: seq<Step>, id: WorkerId, job: JobId) {
    forall step | step in steps :: Foreign(step, id, job) || Paging(step, id)
  }

  lemma {:induction false} ForeignLeaves(t: Target, s: State, steps: seq<Step>, id: WorkerId, job: JobId)
    requires Runs(t, s, steps) && AllForeign(steps, id, job)
    ensures WorkerAt(Final(t, s, steps), id) == WorkerAt(s, id)
    ensures HoldsLease(Final(t, s, steps).db, job, id) <==> HoldsLease(s.db, job, id)
    decreases |steps|
  {
    if steps != [] {
      assert steps[0] in steps && forall step | step in steps[1..] :: step in steps;
      ForeignLeaves(t, Apply(t, s, steps[0]), steps[1..], id, job);
    }
  }

  lemma {:induction false} PagingLeaves(t: Target, s: State, steps: seq<Step>, id: WorkerId, job: JobId)
    requires Runs(t, s, steps) && ForeignOrPaging(steps, id, job) && WorkerAt(s, id).Resumed?
    ensures var w, v := WorkerAt(s, id), WorkerAt(Final(t, s, steps), id);
            v.Resumed? && v.job == w.job && v.run == w.run && v.cursor == w.cursor
    ensures HoldsLease(Final(t, s, steps).db, job, id) <==> HoldsLease(s.db, job, id)
    decreases |steps|
  {
    if steps != [] {
      assert steps[0] in steps && forall step | step in steps[1..] :: step in steps;
      PagingLeaves(t, Apply(t, s, steps[0]), steps[1..], id, job);
    }
  }

  /** A job: its steps, and the steps of others between them. */
  datatype Job = Job(id: WorkerId, job: JobId, run: RunId, afterClaim: seq<Step>, afterRead: seq<Step>,
                     fetch: FetchKind, afterFetch: seq<Step>)

  /** Nobody else claims or releases the job while it runs. */
  ghost predicate KeepsLease(j: Job) {
    && AllForeign(j.afterClaim, j.id, j.job) && ForeignOrPaging(j.afterRead, j.id, j.job)
    && AllForeign(j.afterFetch, j.id, j.job)
  }

  function ToRead(j: Job): seq<Step> { [Claim(j.id, j.job, j.run)] + j.afterClaim }

  function ToFetch(j: Job): seq<Step> { ToRead(j) + [ReadCursor(j.id)] + j.afterRead }

  function ToCommit(j: Job): seq<Step> { ToFetch(j) + [Fetch(j.id, j.fetch)] + j.afterFetch }

  function Steps(j: Job): seq<Step> { ToCommit(j) + [Commit(j.id)] }

  ghost predicate JobRuns(t: Target, s: State, j: Job) { KeepsLease(j) && Runs(t, s, Steps(j)) }

  lemma {:induction false} JobSplits(t: Target, s: State, j: Job)
    requires Runs(t, s, Steps(j))
    ensures Runs(t, s, ToRead(j)) && Runs(t, s, ToFetch(j)) && Runs(t, s, ToCommit(j))
  {
    RunsSplit(t, s, ToCommit(j), [Commit(j.id)]);
    assert ToCommit(j) == ToFetch(j) + ([Fetch(j.id, j.fetch)] + j.afterFetch);
    RunsSplit(t, s, ToFetch(j), [Fetch(j.id, j.fetch)] + j.afterFetch);
    assert ToFetch(j) == ToRead(j) + ([ReadCursor(j.id)] + j.afterRead);
    RunsSplit(t, s, ToRead(j), [ReadCursor(j.id)] + j.afterRead);
  }

  lemma {:induction false} HeldAtRead(t: Target, s: State, j: Job)
    requires KeepsLease(j) && Runs(t, s, ToRead(j))
    ensures var u := Final(t, s, ToRead(j));
            WorkerAt(u, j.id) == Claimed(j.job, j.run) && HoldsLease(u.db, j.job, j.id)
  {
    var step := Claim(j.id, j.job, j.run);
    RunsSplit(t, s, [step], j.afterClaim);
    RunsOne(t, s, step);
    ForeignLeaves(t, Apply(t, s, step), j.afterClaim, j.id, j.job);
  }

  lemma {:induction false} HeldAtFetch(t: Target, s: State, j: Job)
    requires KeepsLease(j) && Runs(t, s, ToRead(j)) && Runs(t, s, ToFetch(j))
    ensures var u, w := Final(t, s, ToFetch(j)), WorkerAt(Final(t, s, ToFetch(j)), j.id);
            && HoldsLease(u.db, j.job, j.id) && w.Resumed? && w.job == j.job && w.run == j.run
            && w.cursor == Final(t, s, ToRead(j)).db.checkpoint
  {
    var step, u := ReadCursor(j.id), Final(t, s, ToRead(j));
    assert ToFetch(j) == ToRead(j) + ([step] + j.afterRead);
    RunsSplit(t, s, ToRead(j), [step] + j.afterRead);
    RunsSplit(t, u, [step], j.afterRead);
    RunsOne(t, u, step);
    HeldAtRead(t, s, j);
    PagingLeaves(t, Apply(t, u, step), j.afterRead, j.id, j.job);
  }

  lemma {:induction false} HeldAtCommit(t: Target, s: State, j: Job)
    requires JobRuns(t, s, j)
    ensures Runs(t, s, ToRead(j)) && Runs(t, s, ToFetch(j)) && Runs(t, s, ToCommit(j))
    ensures WorkerAt(Final(t, s, ToFetch(j)), j.id).Resumed?
    ensures FetchOk(t, Final(t, s, ToFetch(j)).world, Final(t, s, ToRead(j)).db.checkpoint,
                    WorkerAt(Final(t, s, ToFetch(j)), j.id).windows, j.fetch)
    ensures var u := Final(t, s, ToCommit(j));
            && HoldsLease(u.db, j.job, j.id)
            && WorkerAt(u, j.id) ==
               Ready(j.job, j.run, RowsOf(j.fetch), Proposed(t, Final(t, s, ToRead(j)).db.checkpoint, j.fetch))
  {
    JobSplits(t, s, j);
    HeldAtFetch(t, s, j);
    var step, u := Fetch(j.id, j.fetch), Final(t, s, ToFetch(j));
    assert ToCommit(j) == ToFetch(j) + ([step] + j.afterFetch);
    RunsSplit(t, s, ToFetch(j), [step] + j.afterFetch);
    RunsSplit(t, u, [step], j.afterFetch);
    RunsOne(t, u, step);
    ForeignLeaves(t, Apply(t, u, step), j.afterFetch, j.id, j.job);
  }

  /**
   Whatever other workers do meanwhile: a job that keeps its lease stores all its rows and the checkpoint
   that its fetch proposed from the one it read.
   */
  lemma {:induction false} JobStores(t: Target, s: State, j: Job)
    requires JobRuns(t, s, j)
    ensures Runs(t, s, ToRead(j)) && Runs(t, s, ToCommit(j))
    ensures j.fetch.EvmFetch? ==> 1 <= j.fetch.attempt.limit <= 100_000
    ensures Stores(Final(t, s, ToCommit(j)).db, Final(t, s, Steps(j)).db, t, j.run, RowsOf(j.fetch),
                   Proposed(t, Final(t, s, ToRead(j)).db.checkpoint, j.fetch))
  {
    HeldAtCommit(t, s, j);
    RunsSplit(t, s, ToCommit(j), [Commit(j.id)]);
    RunsOne(t, Final(t, s, ToCommit(j)), Commit(j.id));
  }

  // ---------------------------------------------------------------------------
  // Hyperliquid: every job with events left brings the stored cursor forward
  // ---------------------------------------------------------------------------

  ghost predicate Standing(steps: seq<Step>) { forall step | step in steps :: !step.Grow? }

  /** The windows so far are windows of this history, from the cursor that was read. */
  ghost predicate Served(w: Hl.World, cursor: Hl.Cursor, ws: Windows) {
    forall kind: Hl.Kind | kind in ws ::
      exists limit :: HlPaging.Window(w.History(kind), cursor.Get(kind), limit, Hl.Cap(kind), ws[kind])
  }

  lemma {:induction false} PageServes(t: Target, s: State, step: Step)
    requires step.Page? && Enabled(t, s, step) && WorkerAt(s, step.id).Resumed?
    requires Served(s.world.hl, HlCursor(WorkerAt(s, step.id).cursor), WorkerAt(s, step.id).windows)
    ensures var v := WorkerAt(Apply(t, s, step), step.id);
            v.Resumed? && Served(s.world.hl, HlCursor(v.cursor), v.windows)
  {
    var w := WorkerAt(s, step.id);
    assert HlPaging.Window(s.world.hl.History(step.kind), HlCursor(w.cursor).Get(step.kind), step.limit,
                           Hl.Cap(step.kind), step.window);
  }

  lemma {:induction false} PagesServe(t: Target, s: State, steps: seq<Step>, id: WorkerId, job: JobId)
    requires Runs(t, s, steps) && ForeignOrPaging(steps, id, job) && Standing(steps) && WorkerAt(s, id).Resumed?
    requires Served(s.world.hl, HlCursor(WorkerAt(s, id).cursor), WorkerAt(s, id).windows)
    ensures var end := Final(t, s, steps);
            && end.world == s.world && WorkerAt(end, id).Resumed?
            && Served(s.world.hl, HlCursor(WorkerAt(end, id).cursor), WorkerAt(end, id).windows)
    decreases |steps|
  {
    if steps != [] {
      assert steps[0] in steps && forall step | step in steps[1..] :: step in steps;
      if Paging(steps[0], id) { PageServes(t, s, steps[0]); }
      PagesServe(t, Apply(t, s, steps[0]), steps[1..], id, job);
    }
  }

  lemma {:induction false} ServedAtFetch(t: Target, s: State, j: Job)
    requires KeepsLease(j) && Standing(j.afterRead) && Runs(t, s, ToRead(j)) && Runs(t, s, ToFetch(j))
    ensures var u := Final(t, s, ToFetch(j));
            && WorkerAt(u, j.id).Resumed?
            && Served(u.world.hl, HlCursor(WorkerAt(u, j.id).cursor), WorkerAt(u, j.id).windows)
  {
    var step, u := ReadCursor(j.id), Final(t, s, ToRead(j));
    assert ToFetch(j) == ToRead(j) + ([step] + j.afterRead);
    RunsSplit(t, s, ToRead(j), [step] + j.afterRead);
    RunsSplit(t, u, [step], j.afterRead);
    RunsOne(t, u, step);
    HeldAtRead(t, s, j);
    PagesServe(t, Apply(t, u, step), j.afterRead, j.id, j.job);
  }

  /** A completed batch of such windows leaves fewer events, unless none were left. */
  lemma {:induction false} CompletionAdvances(w: Hl.World, cursor: Hl.Cursor, ws: Windows, batch: Hl.Batch)
    requires Hl.ValidWorld(w) && Hl.ValidCursors(cursor) && Served(w, cursor, ws) && Hl.Completes(cursor, ws, batch)
    ensures Hl.ValidCursors(batch.next)
    ensures Falls(Hl.Left(w, cursor), Hl.Left(w, batch.next))
  {
    CursorsAdvance(w, cursor, ws, batch);
    StreamAdvances(w, cursor, ws, batch, Hl.Fill);
    StreamAdvances(w, cursor, ws, batch, Hl.Funding);
    StreamAdvances(w, cursor, ws, batch, Hl.LedgerUpdate);
    LeftFalls(Hl.LeftOf(w, cursor, Hl.Fill), Hl.LeftOf(w, cursor, Hl.Funding), Hl.LeftOf(w, cursor, Hl.LedgerUpdate),
              Hl.LeftOf(w, batch.next, Hl.Fill), Hl.LeftOf(w, batch.next, Hl.Funding),
              Hl.LeftOf(w, batch.next, Hl.LedgerUpdate));
  }

  lemma {:induction false} CursorsAdvance(w: Hl.World, cursor: Hl.Cursor, ws: Windows, batch: Hl.Batch)
    requires Hl.ValidWorld(w) && Hl.ValidCursors(cursor) && Served(w, cursor, ws) && Hl.Completes(cursor, ws, batch)
    ensures Hl.ValidCursors(batch.next)
  {
    forall kind: Hl.Kind ensures HlPaging.ValidCursor(batch.next.Get(kind)) {
      StreamAdvances(w, cursor, ws, batch, kind);
    }
  }

  ghost predicate Falls(before: nat, after: nat) { if before == 0 then after == 0 else after < before }

  lemma LeftFalls(a: nat, b: nat, c: nat, a': nat, b': nat, c': nat)
    requires Falls(a, a') && Falls(b, b') && Falls(c, c')
    ensures Falls(a + b + c, a' + b' + c')
  {
  }

  lemma {:induction false} StreamAdvances(w: Hl.World, cursor: Hl.Cursor, ws: Windows, batch: Hl.Batch, kind: Hl.Kind)
    requires Hl.ValidWorld(w) && Hl.ValidCursors(cursor) && Served(w, cursor, ws) && Hl.Completes(cursor, ws, batch)
    ensures HlPaging.ValidCursor(batch.next.Get(kind))
    ensures Falls(Hl.LeftOf(w, cursor, kind), Hl.LeftOf(w, batch.next, kind))
  {
    var history, at := w.History(kind), cursor.Get(kind);
    assert HlPaging.ValidHistory(history) && HlPaging.ValidCursor(at);
    assert kind in ws && batch.next.Get(kind) == HlPaging.NextCursor(at, ws[kind]);
    var limit :| HlPaging.Window(history, at, limit, Hl.Cap(kind), ws[kind]);
    HlPaging.WindowDrains(history, at, limit, Hl.Cap(kind), ws[kind]);
  }

  /**
   A Hyperliquid job that keeps its lease, whatever other workers do meanwhile: of the history it fetched,
   the checkpoint it stores leaves strictly fewer events than the one it read, unless none were left.
   */
  lemma {:induction false} HlJobAdvances(t: Target, s: State, j: Job)
    requires t.family.Hyperliquid? && Safe(t, s) && CursorsValid(s) && JobRuns(t, s, j) && Standing(j.afterRead)
    ensures Runs(t, s, ToRead(j)) && Runs(t, s, ToFetch(j))
    ensures var w := Final(t, s, ToFetch(j)).world.hl;
            var before := HlCursor(Final(t, s, ToRead(j)).db.checkpoint);
            var after := HlCursor(Final(t, s, Steps(j)).db.checkpoint);
            && Hl.ValidCursors(after)
            && (Hl.Left(w, before) > 0 ==> Hl.Left(w, after) < Hl.Left(w, before))
            && (Hl.Left(w, before) == 0 ==> Hl.Left(w, after) == 0)
  {
    HeldAtCommit(t, s, j);
    JobStores(t, s, j);
    HeldAtFetch(t, s, j);
    ServedAtFetch(t, s, j);
    RunKeepsSafe(t, s, ToFetch(j));
    RunKeepsCursors(t, s, ToRead(j));
    var u := Final(t, s, ToFetch(j));
    var w := WorkerAt(u, j.id);
    CompletionAdvances(u.world.hl, HlCursor(w.cursor), w.windows, j.fetch.batch);
  }

  // A backfill answered by the provider is such a job

  /** One more step at the end of a run. */
  lemma {:induction false} RunsOn(t: Target, s: State, steps: seq<Step>, step: Step)
    requires Runs(t, s, steps) && Enabled(t, Final(t, s, steps), step)
    ensures Runs(t, s, steps + [step]) && Final(t, s, steps + [step]) == Apply(t, Final(t, s, steps), step)
  {
    RunsOne(t, Final(t, s, steps), step);
    RunsJoin(t, s, steps, [step]);
  }

  /** From `s` to `u` one worker claimed a job and read the cursor; nothing else moved. */
  ghost predicate UnderWay(s: State, u: State, id: WorkerId, job: JobId, run: RunId, ws: Windows) {
    && u.world == s.world && u.db == s.db.(leases := s.db.leases[job := id])
    && WorkerAt(u, id) == Resumed(job, run, s.db.checkpoint, ws)
  }

  ghost predicate Next(t: Target, s: State, step: Step, u: State) { Enabled(t, s, step) && u == Apply(t, s, step) }

  lemma {:induction false} ClaimAndRead(t: Target, s: State, id: WorkerId, job: JobId, run: RunId)
      returns (u: State, v: State)
    requires WorkerAt(s, id).Idle?
    ensures Next(t, s, Claim(id, job, run), u) && Next(t, u, ReadCursor(id), v)
    ensures UnderWay(s, v, id, job, run, map[])
  {
    u := Apply(t, s, Claim(id, job, run));
    v := Apply(t, u, ReadCursor(id));
  }

  ghost predicate PageAnswers(s: State, limit: nat, kind: Hl.Kind, page: seq<Value>, window: seq<Value>) {
    var start := HlPaging.Resume(HlCursor(s.db.checkpoint).Get(kind));
    && HlPaging.Faithful(s.world.hl.History(kind), start, Hl.PageSize(kind), page)
    && IsWindow(page, start, limit, Hl.Cap(kind), Ok(window))
  }

  lemma {:induction false} PageOn(t: Target, s: State, u: State, id: WorkerId, job: JobId, run: RunId,
                                  ws: Windows, limit: nat, kind: Hl.Kind, page: seq<Value>, window: seq<Value>)
      returns (v: State)
    requires t.family.Hyperliquid? && UnderWay(s, u, id, job, run, ws) && kind !in ws
    requires PageAnswers(s, limit, kind, page, window)
    ensures Next(t, u, Page(id, kind, limit, page, window), v)
    ensures UnderWay(s, v, id, job, run, ws[kind := window])
  {
    v := Apply(t, u, Page(id, kind, limit, page, window));
  }

  lemma {:induction false} FetchAndCommit(t: Target, s: State, u: State, id: WorkerId, job: JobId, run: RunId,
                                          ws: Windows, batch: Hl.Batch) returns (v: State, w: State)
    requires t.family.Hyperliquid? && UnderWay(s, u, id, job, run, ws)
    requires Hl.Completes(HlCursor(s.db.checkpoint), ws, batch)
    ensures Next(t, u, Fetch(id, HlFetch(batch)), v) && Next(t, v, Commit(id), w)
    ensures w.db.checkpoint == Some(HlAt(batch.next))
  {
    v := Apply(t, u, Fetch(id, HlFetch(batch)));
    w := Apply(t, v, Commit(id));
  }

  lemma {:induction false} RunsNext(t: Target, s: State, steps: seq<Step>, u: State, step: Step, v: State)
    requires Runs(t, s, steps) && u == Final(t, s, steps) && Next(t, u, step, v)
    ensures Runs(t, s, steps + [step]) && Final(t, s, steps + [step]) == v
  {
    RunsOn(t, s, steps, step);
  }

  ghost predicate PageIn(s: State, limit: nat, pages: Windows, ws: Windows, kind: Hl.Kind) {
    kind in pages && kind in ws && PageAnswers(s, limit, kind, pages[kind], ws[kind])
  }

  /** The three answers, and the batch made of their windows. */
  ghost predicate Backfilled(s: State, limit: nat, pages: Windows, ws: Windows, batch: Hl.Batch) {
    && (forall kind: Hl.Kind :: PageIn(s, limit, pages, ws, kind))
    && Hl.Completes(HlCursor(s.db.checkpoint), ws, batch)
  }

  lemma {:induction false} AllWindows(ws: Windows)
    requires forall kind: Hl.Kind :: kind in ws
    ensures ws == map[][Hl.Fill := ws[Hl.Fill]][Hl.Funding := ws[Hl.Funding]][Hl.LedgerUpdate := ws[Hl.LedgerUpdate]]
  {
    var all := map[][Hl.Fill := ws[Hl.Fill]][Hl.Funding := ws[Hl.Funding]][Hl.LedgerUpdate := ws[Hl.LedgerUpdate]];
    forall kind: Hl.Kind ensures kind in all && all[kind] == ws[kind] {
      match kind { case Fill => case Funding => case LedgerUpdate => }
    }
  }

  lemma {:induction false} TwoRun(t: Target, s: State, x: Step, a: State, y: Step, b: State)
    requires Next(t, s, x, a) && Next(t, a, y, b)
    ensures Runs(t, s, [x, y]) && Final(t, s, [x, y]) == b
  {
    RunsOne(t, s, x);
    RunsNext(t, s, [x], a, y, b);
    assert [x] + [y] == [x, y];
  }

  ghost predicate AllPaging(steps: seq<Step>, id: WorkerId) { forall step | step in steps :: Paging(step, id) }

  /** One more page of a worker under way. */
  lemma {:induction false} PageMore(t: Target, s: State, u: State, steps: seq<Step>, id: WorkerId, job: JobId,
                                    run: RunId, ws: Windows, limit: nat, kind: Hl.Kind, page: seq<Value>,
                                    window: seq<Value>) returns (more: seq<Step>)
    requires t.family.Hyperliquid? && Runs(t, u, steps) && AllPaging(steps, id)
    requires UnderWay(s, Final(t, u, steps), id, job, run, ws) && kind !in ws
    requires PageAnswers(s, limit, kind, page, window)
    ensures Runs(t, u, more) && AllPaging(more, id)
    ensures UnderWay(s, Final(t, u, more), id, job, run, ws[kind := window])
  {
    var v := PageOn(t, s, Final(t, u, steps), id, job, run, ws, limit, kind, page, window);
    var step := Page(id, kind, limit, page, window);
    RunsNext(t, u, steps, Final(t, u, steps), step, v);
    more := steps + [step];
  }

  lemma {:induction false} PagesRun(t: Target, s: State, u: State, id: WorkerId, job: JobId, run: RunId, limit: nat,
                                    pages: Windows, ws: Windows) returns (steps: seq<Step>)
    requires t.family.Hyperliquid? && UnderWay(s, u, id, job, run, map[])
    requires forall kind: Hl.Kind :: PageIn(s, limit, pages, ws, kind)
    ensures Runs(t, u, steps) && AllPaging(steps, id) && UnderWay(s, Final(t, u, steps), id, job, run, ws)
  {
    assert PageIn(s, limit, pages, ws, Hl.Fill) && PageIn(s, limit, pages, ws, Hl.Funding)
           && PageIn(s, limit, pages, ws, Hl.LedgerUpdate);
    var one := map[][Hl.Fill := ws[Hl.Fill]];
    var two := one[Hl.Funding := ws[Hl.Funding]];
    forall kind: Hl.Kind ensures kind in ws { assert PageIn(s, limit, pages, ws, kind); }
    AllWindows(ws);
    steps := PageMore(t, s, u, [], id, job, run, map[], limit, Hl.Fill, pages[Hl.Fill], ws[Hl.Fill]);
    steps := PageMore(t, s, u, steps, id, job, run, one, limit, Hl.Funding, pages[Hl.Funding], ws[Hl.Funding]);
    steps := PageMore(t, s, u, steps, id, job, run, two, limit, Hl.LedgerUpdate, pages[Hl.LedgerUpdate],
                      ws[Hl.LedgerUpdate]);
  }

  lemma {:induction false} JobJoins(t: Target, j: Job, s: State, claimed: State, u: State, v: State, ready: State,
                                    w: State)
    requires j.afterClaim == [] && j.afterFetch == []
    requires Next(t, s, Claim(j.id, j.job, j.run), claimed) && Next(t, claimed, ReadCursor(j.id), u)
    requires Runs(t, u, j.afterRead) && Final(t, u, j.afterRead) == v
    requires Next(t, v, Fetch(j.id, j.fetch), ready) && Next(t, ready, Commit(j.id), w)
    ensures Runs(t, s, Steps(j)) && Final(t, s, Steps(j)) == w
  {
    var start, end := [Claim(j.id, j.job, j.run), ReadCursor(j.id)], [Fetch(j.id, j.fetch), Commit(j.id)];
    TwoRun(t, s, Claim(j.id, j.job, j.run), claimed, ReadCursor(j.id), u);
    TwoRun(t, v, Fetch(j.id, j.fetch), ready, Commit(j.id), w);
    RunsJoin(t, s, start, j.afterRead);
    RunsJoin(t, s, start + j.afterRead, end);
    assert Steps(j) == start + j.afterRead + end;
  }

  /** Three answers are a job that can run from claim to commit: it stores the cursor of its batch. */
  lemma {:induction false} AnswersAreJob(t: Target, s: State, id: WorkerId, job: JobId, run: RunId, limit: nat,
                                         pages: Windows, ws: Windows, batch: Hl.Batch) returns (j: Job)
    requires t.family.Hyperliquid? && WorkerAt(s, id).Idle? && Backfilled(s, limit, pages, ws, batch)
    ensures j.id == id && j.job == job && j.run == run && j.fetch == HlFetch(batch)
    ensures Standing(j.afterRead) && JobRuns(t, s, j)
    ensures Final(t, s, Steps(j)).db.checkpoint == Some(HlAt(batch.next))
  {
    var claimed, u := ClaimAndRead(t, s, id, job, run);
    var paging := PagesRun(t, s, u, id, job, run, limit, pages, ws);
    var v := Final(t, u, paging);
    var ready, w := FetchAndCommit(t, s, v, id, job, run, ws, batch);
    j := Job(id, job, run, [], paging, HlFetch(batch), []);
    JobJoins(t, j, s, claimed, u, v, ready, w);
  }

  function PageFor(cursor: Hl.Cursor, provider: Hl.Provider, kind: Hl.Kind): seq<Value> {
    var page := provider(kind, HlPaging.Resume(cursor.Get(kind)));
    if page.Ok? then page.value else []
  }

  function PagesFor(cursor: Hl.Cursor, provider: Hl.Provider): Windows {
    map[Hl.Fill := PageFor(cursor, provider, Hl.Fill), Hl.Funding := PageFor(cursor, provider, Hl.Funding),
        Hl.LedgerUpdate := PageFor(cursor, provider, Hl.LedgerUpdate)]
  }

  lemma {:induction false} AnswerIn(s: State, limit: nat, provider: Hl.Provider, ws: Windows, kind: Hl.Kind)
    requires Hl.Answers(s.world.hl, HlCursor(s.db.checkpoint), provider)
    requires Hl.Answered(HlCursor(s.db.checkpoint), limit, provider, ws, kind)
    ensures PageIn(s, limit, PagesFor(HlCursor(s.db.checkpoint), provider), ws, kind)
  {
    var start := HlPaging.Resume(HlCursor(s.db.checkpoint).Get(kind));
    assert HlPaging.Faithful(s.world.hl.History(kind), start, Hl.PageSize(kind), provider(kind, start).value);
    match kind { case Fill => case Funding => case LedgerUpdate => }
  }

  lemma {:induction false} BackfillAnswers(s: State, limit: nat, provider: Hl.Provider, batch: Hl.Batch)
      returns (pages: Windows, ws: Windows)
    requires Hl.Answers(s.world.hl, HlCursor(s.db.checkpoint), provider)
    requires forall kind :: Hl.StreamAdvanced(HlCursor(s.db.checkpoint), limit, provider, batch, kind)
    ensures Backfilled(s, limit, pages, ws, batch)
  {
    ws := Hl.BackfillCompletes(HlCursor(s.db.checkpoint), limit, provider, batch);
    pages := PagesFor(HlCursor(s.db.checkpoint), provider);
    forall kind: Hl.Kind ensures PageIn(s, limit, pages, ws, kind) { AnswerIn(s, limit, provider, ws, kind); }
  }

  /**
   A wallet backfill against the provider's answers, as its own contract describes it, is a job that can run
   from claim to commit.
   */
  lemma {:induction false} BackfillIsJob(t: Target, s: State, id: WorkerId, job: JobId, run: RunId, limit: nat,
                                         provider: Hl.Provider, batch: Hl.Batch) returns (j: Job)
    requires t.family.Hyperliquid? && WorkerAt(s, id).Idle?
    requires Hl.Answers(s.world.hl, HlCursor(s.db.checkpoint), provider)
    requires forall kind :: Hl.StreamAdvanced(HlCursor(s.db.checkpoint), limit, provider, batch, kind)
    ensures j.id == id && j.job == job && j.run == run && j.fetch == HlFetch(batch)
    ensures Standing(j.afterRead) && JobRuns(t, s, j)
    ensures Final(t, s, Steps(j)).db.checkpoint == Some(HlAt(batch.next))
  {
    var pages, ws := BackfillAnswers(s, limit, provider, batch);
    j := AnswersAreJob(t, s, id, job, run, limit, pages, ws, batch);
  }

  /** Against a history with events left, the stored cursor then leaves strictly fewer. */
  lemma {:induction false} BackfillJobAdvances(t: Target, s: State, id: WorkerId, job: JobId, run: RunId, limit: nat,
                                               provider: Hl.Provider, batch: Hl.Batch) returns (j: Job)
    requires t.family.Hyperliquid? && WorkerAt(s, id).Idle? && ValidWorld(s.world) && CursorsValid(s)
    requires Hl.Answers(s.world.hl, HlCursor(s.db.checkpoint), provider)
    requires forall kind :: Hl.StreamAdvanced(HlCursor(s.db.checkpoint), limit, provider, batch, kind)
    ensures JobRuns(t, s, j) && j.id == id && j.job == job && j.run == run
    ensures var before := Hl.Left(s.world.hl, HlCursor(s.db.checkpoint));
            var after := Hl.Left(s.world.hl, HlCursor(Final(t, s, Steps(j)).db.checkpoint));
            if before == 0 then after == 0 else after < before
  {
    j := BackfillIsJob(t, s, id, job, run, limit, provider, batch);
    RunFalls(s.world.hl, HlCursor(s.db.checkpoint), limit, provider, batch);
  }

  lemma {:induction false} RunFalls(w: Hl.World, cursor: Hl.Cursor, limit: nat, provider: Hl.Provider, batch: Hl.Batch)
    requires Hl.ValidWorld(w) && Hl.ValidCursors(cursor) && Hl.Answers(w, cursor, provider)
    requires forall kind :: Hl.StreamAdvanced(cursor, limit, provider, batch, kind)
    ensures Falls(Hl.Left(w, cursor), Hl.Left(w, batch.next))
  {
    Hl.RunDrains(w, cursor, limit, provider, batch);
    RunLeaves(w, cursor, limit, provider, batch);
  }

  lemma {:induction false} RunLeaves(w: Hl.World, cursor: Hl.Cursor, limit: nat, provider: Hl.Provider, batch: Hl.Batch)
    requires Hl.ValidWorld(w) && Hl.ValidCursors(cursor) && Hl.Answers(w, cursor, provider)
    requires forall kind :: Hl.StreamAdvanced(cursor, limit, provider, batch, kind)
    ensures Hl.Left(w, batch.next) <= Hl.Left(w, cursor)
  {
    Hl.StreamDrains(w, cursor, limit, provider, batch, Hl.Fill);
    Hl.StreamDrains(w, cursor, limit, provider, batch, Hl.Funding);
    Hl.StreamDrains(w, cursor, limit, provider, batch, Hl.LedgerUpdate);
  }

  // ---------------------------------------------------------------------------
  // Stored and held Hyperliquid cursors are times of events
  // ---------------------------------------------------------------------------

  ghost predicate ValidTimes(ws: Windows) {
    forall kind: Hl.Kind | kind in ws && ws[kind] != [] :: 0 <= LastTime(ws[kind]) < I64_MAX
  }

  ghost predicate WorkerValid(w: Worker) {
    && (w.Resumed? ==> Hl.ValidCursors(HlCursor(w.cursor)) && ValidTimes(w.windows))
    && (w.Ready? ==> Hl.ValidCursors(HlCursor(w.next)))
  }

  ghost predicate CursorsValid(s: State) {
    Hl.ValidCursors(HlCursor(s.db.checkpoint)) && forall id | id in s.workers :: WorkerValid(s.workers[id])
  }

  lemma {:induction false} PageIsValid(t: Target, s: State, step: Step)
    requires step.Page? && Enabled(t, s, step) && ValidWorld(s.world) && WorkerValid(WorkerAt(s, step.id))
    ensures WorkerValid(WorkerAt(Apply(t, s, step), step.id))
  {
    var history := s.world.hl.History(step.kind);
    assert HlPaging.ValidHistory(history);
    assert HlPaging.Window(history, HlCursor(WorkerAt(s, step.id).cursor).Get(step.kind), step.limit,
                           Hl.Cap(step.kind), step.window);
    if step.window != [] {
      HlPaging.LastIsRemaining(history, HlCursor(WorkerAt(s, step.id).cursor).Get(step.kind), step.limit,
                               Hl.Cap(step.kind), step.window);
    }
  }

  lemma {:induction false} FetchIsValid(t: Target, s: State, id: WorkerId, f: FetchKind)
    requires Enabled(t, s, Fetch(id, f)) && WorkerValid(WorkerAt(s, id))
    ensures WorkerValid(WorkerAt(Apply(t, s, Fetch(id, f)), id))
  {
    var w := WorkerAt(s, id);
    if t.family.Hyperliquid? {
      forall kind: Hl.Kind ensures HlPaging.ValidCursor(f.batch.next.Get(kind)) {
        assert HlPaging.ValidCursor(HlCursor(w.cursor).Get(kind)) && kind in w.windows;
      }
    }
  }

  lemma {:induction false} StepKeepsCursors(t: Target, s: State, step: Step)
    requires ValidWorld(s.world) && CursorsValid(s) && Enabled(t, s, step)
    ensures CursorsValid(Apply(t, s, step)) && ValidWorld(Apply(t, s, step).world)
  {
    match step
    case Page(_, _, _, _, _) => PageIsValid(t, s, step);
    case Fetch(id, f) => FetchIsValid(t, s, id, f);
    case _ =>
  }

  /** From the start, every cursor that is stored or held is a time of an event. */
  lemma {:induction false} RunKeepsCursors(t: Target, s: State, steps: seq<Step>)
    requires ValidWorld(s.world) && CursorsValid(s) && Runs(t, s, steps)
    ensures CursorsValid(Final(t, s, steps))
    decreases |steps|
  {
    if steps != [] {
      StepKeepsCursors(t, s, steps[0]);
      RunKeepsCursors(t, Apply(t, s, steps[0]), steps[1..]);
    }
  }

  // ---------------------------------------------------------------------------
  // Solana and EVM jobs
  // ---------------------------------------------------------------------------

  /**
   A Solana backfill that keeps its lease takes its limit from what was left of the history it fetched, and
   stores the flag exactly if that was less; an incremental job stores the newest signature as its head.
   */
  lemma {:induction false} SolJobAdvances(t: Target, s: State, j: Job)
    requires t.family.Solana? && Safe(t, s) && JobRuns(t, s, j)
    ensures j.fetch.SolFetch? && Runs(t, s, ToRead(j)) && Runs(t, s, ToFetch(j))
    ensures var h := Final(t, s, ToFetch(j)).world.sol;
            var before := SolCursor(Final(t, s, ToRead(j)).db.checkpoint);
            var after := SolCursor(Final(t, s, Steps(j)).db.checkpoint);
            && Sol.Known(h, before.before) && Sol.Known(h, after.before)
            && (!j.fetch.incremental ==>
                  && Sol.Older(h, after) == Sol.Older(h, before)[|Sol.Take(Sol.Older(h, before), j.fetch.limit)|..]
                  && (after.exhausted <==> |Sol.Older(h, before)| < j.fetch.limit))
            && (j.fetch.incremental && h != [] ==> after.head == Some(h[0]) && after.exhausted == before.exhausted)
  {
    HeldAtCommit(t, s, j);
    JobStores(t, s, j);
    RunKeepsSafe(t, s, ToFetch(j));
    var u := Final(t, s, ToFetch(j));
    var w, h := WorkerAt(u, j.id), u.world.sol;
    HeldAtFetch(t, s, j);
    assert WorkerSound(t, u, w) && w.windows == map[] && u.db.matches + HeldRows(w) == u.db.matches;
    if j.fetch.incremental {
      Sol.NextInterval(h, SolCursor(w.cursor), true, j.fetch.limit, j.fetch.listing, SolRows(u.db.matches));
    } else {
      Sol.BackfillTakes(h, SolCursor(w.cursor), j.fetch.limit, j.fetch.listing);
    }
  }

  /** The block after the checkpoint, or the start block. */
  function NextBlock(t: Target, c: Option<Evm.Cursor>): nat
    requires t.startBlock.Some? && (c.Some? ==> Evm.StoredBlock(c))
  {
    if c.Some? then c.value.lastBlock.value + 1 else t.startBlock.value
  }

  /**
   An EVM job that keeps its lease scans on from the checkpoint it read: as many blocks as its limit, but
   not past the twelfth block below the reported head. With nothing to scan the checkpoint stays.
   */
  lemma {:induction false} EvmJobAdvances(t: Target, s: State, j: Job)
    requires t.family.EvmChain? && t.startBlock.Some? && Safe(t, s) && JobRuns(t, s, j)
    ensures j.fetch.EvmFetch? && Runs(t, s, ToRead(j)) && Runs(t, s, ToCommit(j))
    ensures var read := EvmCursor(Final(t, s, ToRead(j)).db.checkpoint);
            var unread := EvmCursor(Final(t, s, ToCommit(j)).db.checkpoint);
            var after := EvmCursor(Final(t, s, Steps(j)).db.checkpoint);
            && (read.Some? ==> Evm.StoredBlock(read))
            && var from, head := NextBlock(t, read), Evm.Twelfth(j.fetch.attempt.reported);
               && (head < from ==> after == unread)
               && (from <= head ==>
                     after == Evm.At(if head < from + j.fetch.attempt.limit then head
                                     else Evm.SaturatingSub(from + j.fetch.attempt.limit, 1)))
  {
    HeldAtCommit(t, s, j);
    JobStores(t, s, j);
    RunKeepsSafe(t, s, ToRead(j));
  }
}
