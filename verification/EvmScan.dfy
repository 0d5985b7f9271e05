/** EVM scanning: bounded block windows behind a confirmed head, chunk loops, and the wallet merge. */
module EvmScan {
  import opened Common

  const U64_MAX: nat := 0xffff_ffff_ffff_ffff
  const CONFIRMATIONS: nat := 12
  const NATIVE_TX_BLOCK_CHUNK: nat := 50

  type U64 = x: int | 0 <= x <= U64_MAX

  function SaturatingAdd(a: U64, b: nat): U64 { if a + b > U64_MAX then U64_MAX else a + b }

  function SaturatingSub(a: nat, b: nat): nat { if a < b then 0 else a - b }

  /** The cursor JSON: `last_block` of a checkpoint, or `from_block` of the target's filter. */
  datatype Cursor = Cursor(lastBlock: Option<int>, fromBlock: Option<U64>)

  function ConfirmedHead(reported: U64): U64 { SaturatingSub(reported, CONFIRMATIONS) }

  function DefaultFromBlock(head: U64, limit: nat): U64 { SaturatingSub(head, SaturatingSub(limit, 1)) }

  /** A negative `last_block` is not a block; every other one resumes right after it. */
  function CursorToFromBlock(cursor: Option<Cursor>, head: U64, limit: nat): U64 {
    if cursor.Some? && cursor.value.lastBlock.Some? && 0 <= cursor.value.lastBlock.value <= U64_MAX then
      SaturatingAdd(cursor.value.lastBlock.value, 1)
    else if cursor.Some? && cursor.value.fromBlock.Some? then cursor.value.fromBlock.value
    else DefaultFromBlock(head, limit)
  }

  /** The target's start block seeds only scans without a checkpoint. */
  function EffectiveCursor(checkpoint: Option<Cursor>, startBlock: Option<U64>): Option<Cursor> {
    if checkpoint.Some? then checkpoint
    else if startBlock.Some? then Some(Cursor(None, startBlock))
    else None
  }

  datatype Window = Window(from: U64, end: U64)

  function ScanWindow(cursor: Option<Cursor>, limit: nat, reported: U64): Result<Window> {
    if !(1 <= limit <= 100_000) then Err("EVM block limit must be 1-100000")
    else
      var head := ConfirmedHead(reported);
      var from := CursorToFromBlock(cursor, head, limit);
      var last := SaturatingAdd(from, limit - 1);
      Ok(Window(from, if head < last then head else last))
  }

  /** An empty window writes no checkpoint. */
  function NextCheckpoint(checkpoint: Option<Cursor>, w: Window): Option<Cursor> {
    if w.from <= w.end then Some(Cursor(Some(w.end), None)) else checkpoint
  }

  // ---------------------------------------------------------------------------
  // Runs
  // ---------------------------------------------------------------------------

  function Blocks(from: int, to: int): seq<int> {
    if from <= to then seq(to - from + 1, i => from + i) else []
  }

  lemma {:induction false} BlocksSplit(from: int, mid: int, to: int)
    requires from <= mid + 1 && mid <= to
    ensures Blocks(from, mid) + Blocks(mid + 1, to) == Blocks(from, to)
  {
  }

  datatype Attempt = Attempt(limit: nat, reported: U64)

  ghost predicate ValidAttempts(attempts: seq<Attempt>) { forall a | a in attempts :: 1 <= a.limit <= 100_000 }

  function WindowOf(checkpoint: Option<Cursor>, start: Option<U64>, a: Attempt): Window
    requires 1 <= a.limit <= 100_000
  {
    ScanWindow(EffectiveCursor(checkpoint, start), a.limit, a.reported).value
  }

  function Checkpoint(start: Option<U64>, attempts: seq<Attempt>): Option<Cursor>
    requires ValidAttempts(attempts)
  {
    if attempts == [] then None
    else
      var n := |attempts| - 1;
      assert attempts[n] in attempts;
      var earlier := Checkpoint(start, attempts[..n]);
      NextCheckpoint(earlier, WindowOf(earlier, start, attempts[n]))
  }

  /** All blocks scanned by a sequence of runs, in scan order. */
  function Scanned(start: Option<U64>, attempts: seq<Attempt>): seq<int>
    requires ValidAttempts(attempts)
  {
    if attempts == [] then []
    else
      var n := |attempts| - 1;
      assert attempts[n] in attempts;
      var w := WindowOf(Checkpoint(start, attempts[..n]), start, attempts[n]);
      Scanned(start, attempts[..n]) + Blocks(w.from, w.end)
  }

  ghost predicate StoredBlock(c: Option<Cursor>) {
    c.Some? && c.value.lastBlock.Some? && 0 <= c.value.lastBlock.value <= U64_MAX - CONFIRMATIONS
  }

  /** The window a run scans: right after the checkpoint, or from the start block while there is none. */
  lemma {:induction false} WindowStart(checkpoint: Option<Cursor>, start: Option<U64>, a: Attempt)
    requires 1 <= a.limit <= 100_000 && (checkpoint.Some? ==> StoredBlock(checkpoint))
    ensures var w := WindowOf(checkpoint, start, a);
            && (checkpoint.Some? ==> w.from == checkpoint.value.lastBlock.value + 1)
            && (checkpoint.None? && start.Some? ==> w.from == start.value)
            && (checkpoint.None? && start.None? ==> w.from <= w.end == ConfirmedHead(a.reported))
            && w.end <= ConfirmedHead(a.reported) <= U64_MAX - CONFIRMATIONS
            && w.end < w.from + a.limit
  {
  }

  /** The scanned blocks are one interval, from the start block if there is one, up to the checkpoint. */
  ghost predicate Contiguous(start: Option<U64>, scanned: seq<int>, c: Option<Cursor>) {
    if c.None? then scanned == []
    else StoredBlock(c) && exists first: nat ::
           scanned == Blocks(first, c.value.lastBlock.value) && first <= c.value.lastBlock.value &&
             (start.Some? ==> first == start.value)
  }

  lemma {:induction false} ContiguousStep(start: Option<U64>, scanned: seq<int>, c: Option<Cursor>, a: Attempt)
    requires 1 <= a.limit <= 100_000 && Contiguous(start, scanned, c)
    ensures var w := WindowOf(c, start, a);
            Contiguous(start, scanned + Blocks(w.from, w.end), NextCheckpoint(c, w))
  {
    var w := WindowOf(c, start, a);
    WindowStart(c, start, a);
    if w.from > w.end {
      assert scanned + Blocks(w.from, w.end) == scanned;
    } else if c.None? {
      assert scanned + Blocks(w.from, w.end) == Blocks(w.from, w.end);
    } else {
      var first: nat :| scanned == Blocks(first, c.value.lastBlock.value) && first <= c.value.lastBlock.value &&
        (start.Some? ==> first == start.value);
      BlocksSplit(first, c.value.lastBlock.value, w.end);
    }
  }

  /** Whatever heads the provider reports and whatever the limits, the scanned blocks stay one contiguous interval. */
  lemma {:induction false} ScanIsContiguous(start: Option<U64>, attempts: seq<Attempt>)
    requires ValidAttempts(attempts)
    ensures Contiguous(start, Scanned(start, attempts), Checkpoint(start, attempts))
  {
    if attempts != [] {
      var n := |attempts| - 1;
      assert attempts[n] in attempts;
      assert ValidAttempts(attempts[..n]) by { assert forall x | x in attempts[..n] :: x in attempts; }
      ScanIsContiguous(start, attempts[..n]);
      ContiguousStep(start, Scanned(start, attempts[..n]), Checkpoint(start, attempts[..n]), attempts[n]);
    }
  }

  /** Every run either leaves the checkpoint alone or raises it strictly, never past the reported head minus 12. */
  lemma {:induction false} CheckpointRises(checkpoint: Option<Cursor>, start: Option<U64>, a: Attempt)
    requires 1 <= a.limit <= 100_000 && (checkpoint.Some? ==> StoredBlock(checkpoint))
    ensures var d := NextCheckpoint(checkpoint, WindowOf(checkpoint, start, a));
            || d == checkpoint
            || (&& StoredBlock(d)
                && d.value.lastBlock.value <= ConfirmedHead(a.reported)
                && (checkpoint.Some? ==> checkpoint.value.lastBlock.value < d.value.lastBlock.value))
  {
    WindowStart(checkpoint, start, a);
  }

  // ---------------------------------------------------------------------------
  // How far scans get while the head stands still
  // ---------------------------------------------------------------------------

  /** The last block with twelve on top of it, or the genesis block. */
  function Twelfth(reported: U64): nat { if reported < 12 then 0 else reported - 12 }

  function Limits(attempts: seq<Attempt>): nat {
    if attempts == [] then 0 else Limits(attempts[..|attempts| - 1]) + attempts[|attempts| - 1].limit
  }

  function At(block: nat): Option<Cursor> { Some(Cursor(Some(block), None)) }

  /** Where scans of a chain with this head have arrived: never short of their limits, and never past the head. */
  function Reached(start: Option<U64>, head: nat, limits: nat): Option<Cursor> {
    if start.None? then At(head)
    else if head < start.value then None
    else if head < start.value + limits then At(head)
    else At(SaturatingSub(start.value + limits, 1))
  }

  /** Without checkpoint and start block, the first window is the `limit` blocks up to the head, or all there are. */
  lemma {:induction false} FirstWindow(a: Attempt)
    requires 1 <= a.limit <= 100_000
    ensures var w, head := WindowOf(None, None, a), Twelfth(a.reported);
            w.end == head && w.from == if head + 1 <= a.limit then 0 else head + 1 - a.limit
  {
  }

  lemma {:induction false} NextReached(start: Option<U64>, a: Attempt, limits: nat)
    requires 1 <= a.limit <= 100_000 && 0 < limits
    ensures var c := Reached(start, Twelfth(a.reported), limits);
            NextCheckpoint(c, WindowOf(c, start, a)) == Reached(start, Twelfth(a.reported), limits + a.limit)
  {
  }

  lemma {:induction false} FirstReached(start: Option<U64>, a: Attempt)
    requires 1 <= a.limit <= 100_000
    ensures NextCheckpoint(None, WindowOf(None, start, a)) == Reached(start, Twelfth(a.reported), a.limit)
  {
  }

  /**
   Any number of scans under one reported head: the checkpoint is at the head once the limits add up to
   the blocks from the start block to the head, and exactly as far as they go before that.
   */
  lemma {:induction false} ScansReach(start: Option<U64>, attempts: seq<Attempt>, reported: U64)
    requires ValidAttempts(attempts) && attempts != [] && forall a | a in attempts :: a.reported == reported
    ensures Checkpoint(start, attempts) == Reached(start, Twelfth(reported), Limits(attempts))
  {
    var n := |attempts| - 1;
    assert attempts[n] in attempts && forall a | a in attempts[..n] :: a in attempts;
    if n > 0 {
      ScansReach(start, attempts[..n], reported);
      assert attempts[..n][n - 1] in attempts[..n];
      var earlier := Checkpoint(start, attempts[..n]);
      assert Checkpoint(start, attempts) == NextCheckpoint(earlier, WindowOf(earlier, start, attempts[n]));
      NextReached(start, attempts[n], Limits(attempts[..n]));
    } else {
      FirstReached(start, attempts[0]);
    }
  }

  // ---------------------------------------------------------------------------
  // Chunk loops
  // ---------------------------------------------------------------------------

  /** fetch_logs: visits the range in chunks. `with_block_chunk` keeps the chunk at least one. */
  method VisitInChunks(from: nat, to: nat, chunk: nat) returns (visited: seq<int>)
    requires 0 < chunk
    ensures visited == Blocks(from, to)
  {
    visited := [];
    var start := from;
    while start <= to
      invariant from <= start && (start <= to + 1 || start == from)
      invariant visited == Blocks(from, start - 1)
      decreases if start <= to then to - start + 1 else 0
    {
      var end := if start + chunk - 1 < to then start + chunk - 1 else to;
      BlocksSplit(from, start - 1, end);
      visited := visited + Blocks(start, end);
      start := end + 1;
    }
  }

  /** The native scan: chunks of fifty, and block by block inside a chunk. */
  method VisitNative(from: nat, to: nat) returns (visited: seq<int>)
    ensures visited == Blocks(from, to)
  {
    visited := [];
    var start := from;
    while start <= to
      invariant from <= start && (start <= to + 1 || start == from)
      invariant visited == Blocks(from, start - 1)
      decreases if start <= to then to - start + 1 else 0
    {
      var end := if start + NATIVE_TX_BLOCK_CHUNK - 1 < to then start + NATIVE_TX_BLOCK_CHUNK - 1 else to;
      var block := start;
      while block <= end
        invariant start <= block <= end + 1
        invariant visited == Blocks(from, block - 1)
        decreases end - block
      {
        BlocksSplit(from, block - 1, block);
        visited := visited + [block];
        block := block + 1;
      }
      start := end + 1;
    }
  }

  // ---------------------------------------------------------------------------
  // One raw row per transaction
  // ---------------------------------------------------------------------------

  type Hash = nat

  ghost predicate NoRepeats(s: seq<Hash>) { forall i, j | 0 <= i < j < |s| :: s[i] != s[j] }

  function NotIn(seen: set<Hash>, s: seq<Hash>): seq<Hash> {
    if s == [] then []
    else NotIn(seen, s[..|s| - 1]) + if s[|s| - 1] in seen then [] else [s[|s| - 1]]
  }

  lemma {:induction false} NotInContents(seen: set<Hash>, s: seq<Hash>)
    ensures forall h :: h in NotIn(seen, s) <==> h in s && h !in seen
  {
    if s != [] {
      NotInContents(seen, s[..|s| - 1]);
      assert s == s[..|s| - 1] + [s[|s| - 1]];
    }
  }

  lemma {:induction false} NotInKeepsDistinct(seen: set<Hash>, s: seq<Hash>)
    requires NoRepeats(s)
    ensures NoRepeats(NotIn(seen, s))
  {
    if s != [] {
      NotInKeepsDistinct(seen, s[..|s| - 1]);
      NotInContents(seen, s[..|s| - 1]);
    }
  }

  /** logs_to_raw_transactions: the first log of each transaction; logs without a hash are dropped. */
  method LogRecords(logs: seq<Option<Hash>>) returns (records: seq<Hash>)
    ensures NoRepeats(records)
    ensures forall h :: h in records <==> Some(h) in logs
  {
    records := [];
    var emitted: set<Hash> := {};
    for i := 0 to |logs|
      invariant forall h :: h in emitted <==> h in records
      invariant forall h :: h in records <==> Some(h) in logs[..i]
      invariant NoRepeats(records)
    {
      assert logs[..i + 1] == logs[..i] + [logs[i]];
      if logs[i].Some? && logs[i].value !in emitted {
        emitted := emitted + {logs[i].value};
        records := records + [logs[i].value];
      }
    }
    assert logs[..|logs|] == logs;
  }

  function LogHashes(logs: seq<Option<Hash>>): set<Hash> { set o | o in logs && o.Some? :: o.value }

  /**
   wallet_backfill's merge: log rows, then native transactions not covered by a log. The batch holds
   the union of the hashes, and repeats none exactly when the uncovered native scan repeats none.
   */
  method MergeWallet(logs: seq<Option<Hash>>, native: seq<Hash>) returns (records: seq<Hash>)
    ensures forall h :: h in records <==> Some(h) in logs || h in native
    ensures NoRepeats(records) <==> NoRepeats(NotIn(LogHashes(logs), native))
  {
    var fromLogs := LogRecords(logs);
    ghost var covered := LogHashes(logs);
    records := fromLogs;
    var existing := set h | h in fromLogs;
    for i := 0 to |native|
      invariant records == fromLogs + NotIn(covered, native[..i])
    {
      assert native[..i + 1][..i] == native[..i];
      if native[i] !in existing {
        records := records + [native[i]];
      }
    }
    assert native[..|native|] == native;
    NotInContents(covered, native);
    DisjointRepeats(fromLogs, NotIn(covered, native));
  }

  /** The failing family has members: a native scan that reports one transaction twice. */
  lemma {:induction false} RepeatedNativeIsKept()
    ensures !NoRepeats(NotIn(LogHashes([]), [7, 7]))
  {
    assert LogHashes([]) == {};
    assert [7, 7][..1] == [7] && [7][..0] == [];
    assert NotIn({}, [7]) == [7] && NotIn({}, [7, 7]) == [7, 7];
  }

  lemma {:induction false} DisjointRepeats(a: seq<Hash>, b: seq<Hash>)
    requires NoRepeats(a) && forall h | h in a :: h !in b
    ensures NoRepeats(a + b) <==> NoRepeats(b)
  {
    if NoRepeats(a + b) {
      forall i, j | 0 <= i < j < |b| ensures b[i] != b[j] {
        assert (a + b)[|a| + i] == b[i] && (a + b)[|a| + j] == b[j];
      }
    }
    if NoRepeats(b) {
      forall i, j | 0 <= i < j < |a + b| ensures (a + b)[i] != (a + b)[j] {
        if i < |a| <= j { assert (a + b)[i] in a && (a + b)[j] in b; }
      }
    }
  }

  /** A wallet's traces in one block: logs that mention it, and native transactions from or to it. */
  datatype Block = Block(logs: seq<Option<Hash>>, native: seq<Hash>)

  function LogsAt(blocks: int -> Block): int -> seq<Option<Hash>> { (b: int) => blocks(b).logs }

  function NativeAt(blocks: int -> Block): int -> seq<Hash> { (b: int) => blocks(b).native }

  predicate Touches(block: Block, h: Hash) { Some(h) in block.logs || h in block.native }

  lemma {:induction false} InSome<T>(at: int -> seq<T>, from: int, last: int, x: T)
    ensures x in FlatMap(at, Blocks(from, last)) <==> exists b | from <= b <= last :: x in at(b)
    decreases last - from
  {
    if from <= last {
      InSome(at, from + 1, last, x);
      assert Blocks(from, last)[0] == from && Blocks(from, last)[1..] == Blocks(from + 1, last);
      assert x in FlatMap(at, Blocks(from, last)) <==> x in at(from) || x in FlatMap(at, Blocks(from + 1, last));
    }
  }

  ghost predicate TouchedIn(blocks: int -> Block, w: Window, h: Hash) {
    exists b | w.from <= b <= w.end :: Touches(blocks(b), h)
  }

  lemma {:induction false} TouchedIsCollected(blocks: int -> Block, w: Window, h: Hash)
    ensures TouchedIn(blocks, w, h) <==>
            Some(h) in FlatMap(LogsAt(blocks), Blocks(w.from, w.end)) ||
              h in FlatMap(NativeAt(blocks), Blocks(w.from, w.end))
  {
    InSome(LogsAt(blocks), w.from, w.end, Some(h));
    InSome(NativeAt(blocks), w.from, w.end, h);
    if b :| w.from <= b <= w.end && Some(h) in LogsAt(blocks)(b) { assert Touches(blocks(b), h); }
    if b :| w.from <= b <= w.end && h in NativeAt(blocks)(b) { assert Touches(blocks(b), h); }
    if b :| w.from <= b <= w.end && Touches(blocks(b), h) {
      assert Some(h) in LogsAt(blocks)(b) || h in NativeAt(blocks)(b);
    }
  }

  /** wallet_backfill over a window: the batch names exactly the transactions that touch the wallet in it. */
  method WalletBackfill(w: Window, chunk: nat, blocks: int -> Block) returns (records: seq<Hash>)
    requires 0 < chunk
    ensures forall h :: h in records <==> TouchedIn(blocks, w, h)
    ensures NoRepeats(FlatMap(NativeAt(blocks), Blocks(w.from, w.end))) ==> NoRepeats(records)
  {
    var scanned := VisitInChunks(w.from, w.end, chunk);
    var logs := CollectEach(LogsAt(blocks), scanned);
    scanned := VisitNative(w.from, w.end);
    var native := CollectEach(NativeAt(blocks), scanned);
    records := MergeWallet(logs, native);
    if NoRepeats(native) { NotInKeepsDistinct(LogHashes(logs), native); }
    forall h: Hash ensures Some(h) in logs || h in native <==> TouchedIn(blocks, w, h) {
      TouchedIsCollected(blocks, w, h);
    }
  }

  // ---------------------------------------------------------------------------
  // What a stored checkpoint promises
  // ---------------------------------------------------------------------------

  /** The wallet's transactions, block by block. */
  type Chain = seq<set<Hash>>

  ghost function Transactions(chain: Chain, w: Window): set<Hash>
    requires w.end < |chain|
  {
    set b, h | w.from <= b <= w.end && h in chain[b] :: h
  }

  ghost predicate StoredFrom(chain: Chain, first: nat, last: int, rows: set<Hash>)
    requires last < |chain|
  {
    first <= last && forall b | first <= b <= last :: chain[b] <= rows
  }

  /** How deep a reorganization may reach: a block with this many blocks on top of it does not change any more. */
  const REORG_DEPTH: nat := 12

  /** The genesis block, and every block that no reorganization reaches. */
  ghost predicate Settled(chain: Chain, b: int) { b == 0 || b + REORG_DEPTH < |chain| }

  /** The chain gets no shorter, and keeps its settled blocks; the blocks on top may be replaced. */
  ghost predicate Grows(a: Chain, b: Chain) {
    |a| <= |b| && forall i | 0 <= i < |a| && Settled(a, i) :: b[i] == a[i]
  }

  /** Every transaction from the start block up to the checkpoint is stored, and the checkpoint is settled. */
  ghost predicate Covered(chain: Chain, start: Option<U64>, checkpoint: Option<Cursor>, rows: set<Hash>) {
    checkpoint.Some? ==>
      && StoredBlock(checkpoint) && checkpoint.value.lastBlock.value < |chain|
      && Settled(chain, checkpoint.value.lastBlock.value)
      && (if start.Some? then StoredFrom(chain, start.value, checkpoint.value.lastBlock.value, rows)
          else exists first: nat :: StoredFrom(chain, first, checkpoint.value.lastBlock.value, rows))
  }

  /** Where the claim of a checkpoint begins; without a start block it claims no more than its own block. */
  function ClaimedFrom(start: Option<U64>, last: int): int { if start.Some? then start.value else last }

  /** A replaced block among those a checkpoint claims, with a transaction that is not stored. */
  ghost predicate Unstored(chain: Chain, other: Chain, start: Option<U64>, checkpoint: Option<Cursor>, rows: set<Hash>)
    requires Covered(chain, start, checkpoint, rows) && |chain| <= |other|
  {
    checkpoint.Some? &&
    var last := checkpoint.value.lastBlock.value;
    exists b | ClaimedFrom(start, last) <= b <= last :: other[b] != chain[b] && !(other[b] <= rows)
  }

  /**
   What a reorganization of any depth breaks: the claim holds on if and only if it leaves no claimed
   block unstored.
   */
  lemma {:induction false} ReorganizedIff(chain: Chain, other: Chain, start: Option<U64>, checkpoint: Option<Cursor>,
                                          rows: set<Hash>)
    requires Covered(chain, start, checkpoint, rows) && |chain| <= |other|
    ensures Covered(other, start, checkpoint, rows) <==> !Unstored(chain, other, start, checkpoint, rows)
  {
    if checkpoint.Some? {
      var last := checkpoint.value.lastBlock.value;
      var from: nat := ClaimedFrom(start, last);
      assert forall b | from <= b <= last :: chain[b] <= rows;
      if !Unstored(chain, other, start, checkpoint, rows) {
        forall b | from <= b <= last ensures other[b] <= rows {
          assert other[b] != chain[b] ==> other[b] <= rows;
        }
        assert StoredFrom(other, from, last, rows);
      }
      if Covered(other, start, checkpoint, rows) {
        assert forall b | from <= b <= last :: other[b] <= rows;
      }
    }
  }

  /** A run against the chain: a head the chain has reached, and all transactions of the window. */
  ghost predicate Fetched(chain: Chain, start: Option<U64>, checkpoint: Option<Cursor>, a: Attempt, batch: set<Hash>) {
    && 1 <= a.limit <= 100_000 && a.reported < |chain|
    && var w := WindowOf(checkpoint, start, a);
    && batch == if w.end < |chain| then Transactions(chain, w) else {}
  }

  /** The chain lists, block by block, the transactions that touch the wallet. */
  ghost predicate Lists(chain: Chain, blocks: int -> Block) {
    forall b, h | 0 <= b < |chain| :: h in chain[b] <==> Touches(blocks(b), h)
  }

  /** The batch of a wallet backfill is what a fetch of its window must bring. */
  lemma {:induction false} BackfillBringsWindow(chain: Chain, blocks: int -> Block, w: Window, records: seq<Hash>)
    requires Lists(chain, blocks) && w.end < |chain| && forall h :: h in records <==> TouchedIn(blocks, w, h)
    ensures (set h | h in records) == Transactions(chain, w)
  {
    forall h: Hash ensures h in records <==> h in Transactions(chain, w) {
      if TouchedIn(blocks, w, h) {
        var b :| w.from <= b <= w.end && Touches(blocks(b), h);
        assert h in chain[b];
      }
      if h in Transactions(chain, w) {
        var b :| w.from <= b <= w.end && h in chain[b];
        assert Touches(blocks(b), h);
      }
    }
  }

  lemma {:induction false} FetchKeepsCovered(chain: Chain, start: Option<U64>, checkpoint: Option<Cursor>, a: Attempt,
                                             batch: set<Hash>, rows: set<Hash>)
    requires Covered(chain, start, checkpoint, rows) && Fetched(chain, start, checkpoint, a, batch)
    ensures Covered(chain, start, NextCheckpoint(checkpoint, WindowOf(checkpoint, start, a)), rows + batch)
  {
    var w := WindowOf(checkpoint, start, a);
    WindowStart(checkpoint, start, a);
    if w.from <= w.end {
      var first: nat := w.from;
      if checkpoint.Some? {
        first :| StoredFrom(chain, first, checkpoint.value.lastBlock.value, rows) &&
          (start.Some? ==> first == start.value);
      }
      assert StoredFrom(chain, first, w.end, rows + batch);
    } else {
      CoveredIsMonotone(chain, chain, start, checkpoint, rows, rows + batch);
    }
  }

  lemma {:induction false} CoveredIsMonotone(chain: Chain, longer: Chain, start: Option<U64>,
                                             checkpoint: Option<Cursor>, rows: set<Hash>, more: set<Hash>)
    requires Covered(chain, start, checkpoint, rows) && Grows(chain, longer) && rows <= more
    ensures Covered(longer, start, checkpoint, more)
  {
    if checkpoint.Some? {
      var last := checkpoint.value.lastBlock.value;
      var first: nat :| StoredFrom(chain, first, last, rows) && (start.Some? ==> first == start.value);
      assert forall b | first <= b <= last :: longer[b] == chain[b];
      assert StoredFrom(longer, first, last, more);
    }
  }
}
