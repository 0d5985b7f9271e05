/**
 The wallet_ledger table: a materialization deletes the rows of its inputs and writes the new ones by id,
 five hundred at a time, in one transaction.
 */
module LedgerTable {
  import opened Common
  import opened GoldLedger
  import opened HlLedger
  import opened BalanceHistory
  import EvmValue

  // ---------------------------------------------------------------------------
  // Writing by id
  // ---------------------------------------------------------------------------

  const CHUNK: nat := 500

  const CONFLICT: string := "ON CONFLICT DO UPDATE command cannot affect row a second time"

  function IdOf(r: LedgerRow): LedgerId { r.id }

  predicate Repeats(rows: seq<LedgerRow>) { exists i, j | 0 <= i < j < |rows| :: rows[i].id == rows[j].id }

  /** INSERT ... ON CONFLICT (id) DO UPDATE SET amount: a stored row keeps its key and kind. */
  function Put(stored: seq<LedgerRow>, r: LedgerRow): seq<LedgerRow> {
    if stored == [] then [r]
    else if stored[0].id == r.id then [stored[0].(amount := r.amount)] + stored[1..]
    else [stored[0]] + Put(stored[1..], r)
  }

  function PutAll(stored: seq<LedgerRow>, rows: seq<LedgerRow>): seq<LedgerRow>
    decreases |rows|
  {
    if rows == [] then stored else PutAll(Put(stored, rows[0]), rows[1..])
  }

  function Min(a: nat, b: nat): nat { if a < b then a else b }

  /** Chunk by chunk; a statement that would write one row twice fails, and with it the transaction. */
  function Write(stored: seq<LedgerRow>, rows: seq<LedgerRow>): Result<seq<LedgerRow>>
    decreases |rows|
  {
    var n := Min(CHUNK, |rows|);
    if rows == [] then Ok(stored)
    else if Repeats(rows[..n]) then Err(CONFLICT)
    else Write(PutAll(stored, rows[..n]), rows[n..])
  }

  lemma {:induction false} NextWrite(written: seq<LedgerRow>, rows: seq<LedgerRow>, at: nat, end: nat)
    requires at < |rows| && end == Min(at + CHUNK, |rows|)
    ensures var chunk := rows[at..end];
            Write(written, rows[at..]) ==
              if Repeats(chunk) then Err(CONFLICT) else Write(PutAll(written, chunk), rows[end..])
  {
    var rest := rows[at..];
    assert rest[..end - at] == rows[at..end] && rest[end - at..] == rows[end..];
  }

  method WriteChunks(stored: seq<LedgerRow>, rows: seq<LedgerRow>) returns (r: Result<seq<LedgerRow>>)
    ensures r == Write(stored, rows)
  {
    var written, at := stored, 0;
    while at < |rows|
      invariant 0 <= at <= |rows| && Write(stored, rows) == Write(written, rows[at..])
    {
      var end := Min(at + CHUNK, |rows|);
      var chunk := rows[at..end];
      NextWrite(written, rows, at, end);
      if Repeats(chunk) { return Err(CONFLICT); }
      written, at := PutAll(written, chunk), end;
    }
    return Ok(written);
  }

  lemma {:induction false} UniqueMeans(rows: seq<LedgerRow>)
    ensures Unique(IdOf, rows) <==> !Repeats(rows)
  {
    if Unique(IdOf, rows) {
      forall i, j | 0 <= i < j < |rows| ensures rows[i].id != rows[j].id { assert IdOf(rows[i]) != IdOf(rows[j]); }
    }
  }

  predicate SameChunk(i: nat, j: nat) { i / 500 == j / 500 }

  lemma {:induction false} ChunkShifts(i: nat, j: nat)
    requires i <= j
    ensures j < CHUNK ==> SameChunk(i, j)
    ensures i < CHUNK <= j ==> !SameChunk(i, j)
    ensures SameChunk(i + CHUNK, j + CHUNK) <==> SameChunk(i, j)
  {
  }

  /** Two rows of one id in one chunk. */
  ghost predicate RepeatsInChunk(rows: seq<LedgerRow>) {
    exists i, j | 0 <= i < j < |rows| && SameChunk(i, j) :: rows[i].id == rows[j].id
  }

  lemma {:induction false} LaterChunks(rows: seq<LedgerRow>)
    requires CHUNK < |rows|
    ensures RepeatsInChunk(rows) <==> Repeats(rows[..CHUNK]) || RepeatsInChunk(rows[CHUNK..])
  {
    if RepeatsInChunk(rows) {
      var i, j :| 0 <= i < j < |rows| && SameChunk(i, j) && rows[i].id == rows[j].id;
      RepeatLiesIn(rows, i, j);
    }
    if Repeats(rows[..CHUNK]) { FirstRepeats(rows); }
    if RepeatsInChunk(rows[CHUNK..]) { RestRepeats(rows); }
  }

  lemma {:induction false} RepeatLiesIn(rows: seq<LedgerRow>, i: nat, j: nat)
    requires CHUNK < |rows| && i < j < |rows| && SameChunk(i, j) && rows[i].id == rows[j].id
    ensures Repeats(rows[..CHUNK]) || RepeatsInChunk(rows[CHUNK..])
  {
    ChunkShifts(i, j);
    if j < CHUNK {
      assert rows[..CHUNK][i].id == rows[..CHUNK][j].id;
    } else {
      ChunkShifts(i - CHUNK, j - CHUNK);
      assert rows[CHUNK..][i - CHUNK].id == rows[CHUNK..][j - CHUNK].id;
    }
  }

  lemma {:induction false} FirstRepeats(rows: seq<LedgerRow>)
    requires CHUNK < |rows| && Repeats(rows[..CHUNK])
    ensures RepeatsInChunk(rows)
  {
    var i, j :| 0 <= i < j < CHUNK && rows[..CHUNK][i].id == rows[..CHUNK][j].id;
    ChunkShifts(i, j);
    assert rows[i].id == rows[j].id;
  }

  lemma {:induction false} RestRepeats(rows: seq<LedgerRow>)
    requires CHUNK < |rows| && RepeatsInChunk(rows[CHUNK..])
    ensures RepeatsInChunk(rows)
  {
    var rest := rows[CHUNK..];
    var i: nat, j: nat :| i < j < |rest| && SameChunk(i, j) && rest[i].id == rest[j].id;
    ChunkShifts(i, j);
    assert rows[i + CHUNK].id == rows[j + CHUNK].id;
  }

  lemma {:induction false} OneChunk(rows: seq<LedgerRow>)
    requires |rows| <= CHUNK
    ensures RepeatsInChunk(rows) <==> Repeats(rows)
  {
    if Repeats(rows) {
      var i, j :| 0 <= i < j < |rows| && rows[i].id == rows[j].id;
      ChunkShifts(i, j);
    }
  }

  lemma {:induction false} PutAllConcat(stored: seq<LedgerRow>, a: seq<LedgerRow>, b: seq<LedgerRow>)
    ensures PutAll(PutAll(stored, a), b) == PutAll(stored, a + b)
    decreases |a|
  {
    if a == [] {
      assert a + b == b;
    } else {
      assert (a + b)[0] == a[0] && (a + b)[1..] == a[1..] + b;
      PutAllConcat(Put(stored, a[0]), a[1..], b);
    }
  }

  /** The write fails exactly when a chunk repeats an id; otherwise every row was put by its id, in order. */
  lemma {:induction false} WriteFailsIff(stored: seq<LedgerRow>, rows: seq<LedgerRow>)
    ensures Write(stored, rows).Err? <==> RepeatsInChunk(rows)
    ensures Write(stored, rows).Ok? ==> Write(stored, rows).value == PutAll(stored, rows)
    decreases |rows|
  {
    if rows == [] {
    } else if |rows| <= CHUNK {
      OneChunk(rows);
      assert rows[..|rows|] == rows && rows[|rows|..] == [];
      assert Write(PutAll(stored, rows), []) == Ok(PutAll(stored, rows));
    } else {
      LaterChunks(rows);
      WriteFailsIff(PutAll(stored, rows[..CHUNK]), rows[CHUNK..]);
      PutAllConcat(stored, rows[..CHUNK], rows[CHUNK..]);
      assert rows[..CHUNK] + rows[CHUNK..] == rows;
    }
  }

  ghost predicate Holds(stored: seq<LedgerRow>, id: LedgerId) { exists r | r in stored :: r.id == id }

  lemma {:induction false} PutAppends(stored: seq<LedgerRow>, r: LedgerRow)
    ensures Put(stored, r) == stored + [r] <==> !Holds(stored, r.id)
    ensures |Put(stored, r)| == |stored| + if Holds(stored, r.id) then 0 else 1
    ensures forall id :: Holds(Put(stored, r), id) <==> Holds(stored, id) || id == r.id
  {
    if stored != [] {
      PutAppends(stored[1..], r);
      assert stored == [stored[0]] + stored[1..];
      if stored[0].id != r.id {
        assert [stored[0]] + (stored[1..] + [r]) == stored + [r];
        HoldsHead(stored[0], Put(stored[1..], r));
      } else {
        HoldsHead(stored[0].(amount := r.amount), stored[1..]);
        assert |Put(stored, r)| != |stored + [r]|;
        assert stored[0] in stored;
      }
      HoldsHead(stored[0], stored[1..]);
      if Put(stored, r) == stored + [r] && stored[0].id != r.id {
        assert Put(stored[1..], r) == (stored + [r])[1..] == stored[1..] + [r];
      }
    }
  }

  lemma {:induction false} HoldsHead(r: LedgerRow, rest: seq<LedgerRow>)
    ensures forall id :: Holds([r] + rest, id) <==> r.id == id || Holds(rest, id)
  {
    forall id ensures Holds([r] + rest, id) <==> r.id == id || Holds(rest, id) {
      assert r in [r] + rest;
      if Holds(rest, id) {
        var q :| q in rest && q.id == id;
        assert q in [r] + rest;
      }
    }
  }

  ghost predicate NoneHeld(stored: seq<LedgerRow>, rows: seq<LedgerRow>) {
    forall r | r in rows :: !Holds(stored, r.id)
  }

  lemma {:induction false} UniqueHead(r: LedgerRow, rows: seq<LedgerRow>, stored: seq<LedgerRow>)
    requires !Holds(stored, r.id)
    ensures Unique(IdOf, [r] + rows) && NoneHeld(stored, [r] + rows) <==>
            Unique(IdOf, rows) && NoneHeld(stored + [r], rows)
  {
    UniqueConcat(IdOf, [r], rows);
    forall id ensures Holds(stored + [r], id) <==> Holds(stored, id) || id == r.id {
      assert r in stored + [r];
      if Holds(stored, id) {
        var q :| q in stored && q.id == id;
        assert q in stored + [r];
      }
    }
    assert Unique(IdOf, [r]);
    assert KeysApart(IdOf, [r], rows) <==> forall q | q in rows :: q.id != r.id by {
      assert r in [r];
      if KeysApart(IdOf, [r], rows) {
        forall q | q in rows ensures q.id != r.id { assert IdOf(r) != IdOf(q); }
      }
    }
  }

  /** Everything written is kept, behind what was stored, exactly when no id occurs twice. */
  lemma {:induction false} PutAllKeepsIff(stored: seq<LedgerRow>, rows: seq<LedgerRow>)
    ensures |PutAll(stored, rows)| <= |stored| + |rows|
    ensures PutAll(stored, rows) == stored + rows <==> Unique(IdOf, rows) && NoneHeld(stored, rows)
    decreases |rows|
  {
    if rows == [] {
      assert stored + rows == stored;
    } else {
      PutAppends(stored, rows[0]);
      PutAllKeepsIff(Put(stored, rows[0]), rows[1..]);
      assert rows == [rows[0]] + rows[1..];
      if Holds(stored, rows[0].id) {
        assert |PutAll(stored, rows)| < |stored + rows| && rows[0] in rows;
      } else {
        UniqueHead(rows[0], rows[1..], stored);
        Associate(stored, [rows[0]], rows[1..]);
      }
    }
  }

  // ---------------------------------------------------------------------------
  // Replacing the rows of the inputs
  // ---------------------------------------------------------------------------

  function RawId(raw: Raw): int { raw.origin.raw }

  function RawIds(raws: seq<Raw>): set<nat> { set raw | raw in raws :: raw.origin.raw }

  function NotFrom(ids: set<nat>): LedgerRow -> bool { (r: LedgerRow) => r.id.raw !in ids }

  /** The intent: the rows of the inputs make way for the new ones, all of them. */
  function Replaced(stored: seq<LedgerRow>, inputs: set<nat>, rows: seq<LedgerRow>): seq<LedgerRow> {
    Filter(NotFrom(inputs), stored) + rows
  }

  ghost predicate FromInputs(rows: seq<LedgerRow>, inputs: set<nat>) { forall r | r in rows :: r.id.raw in inputs }

  /** replace_wallet_ledger_records: delete, then write by id, in one transaction. */
  function Replace(stored: seq<LedgerRow>, inputs: set<nat>, rows: seq<LedgerRow>): Result<seq<LedgerRow>> {
    Write(Filter(NotFrom(inputs), stored), rows)
  }

  /** The replacement stores every row, and fails for none, if and only if the rows have distinct ids. */
  lemma {:induction false} ReplaceKeepsAllIff(stored: seq<LedgerRow>, inputs: set<nat>, rows: seq<LedgerRow>)
    requires FromInputs(rows, inputs)
    ensures Replace(stored, inputs, rows) == Ok(Replaced(stored, inputs, rows)) <==> Unique(IdOf, rows)
  {
    var kept := Filter(NotFrom(inputs), stored);
    FilterContents(NotFrom(inputs), stored);
    forall r | r in rows ensures !Holds(kept, r.id) {
      assert forall q | q in kept :: NotFrom(inputs)(q) && q.id.raw !in inputs;
    }
    WriteFailsIff(kept, rows);
    PutAllKeepsIff(kept, rows);
    UniqueMeans(rows);
    assert RepeatsInChunk(rows) ==> Repeats(rows);
  }

  /** Two rows of one id on either side of a chunk boundary: the second overwrites the first, and nothing fails. */
  lemma {:induction false} OverwrittenAcrossChunks(before: seq<LedgerRow>, a: LedgerRow, b: LedgerRow)
    requires |before| == 499 && Unique(IdOf, before + [a]) && a.id == b.id
    ensures Write([], before + [a, b]) == Ok(before + [a.(amount := b.amount)])
  {
    var rows := before + [a, b];
    var first := before + [a];
    assert rows[..CHUNK] == first && rows[CHUNK..] == [b];
    UniqueMeans(first);
    PutAllKeepsIff([], first);
    assert [] + first == first;
    PutLast(before, a, b);
    assert [b][..1] == [b] && [b][1..] == [] && !Repeats([b]);
    assert PutAll(first, [b]) == PutAll(Put(first, b), []) == Put(first, b);
    assert Write(first, [b]) == Write(Put(first, b), []);
  }

  lemma {:induction false} PutLast(before: seq<LedgerRow>, a: LedgerRow, b: LedgerRow)
    requires a.id == b.id && Unique(IdOf, before + [a])
    ensures Put(before + [a], b) == before + [a.(amount := b.amount)]
  {
    if before == [] {
      assert before + [a] == [a] && [a][1..] == [];
    } else {
      assert (before + [a])[0] == before[0] && (before + [a])[1..] == before[1..] + [a];
      assert before[0].id != a.id by { assert IdOf((before + [a])[0]) != IdOf((before + [a])[|before|]); }
      assert before + [a] == [before[0]] + (before[1..] + [a]);
      UniqueConcat(IdOf, [before[0]], before[1..] + [a]);
      PutLast(before[1..], a, b);
      assert [before[0]] + (before[1..] + [a.(amount := b.amount)]) == before + [a.(amount := b.amount)];
    }
  }

  // ---------------------------------------------------------------------------
  // When the rows of a batch have distinct ids
  // ---------------------------------------------------------------------------

  predicate BooksTransfer(c: Context, t: TokenTransfer) { 0 <= t.decimals && c.Mine(t.from) != c.Mine(t.to) }

  /** Booked transfers of one side differ in token or index: the id leaves the counterparty out. */
  ghost predicate TransferIdsApart(c: Context, ts: seq<TokenTransfer>) {
    forall i, j | 0 <= i < j < |ts| && BooksTransfer(c, ts[i]) && BooksTransfer(c, ts[j]) &&
      c.Mine(ts[i].from) == c.Mine(ts[j].from) ::
      ts[i].tokenAddress != ts[j].tokenAddress || ts[i].index != ts[j].index
  }

  predicate BooksNative(c: Context, d: NativeDelta) { c.Mine(d.account) && !IsHyperliquid(d.origin.network) }

  predicate BooksValue(c: Context, d: NativeDelta) { BooksNative(c, d) && d.delta + SolanaFee(d) != 0.0 }

  predicate BooksFee(c: Context, d: NativeDelta) { BooksNative(c, d) && SolanaFee(d) != 0.0 }

  /** Native deltas that book the same kind of row differ in account: the id leaves the token out. */
  ghost predicate NativeIdsApart(c: Context, ds: seq<NativeDelta>) {
    forall i, j | 0 <= i < j < |ds| && ds[i].account == ds[j].account ::
      !(BooksValue(c, ds[i]) && BooksValue(c, ds[j])) && !(BooksFee(c, ds[i]) && BooksFee(c, ds[j]))
  }

  ghost predicate LedgerIdsApart(c: Context, raw: Raw) {
    TransferIdsApart(c, TransfersOf(c)(raw)) && NativeIdsApart(c, DeltasOf(c)(raw))
  }

  lemma {:induction false} TransferIdsIff(c: Context, ts: seq<TokenTransfer>, origin: Origin)
    requires forall t | t in ts :: t.origin == origin
    ensures Unique(IdOf, FlatMap(TransferRows(c), ts)) <==> TransferIdsApart(c, ts)
  {
    UniqueFlatMap(IdOf, TransferRows(c), ts);
    forall i, j | 0 <= i < j < |ts|
      ensures KeysApart(IdOf, TransferRows(c)(ts[i]), TransferRows(c)(ts[j])) <==>
              (BooksTransfer(c, ts[i]) && BooksTransfer(c, ts[j]) && c.Mine(ts[i].from) == c.Mine(ts[j].from) ==>
                 ts[i].tokenAddress != ts[j].tokenAddress || ts[i].index != ts[j].index)
    {
      assert ts[i] in ts && ts[j] in ts;
      TransferPairIff(c, ts[i], ts[j]);
    }
  }

  lemma {:induction false} TransferPairIff(c: Context, t: TokenTransfer, u: TokenTransfer)
    requires t.origin == u.origin
    ensures KeysApart(IdOf, TransferRows(c)(t), TransferRows(c)(u)) <==>
            (BooksTransfer(c, t) && BooksTransfer(c, u) && c.Mine(t.from) == c.Mine(u.from) ==>
               t.tokenAddress != u.tokenAddress || t.index != u.index)
  {
    var a, b := TransferRows(c)(t), TransferRows(c)(u);
    if BooksTransfer(c, t) && BooksTransfer(c, u) {
      assert a == [a[0]] && b == [b[0]];
      assert KeysApart(IdOf, a, b) <==> IdOf(a[0]) != IdOf(b[0]);
    }
  }

  function ValueRow(d: NativeDelta): LedgerRow {
    LedgerRow(NativeId(d.origin.raw, d.account, TransferRow), KeyIn(d.origin, d.token), TransferRow, d.delta +
              SolanaFee(d))
  }

  function NativeFeeRow(d: NativeDelta): LedgerRow {
    LedgerRow(NativeId(d.origin.raw, d.account, FeeRow), KeyIn(d.origin, d.token), FeeRow, -SolanaFee(d))
  }

  lemma {:induction false} DeltaRowsAre(c: Context, d: NativeDelta)
    ensures DeltaRows(c)(d) == (if BooksValue(c, d) then [ValueRow(d)] else []) +
            (if BooksFee(c, d) then [NativeFeeRow(d)] else [])
  {
  }

  lemma {:induction false} DeltaUnique(c: Context, d: NativeDelta)
    ensures Unique(IdOf, DeltaRows(c)(d))
  {
    DeltaRowsAre(c, d);
    UniqueConcat(IdOf, if BooksValue(c, d) then [ValueRow(d)] else [],
                 if BooksFee(c, d) then [NativeFeeRow(d)] else []);
  }

  lemma {:induction false} DeltaMember(c: Context, d: NativeDelta, r: LedgerRow)
    ensures r in DeltaRows(c)(d) <==> (BooksValue(c, d) && r == ValueRow(d)) || (BooksFee(c, d) && r == NativeFeeRow(d))
  {
    DeltaRowsAre(c, d);
  }

  lemma {:induction false} DeltaPairIff(c: Context, d: NativeDelta, e: NativeDelta)
    requires d.origin == e.origin
    ensures KeysApart(IdOf, DeltaRows(c)(d), DeltaRows(c)(e)) <==>
            (d.account == e.account ==> !(BooksValue(c, d) && BooksValue(c, e)) && !(BooksFee(c, d) && BooksFee(c, e)))
  {
    var a, b := DeltaRows(c)(d), DeltaRows(c)(e);
    DeltaMember(c, d, ValueRow(d));
    DeltaMember(c, e, ValueRow(e));
    DeltaMember(c, d, NativeFeeRow(d));
    DeltaMember(c, e, NativeFeeRow(e));
    if d.account == e.account ==> !(BooksValue(c, d) && BooksValue(c, e)) && !(BooksFee(c, d) && BooksFee(c, e)) {
      forall x, y | x in a && y in b ensures IdOf(x) != IdOf(y) {
        DeltaMember(c, d, x);
        DeltaMember(c, e, y);
      }
    }
    assert KeysApart(IdOf, a, b) && ValueRow(d) in a && ValueRow(e) in b ==> IdOf(ValueRow(d)) != IdOf(ValueRow(e));
    assert KeysApart(IdOf, a, b) && NativeFeeRow(d) in a && NativeFeeRow(e) in b ==>
             IdOf(NativeFeeRow(d)) != IdOf(NativeFeeRow(e));
  }

  lemma {:induction false} DeltaIdsIff(c: Context, ds: seq<NativeDelta>, origin: Origin)
    requires forall d | d in ds :: d.origin == origin
    ensures Unique(IdOf, FlatMap(DeltaRows(c), ds)) <==> NativeIdsApart(c, ds)
  {
    UniqueFlatMap(IdOf, DeltaRows(c), ds);
    forall d | d in ds ensures Unique(IdOf, DeltaRows(c)(d)) { DeltaUnique(c, d); }
    forall i, j | 0 <= i < j < |ds|
      ensures KeysApart(IdOf, DeltaRows(c)(ds[i]), DeltaRows(c)(ds[j])) <==>
              (ds[i].account == ds[j].account ==>
                 !(BooksValue(c, ds[i]) && BooksValue(c, ds[j])) && !(BooksFee(c, ds[i]) && BooksFee(c, ds[j])))
    {
      assert ds[i] in ds && ds[j] in ds;
      DeltaPairIff(c, ds[i], ds[j]);
    }
  }

  // Every row names the raw row it comes from

  ghost predicate From(origin: Origin, rows: seq<LedgerRow>) { forall r | r in rows :: r.id.raw == origin.raw }

  lemma {:induction false} FromAll<T>(origin: Origin, f: T -> seq<LedgerRow>, s: seq<T>)
    requires forall x | x in s :: From(origin, f(x))
    ensures From(origin, FlatMap(f, s))
  {
    if s != [] { FromAll(origin, f, s[1..]); }
  }

  lemma {:induction false} StampedTransfers(transfers: seq<TokenTransfer>, origin: Origin)
    ensures forall t | t in FlatMap(StampTransfer(origin), transfers) :: t.origin == origin
  {
    if transfers != [] { StampedTransfers(transfers[1..], origin); }
  }

  lemma {:induction false} StampedFills(fills: seq<FillRecord>, origin: Origin)
    ensures forall f | f in FlatMap(WithNetworkFill(origin), fills) :: f.origin == origin
  {
    if fills != [] { StampedFills(fills[1..], origin); }
  }

  lemma {:induction false} StampedFunding(payments: seq<FundingRecord>, origin: Origin)
    ensures forall p | p in FlatMap(WithNetworkFunding(origin), payments) :: p.origin == origin
  {
    if payments != [] { StampedFunding(payments[1..], origin); }
  }

  lemma {:induction false} SilverOrigins(c: Context, raw: Raw)
    ensures forall t | t in TransfersOf(c)(raw) :: t.origin == raw.origin
    ensures forall d | d in DeltasOf(c)(raw) :: d.origin == raw.origin
    ensures forall f | f in FillsOf(c)(raw) :: f.origin == raw.origin
    ensures forall p | p in FundingOf(c)(raw) :: p.origin == raw.origin
  {
    StampedTransfers(raw.transfers, raw.origin);
    StampedNetwork(raw.deltas, raw.origin);
    StampedFills(ExtractFills(c.parse, raw.payload), raw.origin);
    StampedFunding(ExtractFunding(c.parse, raw.payload), raw.origin);
  }

  lemma {:induction false} RowsFrom(c: Context, raw: Raw)
    ensures From(raw.origin, FlatMap(TransferRows(c), TransfersOf(c)(raw)))
    ensures From(raw.origin, FlatMap(DeltaRows(c), DeltasOf(c)(raw)))
    ensures From(raw.origin, FlatMap(PositionRow, FillsOf(c)(raw)))
    ensures From(raw.origin, FlatMap(SettlementRows, FillsOf(c)(raw)))
    ensures From(raw.origin, FlatMap(FundingRows, FundingOf(c)(raw)))
    ensures From(raw.origin, FlowRows(c)(raw))
  {
    SilverOrigins(c, raw);
    FromAll(raw.origin, TransferRows(c), TransfersOf(c)(raw));
    FromAll(raw.origin, DeltaRows(c), DeltasOf(c)(raw));
    FromAll(raw.origin, PositionRow, FillsOf(c)(raw));
    FromAll(raw.origin, SettlementRows, FillsOf(c)(raw));
    FromAll(raw.origin, FundingRows, FundingOf(c)(raw));
    FromAll(raw.origin, FlowRow(raw.origin.raw, Key(raw.origin.network, NativeAsset(raw.origin.network))),
            FlowsOf(c, raw));
  }

  lemma {:induction false} FlatMapOne<T, U>(f: T -> seq<U>, x: T)
    ensures FlatMap(f, [x]) == f(x)
  {
    assert FlatMap(f, [x]) == f(x) + [];
  }

  lemma {:induction false} LedgerRowsFrom(c: Context, raw: Raw)
    ensures From(raw.origin, LedgerOf(c, [raw]))
  {
    RowsFrom(c, raw);
    FlatMapOne(TransfersOf(c), raw);
    FlatMapOne(DeltasOf(c), raw);
    FlatMapOne(FillsOf(c), raw);
    FlatMapOne(FundingOf(c), raw);
    FlatMapOne(FlowRows(c), raw);
  }

  /** The kinds of ids. */
  function Tag(id: LedgerId): nat {
    match id
    case TransferId(_, _, _, _) => 0
    case NativeId(_, _, _) => 1
    case PositionId(_, _, _) => 2
    case SettlementId(_, _, _, _) => 3
    case FundingId(_, _, _) => 4
    case FlowId(_, _) => 5
  }

  ghost predicate Tagged(rows: seq<LedgerRow>, tag: nat) { forall r | r in rows :: Tag(r.id) == tag }

  ghost predicate TaggedBelow(rows: seq<LedgerRow>, tag: nat) { forall r | r in rows :: Tag(r.id) < tag }

  lemma {:induction false} TagsApart(a: seq<LedgerRow>, b: seq<LedgerRow>, tag: nat)
    requires TaggedBelow(a, tag) && Tagged(b, tag)
    ensures Unique(IdOf, a + b) <==> Unique(IdOf, a) && Unique(IdOf, b)
    ensures TaggedBelow(a + b, tag + 1)
  {
    UniqueConcat(IdOf, a, b);
    forall x, y | x in a && y in b ensures IdOf(x) != IdOf(y) { assert Tag(x.id) < Tag(y.id); }
  }

  /** Rows of one kind, raw row by raw row. */
  ghost predicate PartOk(part: Raw -> seq<LedgerRow>, tag: nat, raw: Raw) {
    From(raw.origin, part(raw)) && Tagged(part(raw), tag)
  }

  lemma {:induction false} PartIdsIff(part: Raw -> seq<LedgerRow>, tag: nat, raws: seq<Raw>)
    requires DistinctBy(RawId, raws) && forall raw | raw in raws :: PartOk(part, tag, raw)
    ensures Unique(IdOf, FlatMap(part, raws)) <==> forall raw | raw in raws :: Unique(IdOf, part(raw))
    ensures Tagged(FlatMap(part, raws), tag)
  {
    UniqueFlatMap(IdOf, part, raws);
    forall i, j | 0 <= i < j < |raws| ensures KeysApart(IdOf, part(raws[i]), part(raws[j])) {
      assert PartOk(part, tag, raws[i]) && PartOk(part, tag, raws[j]);
      assert RawId(raws[i]) != RawId(raws[j]);
      forall x, y | x in part(raws[i]) && y in part(raws[j]) ensures IdOf(x) != IdOf(y) { assert x.id.raw != y.id.raw; }
    }
    forall r | r in FlatMap(part, raws) ensures Tag(r.id) == tag {
      InFlatMap(part, raws, r);
      var raw :| raw in raws && r in part(raw);
      assert PartOk(part, tag, raw);
    }
  }

  function TransferLines(c: Context): Raw -> seq<LedgerRow> {
    (raw: Raw) => FlatMap(TransferRows(c), TransfersOf(c)(raw))
  }

  function NativeLines(c: Context): Raw -> seq<LedgerRow> { (raw: Raw) => FlatMap(DeltaRows(c), DeltasOf(c)(raw)) }

  function PositionLines(c: Context): Raw -> seq<LedgerRow> { (raw: Raw) => FlatMap(PositionRow, FillsOf(c)(raw)) }

  function SettlementLines(c: Context): Raw -> seq<LedgerRow> {
    (raw: Raw) => FlatMap(SettlementRows, FillsOf(c)(raw))
  }

  function FundingLines(c: Context): Raw -> seq<LedgerRow> { (raw: Raw) => FlatMap(FundingRows, FundingOf(c)(raw)) }

  function Lines(c: Context, raws: seq<Raw>): seq<LedgerRow> {
    FlatMap(TransferLines(c), raws) + FlatMap(NativeLines(c), raws) + FlatMap(PositionLines(c), raws)
    + FlatMap(SettlementLines(c), raws) + FlatMap(FundingLines(c), raws) + FlatMap(FlowRows(c), raws)
  }

  lemma {:induction false} LedgerIsLines(c: Context, raws: seq<Raw>)
    ensures LedgerOf(c, raws) == Lines(c, raws)
  {
    Nested(TransferRows(c), TransfersOf(c), TransferLines(c), raws);
    Nested(DeltaRows(c), DeltasOf(c), NativeLines(c), raws);
    Nested(PositionRow, FillsOf(c), PositionLines(c), raws);
    Nested(SettlementRows, FillsOf(c), SettlementLines(c), raws);
    Nested(FundingRows, FundingOf(c), FundingLines(c), raws);
  }

  lemma {:induction false} TaggedAll<T>(f: T -> seq<LedgerRow>, s: seq<T>, tag: nat)
    requires forall x | x in s :: Tagged(f(x), tag)
    ensures Tagged(FlatMap(f, s), tag)
  {
    if s != [] { TaggedAll(f, s[1..], tag); }
  }

  lemma {:induction false} LinesOk(c: Context, raw: Raw)
    ensures PartOk(TransferLines(c), 0, raw) && PartOk(NativeLines(c), 1, raw) && PartOk(PositionLines(c), 2, raw)
    ensures PartOk(SettlementLines(c), 3, raw) && PartOk(FundingLines(c), 4, raw) && PartOk(FlowRows(c), 5, raw)
  {
    RowsFrom(c, raw);
    TransferTags(c, raw);
    SettledTags(c, raw);
  }

  lemma {:induction false} TransferTags(c: Context, raw: Raw)
    ensures Tagged(TransferLines(c)(raw), 0) && Tagged(NativeLines(c)(raw), 1) && Tagged(FlowRows(c)(raw), 5)
  {
    TaggedAll(TransferRows(c), TransfersOf(c)(raw), 0);
    TaggedAll(DeltaRows(c), DeltasOf(c)(raw), 1);
    TaggedAll(FlowRow(raw.origin.raw, NativeKey(raw)), FlowsOf(c, raw), 5);
  }

  lemma {:induction false} SettledTags(c: Context, raw: Raw)
    ensures Tagged(PositionLines(c)(raw), 2) && Tagged(SettlementLines(c)(raw), 3) && Tagged(FundingLines(c)(raw), 4)
  {
    TaggedAll(PositionRow, FillsOf(c)(raw), 2);
    TaggedAll(SettlementRows, FillsOf(c)(raw), 3);
    TaggedAll(FundingRows, FundingOf(c)(raw), 4);
  }

  lemma {:induction false} AtMostOne<T, U>(f: T -> seq<U>, s: seq<T>)
    requires |s| <= 1
    ensures FlatMap(f, s) == if s == [] then [] else f(s[0])
  {
    if s != [] {
      assert s == [s[0]];
      FlatMapOne(f, s[0]);
    }
  }

  /** A raw row has at most one fill, one payment and one flow of each kind. */
  lemma {:induction false} SettledOnce(c: Context, raw: Raw)
    ensures Unique(IdOf, PositionLines(c)(raw)) && Unique(IdOf, SettlementLines(c)(raw))
    ensures Unique(IdOf, FundingLines(c)(raw)) && Unique(IdOf, FlowRows(c)(raw))
  {
    var fills, payments := ExtractFills(c.parse, raw.payload), ExtractFunding(c.parse, raw.payload);
    AtMostOne(WithNetworkFill(raw.origin), fills);
    AtMostOne(WithNetworkFunding(raw.origin), payments);
    AtMostOne(PositionRow, FillsOf(c)(raw));
    AtMostOne(SettlementRows, FillsOf(c)(raw));
    AtMostOne(FundingRows, FundingOf(c)(raw));
    if FillsOf(c)(raw) != [] { SettlementUnique(FillsOf(c)(raw)[0]); }
    FlowsOnce(c, raw);
  }

  lemma {:induction false} SettlementUnique(f: NetworkFill)
    ensures Unique(IdOf, SettlementRows(f))
  {
    UniqueConcat(IdOf, OptionalRow(f, FeeAsset(f.fill.feeToken), FeeRow, Negated(f.fill.fee)),
                 OptionalRow(f, "USDC", IncomeRow, f.fill.closedPnl));
  }

  lemma {:induction false} FlowsOnce(c: Context, raw: Raw)
    ensures Unique(IdOf, FlowRows(c)(raw))
  {
    var flows, row := FlowsOf(c, raw), FlowRow(raw.origin.raw, NativeKey(raw));
    UniqueFlatMap(IdOf, row, flows);
    forall i, j | 0 <= i < j < |flows| ensures KeysApart(IdOf, row(flows[i]), row(flows[j])) {
      FlowKinds(c, raw, i, j);
    }
  }

  lemma {:induction false} FlowKinds(c: Context, raw: Raw, i: nat, j: nat)
    requires i < j < |FlowsOf(c, raw)|
    ensures FlowsOf(c, raw)[i].kind == EvmValue.TransferFlow && FlowsOf(c, raw)[j].kind == EvmValue.FeeFlow
  {
    assert i == 0 && j == 1;
  }

  /**
   The ledger rows of a batch have distinct ids if and only if, raw row by raw row, the wallet's booked
   transfers of one side differ in token or index, and its booked native deltas of one kind in account.
   */
  lemma {:induction false} LedgerIdsIff(c: Context, raws: seq<Raw>)
    requires DistinctBy(RawId, raws)
    ensures Unique(IdOf, LedgerOf(c, raws)) <==> forall raw | raw in raws :: LedgerIdsApart(c, raw)
  {
    LedgerIsLines(c, raws);
    forall raw | raw in raws
      ensures Unique(IdOf, TransferLines(c)(raw)) && Unique(IdOf, NativeLines(c)(raw)) <==> LedgerIdsApart(c, raw)
    {
      SilverOrigins(c, raw);
      TransferIdsIff(c, TransfersOf(c)(raw), raw.origin);
      DeltaIdsIff(c, DeltasOf(c)(raw), raw.origin);
    }
    LinesIff(c, raws);
  }

  lemma {:induction false} LinesIff(c: Context, raws: seq<Raw>)
    requires DistinctBy(RawId, raws)
    ensures Unique(IdOf, Lines(c, raws)) <==>
            forall raw | raw in raws :: Unique(IdOf, TransferLines(c)(raw)) && Unique(IdOf, NativeLines(c)(raw))
  {
    forall raw | raw in raws
      ensures PartOk(TransferLines(c), 0, raw) && PartOk(NativeLines(c), 1, raw) && PartOk(PositionLines(c), 2, raw)
      ensures PartOk(SettlementLines(c), 3, raw) && PartOk(FundingLines(c), 4, raw) && PartOk(FlowRows(c), 5, raw)
      ensures Unique(IdOf, PositionLines(c)(raw)) && Unique(IdOf, SettlementLines(c)(raw))
      ensures Unique(IdOf, FundingLines(c)(raw)) && Unique(IdOf, FlowRows(c)(raw))
    {
      LinesOk(c, raw);
      SettledOnce(c, raw);
    }
    PartIdsIff(TransferLines(c), 0, raws);
    PartIdsIff(NativeLines(c), 1, raws);
    PartIdsIff(PositionLines(c), 2, raws);
    PartIdsIff(SettlementLines(c), 3, raws);
    PartIdsIff(FundingLines(c), 4, raws);
    PartIdsIff(FlowRows(c), 5, raws);
    SixApart(FlatMap(TransferLines(c), raws), FlatMap(NativeLines(c), raws), FlatMap(PositionLines(c), raws),
             FlatMap(SettlementLines(c), raws), FlatMap(FundingLines(c), raws), FlatMap(FlowRows(c), raws));
  }

  lemma {:induction false} SixApart(a: seq<LedgerRow>, b: seq<LedgerRow>, c: seq<LedgerRow>, d: seq<LedgerRow>,
                                    e: seq<LedgerRow>, f: seq<LedgerRow>)
    requires Tagged(a, 0) && Tagged(b, 1) && Tagged(c, 2) && Tagged(d, 3) && Tagged(e, 4) && Tagged(f, 5)
    ensures Unique(IdOf, a + b + c + d + e + f) <==>
            && Unique(IdOf, a) && Unique(IdOf, b) && Unique(IdOf, c)
            && Unique(IdOf, d) && Unique(IdOf, e) && Unique(IdOf, f)
  {
    TagsApart(a, b, 1);
    TagsApart(a + b, c, 2);
    TagsApart(a + b + c, d, 3);
    TagsApart(a + b + c + d, e, 4);
    TagsApart(a + b + c + d + e, f, 5);
  }

  // ---------------------------------------------------------------------------
  // Runs of replacements
  // ---------------------------------------------------------------------------

  /** A failed write leaves the table as it was. */
  function StoredLedger(c: Context, batches: seq<seq<Raw>>): seq<LedgerRow> {
    if batches == [] then []
    else
      var n := |batches| - 1;
      var earlier := StoredLedger(c, batches[..n]);
      var r := Replace(earlier, RawIds(batches[n]), LedgerOf(c, batches[n]));
      if r.Ok? then r.value else earlier
  }

  ghost predicate WritableBatch(c: Context, batch: seq<Raw>) {
    DistinctBy(RawId, batch) && forall raw | raw in batch :: LedgerIdsApart(c, raw)
  }

  /** Every batch holds a raw row once, and its ledger rows have distinct ids. */
  ghost predicate Writable(c: Context, batches: seq<seq<Raw>>) { forall b | b in batches :: WritableBatch(c, b) }

  lemma {:induction false} WritableLast(c: Context, batches: seq<seq<Raw>>)
    requires batches != [] && Writable(c, batches)
    ensures Writable(c, batches[..|batches| - 1]) && WritableBatch(c, batches[|batches| - 1])
  {
    assert forall b | b in batches[..|batches| - 1] :: b in batches;
    assert batches[|batches| - 1] in batches;
  }

  lemma {:induction false} LedgerFromInputs(c: Context, raws: seq<Raw>)
    ensures FromInputs(LedgerOf(c, raws), RawIds(raws))
  {
    LedgerIsLines(c, raws);
    forall r | r in Lines(c, raws) ensures r.id.raw in RawIds(raws) {
      InFlatMap(TransferLines(c), raws, r);
      InFlatMap(NativeLines(c), raws, r);
      InFlatMap(PositionLines(c), raws, r);
      InFlatMap(SettlementLines(c), raws, r);
      InFlatMap(FundingLines(c), raws, r);
      InFlatMap(FlowRows(c), raws, r);
      forall raw | raw in raws
        ensures PartOk(TransferLines(c), 0, raw) && PartOk(NativeLines(c), 1, raw) && PartOk(PositionLines(c), 2, raw)
        ensures PartOk(SettlementLines(c), 3, raw) && PartOk(FundingLines(c), 4, raw) && PartOk(FlowRows(c), 5, raw)
      {
        LinesOk(c, raw);
      }
    }
  }

  /** A batch is stored whole if and only if its ids are distinct; whatever was stored before. */
  lemma {:induction false} BatchIsReplacedIff(c: Context, stored: seq<LedgerRow>, batch: seq<Raw>)
    requires DistinctBy(RawId, batch)
    ensures Replace(stored, RawIds(batch), LedgerOf(c, batch)) ==
            Ok(Replaced(stored, RawIds(batch), LedgerOf(c, batch)))
            <==> forall raw | raw in batch :: LedgerIdsApart(c, raw)
  {
    LedgerFromInputs(c, batch);
    ReplaceKeepsAllIff(stored, RawIds(batch), LedgerOf(c, batch));
    LedgerIdsIff(c, batch);
  }

  function OtherThan(ids: set<nat>): Raw -> bool { (raw: Raw) => raw.origin.raw !in ids }

  /** Every delivered raw row once, as it was last delivered. */
  function Latest(batches: seq<seq<Raw>>): seq<Raw> {
    if batches == [] then []
    else
      var n := |batches| - 1;
      Filter(OtherThan(RawIds(batches[n])), Latest(batches[..n])) + batches[n]
  }

  /** The cash a row books under a key, counted only for some raw rows. */
  function BookedFor(k: Key, keep: nat -> bool): LedgerRow -> real {
    (r: LedgerRow) => if keep(r.id.raw) then Booked(k)(r) else 0.0
  }

  function RawBooked(c: Context, k: Key, keep: nat -> bool): Raw -> real {
    (raw: Raw) => if keep(raw.origin.raw) then Sum(Booked(k), LedgerOf(c, [raw])) else 0.0
  }

  // The ledger of a batch, raw row by raw row

  lemma {:induction false} NestedSplit<R, T, U>(g: U -> real, f: T -> seq<U>, e: R -> seq<T>, a: seq<R>, b: seq<R>)
    ensures Sum(g, FlatMap(f, FlatMap(e, a + b))) ==
            Sum(g, FlatMap(f, FlatMap(e, a))) + Sum(g, FlatMap(f, FlatMap(e, b)))
  {
    FlatMapConcat(e, a, b);
    FlatMapConcat(f, FlatMap(e, a), FlatMap(e, b));
    SumConcat(g, FlatMap(f, FlatMap(e, a)), FlatMap(f, FlatMap(e, b)));
  }

  function Parts(g: LedgerRow -> real, c: Context, raws: seq<Raw>): real {
    Sum(g, FlatMap(TransferRows(c), FlatMap(TransfersOf(c), raws)))
    + Sum(g, FlatMap(DeltaRows(c), FlatMap(DeltasOf(c), raws)))
    + Sum(g, FlatMap(PositionRow, FlatMap(FillsOf(c), raws)))
    + Sum(g, FlatMap(SettlementRows, FlatMap(FillsOf(c), raws)))
    + Sum(g, FlatMap(FundingRows, FlatMap(FundingOf(c), raws)))
    + Sum(g, FlatMap(FlowRows(c), raws))
  }

  lemma {:induction false} LedgerParts(g: LedgerRow -> real, c: Context, raws: seq<Raw>)
    ensures Sum(g, LedgerOf(c, raws)) == Parts(g, c, raws)
  {
    SumSix(g, FlatMap(TransferRows(c), FlatMap(TransfersOf(c), raws)),
           FlatMap(DeltaRows(c), FlatMap(DeltasOf(c), raws)),
           FlatMap(PositionRow, FlatMap(FillsOf(c), raws)), FlatMap(SettlementRows, FlatMap(FillsOf(c), raws)),
           FlatMap(FundingRows, FlatMap(FundingOf(c), raws)), FlatMap(FlowRows(c), raws));
  }

  lemma {:induction false} LedgerSplit(g: LedgerRow -> real, c: Context, raws: seq<Raw>, a: seq<Raw>, b: seq<Raw>)
    requires raws == a + b
    ensures Sum(g, LedgerOf(c, raws)) == Sum(g, LedgerOf(c, a)) + Sum(g, LedgerOf(c, b))
  {
    LedgerParts(g, c, raws);
    LedgerParts(g, c, a);
    LedgerParts(g, c, b);
    NestedSplit(g, TransferRows(c), TransfersOf(c), a, b);
    NestedSplit(g, DeltaRows(c), DeltasOf(c), a, b);
    NestedSplit(g, PositionRow, FillsOf(c), a, b);
    NestedSplit(g, SettlementRows, FillsOf(c), a, b);
    NestedSplit(g, FundingRows, FundingOf(c), a, b);
    FlatMapConcat(FlowRows(c), a, b);
    SumConcat(g, FlatMap(FlowRows(c), a), FlatMap(FlowRows(c), b));
  }

  lemma {:induction false} NoLedger(g: LedgerRow -> real, c: Context)
    ensures Sum(g, LedgerOf(c, [])) == 0.0
  {
    LedgerParts(g, c, []);
  }

  lemma {:induction false} SumOfNothing<T>(f: T -> real, s: seq<T>)
    requires forall x | x in s :: f(x) == 0.0
    ensures Sum(f, s) == 0.0
  {
    if s != [] { SumOfNothing(f, s[1..]); }
  }

  lemma {:induction false} BookedByRaw(c: Context, k: Key, keep: nat -> bool, raw: Raw)
    ensures Sum(BookedFor(k, keep), LedgerOf(c, [raw])) == RawBooked(c, k, keep)(raw)
  {
    LedgerRowsFrom(c, raw);
    if keep(raw.origin.raw) {
      SumAgrees(BookedFor(k, keep), Booked(k), LedgerOf(c, [raw]));
    } else {
      SumOfNothing(BookedFor(k, keep), LedgerOf(c, [raw]));
    }
  }

  lemma {:induction false} LedgerByRaw(c: Context, k: Key, keep: nat -> bool, raws: seq<Raw>)
    ensures Sum(BookedFor(k, keep), LedgerOf(c, raws)) == Sum(RawBooked(c, k, keep), raws)
  {
    if raws == [] {
      NoLedger(BookedFor(k, keep), c);
    } else {
      var first, rest := [raws[0]], raws[1..];
      assert raws == first + rest;
      LedgerSplit(BookedFor(k, keep), c, raws, first, rest);
      BookedByRaw(c, k, keep, raws[0]);
      LedgerByRaw(c, k, keep, rest);
    }
  }

  function And(keep: nat -> bool, ids: set<nat>): nat -> bool { (id: nat) => keep(id) && id !in ids }

  lemma {:induction false} FilteredRows(k: Key, keep: nat -> bool, ids: set<nat>, stored: seq<LedgerRow>)
    ensures Sum(BookedFor(k, keep), Filter(NotFrom(ids), stored)) == Sum(BookedFor(k, And(keep, ids)), stored)
  {
    if stored != [] {
      FilteredRows(k, keep, ids, stored[1..]);
      SumConcat(BookedFor(k, keep), if NotFrom(ids)(stored[0]) then [stored[0]] else [],
                Filter(NotFrom(ids), stored[1..]));
      SumOne(BookedFor(k, keep), stored[0]);
    }
  }

  lemma {:induction false} FilteredRaws(c: Context, k: Key, keep: nat -> bool, ids: set<nat>, raws: seq<Raw>)
    ensures Sum(RawBooked(c, k, keep), Filter(OtherThan(ids), raws)) == Sum(RawBooked(c, k, And(keep, ids)), raws)
  {
    if raws != [] {
      FilteredRaws(c, k, keep, ids, raws[1..]);
      SumConcat(RawBooked(c, k, keep), if OtherThan(ids)(raws[0]) then [raws[0]] else [],
                Filter(OtherThan(ids), raws[1..]));
      SumOne(RawBooked(c, k, keep), raws[0]);
    }
  }

  lemma {:induction false} StoredByRaw(c: Context, k: Key, keep: nat -> bool, batches: seq<seq<Raw>>)
    requires Writable(c, batches)
    ensures Sum(BookedFor(k, keep), StoredLedger(c, batches)) == Sum(RawBooked(c, k, keep), Latest(batches))
  {
    if batches != [] {
      var n := |batches| - 1;
      var ids := RawIds(batches[n]);
      WritableLast(c, batches);
      BatchIsReplacedIff(c, StoredLedger(c, batches[..n]), batches[n]);
      StoredByRaw(c, k, And(keep, ids), batches[..n]);
      FilteredRows(k, keep, ids, StoredLedger(c, batches[..n]));
      FilteredRaws(c, k, keep, ids, Latest(batches[..n]));
      LedgerByRaw(c, k, keep, batches[n]);
      SumConcat(BookedFor(k, keep), Filter(NotFrom(ids), StoredLedger(c, batches[..n])), LedgerOf(c, batches[n]));
      SumConcat(RawBooked(c, k, keep), Filter(OtherThan(ids), Latest(batches[..n])), batches[n]);
    }
  }

  function Always(id: nat): bool { true }

  /** Replays never double the ledger: what is stored books what the latest delivery of every raw row does. */
  lemma {:induction false} StoredLedgerBooks(c: Context, k: Key, batches: seq<seq<Raw>>)
    requires Writable(c, batches)
    ensures Sum(Booked(k), StoredLedger(c, batches)) == Sum(Booked(k), LedgerOf(c, Latest(batches)))
  {
    StoredByRaw(c, k, Always, batches);
    LedgerByRaw(c, k, Always, Latest(batches));
    SumAgrees(BookedFor(k, Always), Booked(k), StoredLedger(c, batches));
    SumAgrees(BookedFor(k, Always), Booked(k), LedgerOf(c, Latest(batches)));
  }

  // ---------------------------------------------------------------------------
  // A batch that the table refuses, or stores in part
  // ---------------------------------------------------------------------------

  /**
   Two transfers of one token to the wallet, five from one party and seven from another, with the same
   index: a log without an index falls back to its position, which another log may have as its index.
   */
  function TwoLogs(origin: Origin): Raw {
    Raw(origin, UnknownPayload,
        [TokenTransfer(origin, "X", None, "A", "W", 5.0, 18, 1),
         TokenTransfer(origin, "X", None, "B", "W", 7.0, 18, 1)],
        [], None)
  }

  const PLAIN := Context((text: string) => None, (address: string) => address, "W")

  lemma {:induction false} TwoLogsTransfers(origin: Origin)
    requires !IsHyperliquid(origin.network)
    ensures TransfersOf(PLAIN)(TwoLogs(origin)) == TwoLogs(origin).transfers
    ensures DeltasOf(PLAIN)(TwoLogs(origin)) == [] && FlowRows(PLAIN)(TwoLogs(origin)) == []
    ensures FillsOf(PLAIN)(TwoLogs(origin)) == [] && FundingOf(PLAIN)(TwoLogs(origin)) == []
  {
    var a, b := TwoLogs(origin).transfers[0], TwoLogs(origin).transfers[1];
    FlatMapConcat(StampTransfer(origin), [a], [b]);
    FlatMapOne(StampTransfer(origin), a);
    FlatMapOne(StampTransfer(origin), b);
    assert [a] + [b] == [a, b];
  }

  /** Both ledger rows have one id: alone the batch is refused whole, so that nothing of it is stored. */
  lemma {:induction false} TwoLogsAreRefused(origin: Origin)
    requires !IsHyperliquid(origin.network)
    ensures var k := KeyIn(origin, "X");
            var id := TransferId(origin.raw, "X", 1, false);
            && LedgerOf(PLAIN, [TwoLogs(origin)]) ==
              [LedgerRow(id, k, TransferRow, 5.0), LedgerRow(id, k, TransferRow, 7.0)]
            && !LedgerIdsApart(PLAIN, TwoLogs(origin))
            && StoredLedger(PLAIN, [[TwoLogs(origin)]]) == []
            && Sum(Moved(k), EventsOf(PLAIN, [TwoLogs(origin)])) == 12.0
  {
    var raw, k := TwoLogs(origin), KeyIn(origin, "X");
    var id := TransferId(origin.raw, "X", 1, false);
    var rows := [LedgerRow(id, k, TransferRow, 5.0), LedgerRow(id, k, TransferRow, 7.0)];
    TwoLogsLedger(origin);
    TwoLogsTransfers(origin);
    assert "A" != "W" && "B" != "W" by { assert "A"[0] != "W"[0] && "B"[0] != "W"[0]; }
    assert BooksTransfer(PLAIN, raw.transfers[0]) && BooksTransfer(PLAIN, raw.transfers[1]);
    LedgerReconciles(PLAIN, [raw], k);
    SumTwo(Booked(k), rows[0], rows[1]);
    RefusedAlone(raw, rows);
  }

  lemma {:induction false} RefusedAlone(raw: Raw, rows: seq<LedgerRow>)
    requires LedgerOf(PLAIN, [raw]) == rows && |rows| == 2 && rows[0].id == rows[1].id
    ensures StoredLedger(PLAIN, [[raw]]) == []
  {
    ChunkShifts(0, 1);
    assert RepeatsInChunk(rows);
    WriteFailsIff([], rows);
    assert [[raw]][..0] == [] && StoredLedger(PLAIN, []) == [];
    assert Filter(NotFrom(RawIds([raw])), []) == [];
  }

  lemma {:induction false} TwoLogsLedger(origin: Origin)
    requires !IsHyperliquid(origin.network)
    ensures var k, id := KeyIn(origin, "X"), TransferId(origin.raw, "X", 1, false);
            LedgerOf(PLAIN, [TwoLogs(origin)]) ==
              [LedgerRow(id, k, TransferRow, 5.0), LedgerRow(id, k, TransferRow, 7.0)]
  {
    var raw := TwoLogs(origin);
    TwoLogsTransfers(origin);
    LedgerIsLines(PLAIN, [raw]);
    FlatMapOne(TransferLines(PLAIN), raw);
    FlatMapOne(NativeLines(PLAIN), raw);
    FlatMapOne(PositionLines(PLAIN), raw);
    FlatMapOne(SettlementLines(PLAIN), raw);
    FlatMapOne(FundingLines(PLAIN), raw);
    FlatMapOne(FlowRows(PLAIN), raw);
    TwoRows(TransferRows(PLAIN), raw.transfers[0], raw.transfers[1]);
    assert "A" != "W" && "B" != "W" by { assert "A"[0] != "W"[0] && "B"[0] != "W"[0]; }
  }

  lemma {:induction false} TwoRows<T, U>(f: T -> seq<U>, a: T, b: T)
    ensures FlatMap(f, [a, b]) == f(a) + f(b)
  {
    FlatMapConcat(f, [a], [b]);
    FlatMapOne(f, a);
    FlatMapOne(f, b);
    assert [a] + [b] == [a, b];
  }

  lemma {:induction false} SumTwo<T>(f: T -> real, a: T, b: T)
    ensures Sum(f, [a, b]) == f(a) + f(b)
  {
    SumConcat(f, [a], [b]);
    SumOne(f, a);
    SumOne(f, b);
    assert [a] + [b] == [a, b];
  }
}
