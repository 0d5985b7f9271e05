/** The Hyperliquid wallet backfill: three streams with independent time cursors in one batch. */
module HlBackfill {
  import opened Common
  import opened TimeWindow
  import opened HlPaging

  datatype Kind = Fill | Funding | LedgerUpdate

  function Cap(kind: Kind): nat { if kind == Fill then 2000 else 500 }

  /** How many events a provider puts on a page; a cap that differs would take a full page for the whole rest. */
  function PageSize(kind: Kind): nat { match kind case Fill => 2000 case Funding => 500 case LedgerUpdate => 500 }

  /** The checkpoint fields fills_ms, funding_ms and ledger_ms. */
  datatype Cursor = Cursor(fills: Option<int>, funding: Option<int>, ledger: Option<int>) {
    function Get(kind: Kind): Option<int> {
      match kind case Fill => fills case Funding => funding case LedgerUpdate => ledger
    }

    function Set(kind: Kind, time: int): Cursor {
      match kind
      case Fill => this.(fills := Some(time))
      case Funding => this.(funding := Some(time))
      case LedgerUpdate => this.(ledger := Some(time))
    }
  }

  /** A raw row; its tx_hash is a UUID v5 over (wallet, kind, data), so kind and value identify it. */
  datatype Record = Record(kind: Kind, value: Value)

  datatype Batch = Batch(records: seq<Record>, next: Cursor)

  function ValueOf(kind: Kind): Record -> seq<Value> { (r: Record) => if r.kind == kind then [r.value] else [] }

  function ValuesOf(kind: Kind, records: seq<Record>): seq<Value> { FlatMap(ValueOf(kind), records) }

  type Provider = (Kind, int) -> Result<seq<Value>>

  ghost predicate PageFails(page: seq<Value>, start: int, cap: nat) {
    (exists v | v in page :: !ValidTime(v)) || Stuck(Filter(AtLeast(start), page), cap <= |page|)
  }

  ghost predicate StreamFails(cursor: Cursor, provider: Provider, kind: Kind) {
    var start := Resume(cursor.Get(kind));
    provider(kind, start).Err? || PageFails(provider(kind, start).value, start, Cap(kind))
  }

  /** Each stream contributes its own bounded window and moves only its own cursor. */
  ghost predicate StreamAdvanced(cursor: Cursor, limit: nat, provider: Provider, batch: Batch, kind: Kind) {
    var start := Resume(cursor.Get(kind));
    var w := ValuesOf(kind, batch.records);
    && provider(kind, start).Ok?
    && IsWindow(provider(kind, start).value, start, limit, Cap(kind), Ok(w))
    && batch.next.Get(kind) == NextCursor(cursor.Get(kind), w)
  }

  lemma {:induction false} ValuesOfIn(kind: Kind, records: seq<Record>, v: Value)
    ensures v in ValuesOf(kind, records) <==> Record(kind, v) in records
  {
    if records != [] {
      ValuesOfIn(kind, records[1..], v);
      assert records == [records[0]] + records[1..];
    }
  }

  /**
   The stream's values follow what was there, its cursor is at the last of them, and the other
   streams are as they were.
   */
  ghost predicate Appended(kind: Kind, values: seq<Value>, before: Batch, after: Batch) {
    forall k ::
      && ValuesOf(k, after.records) == ValuesOf(k, before.records) + (if k == kind then values else [])
      && after.next.Get(k) == if k == kind then NextCursor(before.next.Get(k), values) else before.next.Get(k)
  }

  lemma {:induction false} AppendStep(kind: Kind, values: seq<Value>, v: Value, before: Batch, after: Batch)
    requires Appended(kind, values, before, after) && ValidTime(v)
    ensures Appended(kind, values + [v], before,
                     Batch(after.records + [Record(kind, v)], after.next.Set(kind, v.time.value)))
  {
    var end := Batch(after.records + [Record(kind, v)], after.next.Set(kind, v.time.value));
    forall k
      ensures ValuesOf(k, end.records) == ValuesOf(k, before.records) + if k == kind then values + [v] else []
    {
      FlatMapSnoc(ValueOf(k), after.records, Record(kind, v));
    }
  }

  /** The inner loop: push one record per event and move the stream's cursor to its time. */
  method Append(kind: Kind, values: seq<Value>, records0: seq<Record>, next0: Cursor)
      returns (records: seq<Record>, next: Cursor)
    requires forall v | v in values :: ValidTime(v)
    ensures Appended(kind, values, Batch(records0, next0), Batch(records, next))
  {
    records, next := records0, next0;
    for i := 0 to |values|
      invariant Appended(kind, values[..i], Batch(records0, next0), Batch(records, next))
    {
      AppendStep(kind, values[..i], values[i], Batch(records0, next0), Batch(records, next));
      assert values[..i + 1] == values[..i] + [values[i]];
      next := next.Set(kind, values[i].time.value);
      records := records + [Record(kind, values[i])];
    }
    assert values[..|values|] == values;
  }

  lemma {:induction false} WindowValuesValid(page: seq<Value>, start: int, limit: nat, cap: nat, w: seq<Value>)
    requires IsWindow(page, start, limit, cap, Ok(w))
    ensures forall v | v in w :: v in page && ValidTime(v)
  {
    if w != [] {
      var kept := Filter(AtLeast(start), page);
      FilterContents(AtLeast(start), page);
      FilterContents(AtMost(LastTime(w)), kept);
      SameElements(w, Filter(AtMost(LastTime(w)), kept));
    }
  }

  lemma {:induction false} WindowFails(page: seq<Value>, start: int, limit: nat, cap: nat, r: Result<seq<Value>>)
    requires IsWindow(page, start, limit, cap, r)
    ensures r.Err? <==> PageFails(page, start, cap)
  {
  }

  /** One pass of the outer loop: resume the stream, fetch its page, cut it, append it. */
  method Stream(kind: Kind, cursor: Cursor, limit: nat, provider: Provider, records0: seq<Record>, next0: Cursor)
    returns (r: Result<Batch>)
    requires 0 < limit && ValuesOf(kind, records0) == [] && next0.Get(kind) == cursor.Get(kind)
    ensures r.Err? <==> StreamFails(cursor, provider, kind)
    ensures r.Ok? ==> StreamAdvanced(cursor, limit, provider, r.value, kind)
    ensures r.Ok? ==> forall k | k != kind ::
              ValuesOf(k, r.value.records) == ValuesOf(k, records0) && r.value.next.Get(k) == next0.Get(k)
  {
    var start := Resume(next0.Get(kind));
    var page := provider(kind, start);
    if page.Err? { return Err(page.message); }
    var window := BoundedTimeWindow(page.value, start, limit, Cap(kind));
    WindowFails(page.value, start, limit, Cap(kind), window);
    if window.Err? { return Err(window.message); }
    assert forall v | v in window.value :: ValidTime(v) by {
      WindowValuesValid(page.value, start, limit, Cap(kind), window.value);
    }
    var records, next := Append(kind, window.value, records0, next0);
    assert ValuesOf(kind, records) == window.value;
    return Ok(Batch(records, next));
  }

  ghost predicate StreamPending(cursor: Cursor, batch: Batch, kind: Kind) {
    ValuesOf(kind, batch.records) == [] && batch.next.Get(kind) == cursor.Get(kind)
  }

  /** A stream's outcome depends only on its own values and cursor field. */
  lemma {:induction false} StreamFrame(cursor: Cursor, limit: nat, provider: Provider, a: Batch, b: Batch, kind: Kind)
    requires ValuesOf(kind, a.records) == ValuesOf(kind, b.records) && a.next.Get(kind) == b.next.Get(kind)
    ensures StreamAdvanced(cursor, limit, provider, a, kind) ==> StreamAdvanced(cursor, limit, provider, b, kind)
    ensures StreamPending(cursor, a, kind) ==> StreamPending(cursor, b, kind)
  {
  }

  function Turn(kind: Kind): nat { if kind == Fill then 0 else if kind == Funding then 1 else 2 }

  /** The first `n` streams are done, the others untouched. */
  ghost predicate Progress(cursor: Cursor, limit: nat, provider: Provider, batch: Batch, n: nat) {
    forall kind ::
      if Turn(kind) < n
      then !StreamFails(cursor, provider, kind) && StreamAdvanced(cursor, limit, provider, batch, kind)
      else StreamPending(cursor, batch, kind)
  }

  lemma {:induction false} ProgressStep(cursor: Cursor, limit: nat, provider: Provider, a: Batch, b: Batch, kind: Kind)
    requires Progress(cursor, limit, provider, a, Turn(kind))
    requires !StreamFails(cursor, provider, kind) && StreamAdvanced(cursor, limit, provider, b, kind)
    requires forall k | k != kind :: ValuesOf(k, b.records) == ValuesOf(k, a.records) && b.next.Get(k) == a.next.Get(k)
    ensures Progress(cursor, limit, provider, b, Turn(kind) + 1)
  {
    forall k | k != kind { StreamFrame(cursor, limit, provider, a, b, k); }
  }

  method WalletBackfill(cursor: Cursor, limit: nat, provider: Provider) returns (r: Result<Batch>)
    ensures r.Err? <==> !(1 <= limit <= 100_000) || exists kind :: StreamFails(cursor, provider, kind)
    ensures r.Ok? ==> forall kind :: StreamAdvanced(cursor, limit, provider, r.value, kind)
  {
    if !(1 <= limit <= 100_000) { return Err("Hyperliquid limit must be 1-100000"); }
    var kinds := [Fill, Funding, LedgerUpdate];
    var batch := Batch([], cursor);
    for i := 0 to 3
      invariant Progress(cursor, limit, provider, batch, i)
    {
      var kind := kinds[i];
      assert Turn(kind) == i;
      assert StreamPending(cursor, batch, kind);
      var s := Stream(kind, cursor, limit, provider, batch.records, batch.next);
      if s.Err? { return Err(s.message); }
      ProgressStep(cursor, limit, provider, batch, s.value, kind);
      batch := s.value;
    }
    return Ok(batch);
  }

  // ---------------------------------------------------------------------------
  // What a stored cursor promises
  // ---------------------------------------------------------------------------

  /** The provider's whole history of a wallet, per stream. */
  datatype World = World(fills: seq<Value>, funding: seq<Value>, ledger: seq<Value>) {
    function History(kind: Kind): seq<Value> {
      match kind case Fill => fills case Funding => funding case LedgerUpdate => ledger
    }
  }

  ghost predicate ValidWorld(w: World) { forall kind: Kind :: ValidHistory(w.History(kind)) }

  /** Every event that `b` shows and `a` does not is later than the cursor. */
  ghost predicate StreamLater(a: seq<Value>, b: seq<Value>, cursor: Option<int>) {
    cursor.Some? ==> forall v | v in b && v !in a :: cursor.value < Time(v)
  }

  ghost predicate Later(a: World, b: World, cursor: Cursor) {
    forall kind: Kind :: StreamLater(a.History(kind), b.History(kind), cursor.Get(kind))
  }

  /** Every event at or before the stream's cursor is stored. */
  ghost predicate StreamCovered(history: seq<Value>, cursor: Option<int>, kind: Kind, rows: set<Record>) {
    cursor.Some? ==> forall v | v in history && Time(v) <= cursor.value :: Record(kind, v) in rows
  }

  ghost predicate Covered(w: World, cursor: Cursor, rows: set<Record>) {
    forall kind: Kind :: StreamCovered(w.History(kind), cursor.Get(kind), kind, rows)
  }

  function RecordsOf(kind: Kind, values: seq<Value>): set<Record> { set v | v in values :: Record(kind, v) }

  /** What a window holds, as a set: the events from the resume point to its last time. */
  lemma {:induction false} WindowIsInterval(history: seq<Value>, start: int, limit: nat, cap: nat, page: seq<Value>,
                                            w: seq<Value>)
    requires 0 < cap && Faithful(history, start, cap, page) && IsWindow(page, start, limit, cap, Ok(w)) && w != []
    ensures forall v :: v in w <==> v in history && start <= Time(v) <= LastTime(w)
  {
    WindowHasNoGaps(history, start, limit, cap, page, w);
    FilterContents(Between(start, LastTime(w)), history);
    SameElements(w, Filter(Between(start, LastTime(w)), history));
    forall v ensures v in w <==> v in history && start <= Time(v) <= LastTime(w) {
      assert v in w <==> v in Filter(Between(start, LastTime(w)), history);
      assert Between(start, LastTime(w))(v) <==> start <= Time(v) <= LastTime(w);
    }
  }

  /** One stream: a window of a page that was faithful at its own moment covers the cursor it moves to. */
  lemma {:induction false} WindowKeepsCovered(history: seq<Value>, cursor: Option<int>, limit: nat, kind: Kind,
                                              page: seq<Value>, w: seq<Value>, rows: set<Record>)
    requires ValidHistory(history) && StreamCovered(history, cursor, kind, rows)
    requires Faithful(history, Resume(cursor), Cap(kind), page)
    requires IsWindow(page, Resume(cursor), limit, Cap(kind), Ok(w))
    ensures StreamCovered(history, NextCursor(cursor, w), kind, rows + RecordsOf(kind, w))
  {
    if w != [] {
      WindowIsInterval(history, Resume(cursor), limit, Cap(kind), page, w);
      IntervalCovers(history, cursor, kind, w, rows);
    }
  }

  lemma {:induction false} IntervalCovers(history: seq<Value>, cursor: Option<int>, kind: Kind, w: seq<Value>,
                                          rows: set<Record>)
    requires ValidHistory(history) && StreamCovered(history, cursor, kind, rows) && w != []
    requires forall v :: v in w <==> v in history && Resume(cursor) <= Time(v) <= LastTime(w)
    ensures StreamCovered(history, Some(LastTime(w)), kind, rows + RecordsOf(kind, w))
  {
    forall v | v in history && Time(v) <= LastTime(w) ensures Record(kind, v) in rows + RecordsOf(kind, w) {
      if Resume(cursor) <= Time(v) { assert v in w; }
    }
  }

  /** Stored rows and events that appear later never break what a cursor claims. */
  lemma {:induction false} CoveredIsMonotone(a: World, b: World, cursor: Cursor, rows: set<Record>, more: set<Record>)
    requires Later(a, b, cursor) && Covered(a, cursor, rows) && rows <= more
    ensures Covered(b, cursor, more)
  {
    forall kind: Kind ensures StreamCovered(b.History(kind), cursor.Get(kind), kind, more) {
      assert StreamCovered(a.History(kind), cursor.Get(kind), kind, rows);
      assert StreamLater(a.History(kind), b.History(kind), cursor.Get(kind));
    }
  }

  /** A new event at or before its stream's cursor. */
  ghost predicate Late(a: World, b: World, cursor: Cursor, kind: Kind, v: Value) {
    && v in b.History(kind) && v !in a.History(kind)
    && cursor.Get(kind).Some? && Time(v) <= cursor.Get(kind).value
  }

  /** The claim survives growth if and only if every late event is already stored. */
  lemma {:induction false} CoveredIff(a: World, b: World, cursor: Cursor, rows: set<Record>)
    requires Covered(a, cursor, rows)
    ensures Covered(b, cursor, rows) <==> forall kind: Kind, v | Late(a, b, cursor, kind, v) :: Record(kind, v) in rows
  {
    if forall kind: Kind, v | Late(a, b, cursor, kind, v) :: Record(kind, v) in rows {
      forall kind: Kind ensures StreamCovered(b.History(kind), cursor.Get(kind), kind, rows) {
        assert StreamCovered(a.History(kind), cursor.Get(kind), kind, rows);
        assert forall v | Late(a, b, cursor, kind, v) :: Record(kind, v) in rows;
      }
    }
    if Covered(b, cursor, rows) {
      forall kind: Kind, v | Late(a, b, cursor, kind, v) ensures Record(kind, v) in rows {
        assert StreamCovered(b.History(kind), cursor.Get(kind), kind, rows);
      }
    }
  }

  /** An event that appears at or before the cursor is lost: no later window of the stream, however many, holds it. */
  lemma {:induction false} LateEventIsLost(history: seq<Value>, cursor: Option<int>, limit: nat, cap: nat,
                                           ws: seq<seq<Value>>, v: Value)
    requires 0 < cap && ValidHistory(history) && ValidCursor(cursor) && Windows(history, cursor, limit, cap, ws)
    requires v in history && cursor.Some? && Time(v) <= cursor.value
    ensures v !in Flatten(ws)
  {
    WindowsSorted(history, cursor, limit, cap, ws);
  }

  /** A run that loses one: a second event of a millisecond whose first was already served. */
  lemma {:induction false} LateEventCanBeLost(rows: set<Record>)
    requires rows == {Record(Fill, Value(Some(5), "first"))}
    ensures var before := World([Value(Some(5), "first")], [], []);
            var after := World([Value(Some(5), "first"), Value(Some(5), "second")], [], []);
            Covered(before, Cursor(Some(5), None, None), rows) && !Covered(after, Cursor(Some(5), None, None), rows)
  {
    var late := Value(Some(5), "second");
    var after := World([Value(Some(5), "first"), late], [], []);
    var cursor := Cursor(Some(5), None, None);
    assert "first" != "second" by { assert |"first"| != |"second"|; }
    assert late in after.History(Fill) && Time(late) <= cursor.Get(Fill).value;
    assert !StreamCovered(after.History(Fill), cursor.Get(Fill), Fill, rows);
  }

  /** Each stream is answered from a moment of its own. */
  ghost predicate FaithfulProvider(moments: Kind -> seq<Value>, cursor: Cursor, provider: Provider) {
    forall kind: Kind ::
      var start := Resume(cursor.Get(kind));
      provider(kind, start).Ok? ==> Faithful(moments(kind), start, PageSize(kind), provider(kind, start).value)
  }

  lemma {:induction false} StreamKeepsCovered(moment: seq<Value>, now: seq<Value>, cursor: Cursor, limit: nat,
                                              provider: Provider, batch: Batch, kind: Kind, rows: set<Record>)
    requires ValidHistory(moment) && StreamCovered(moment, cursor.Get(kind), kind, rows)
    requires StreamAdvanced(cursor, limit, provider, batch, kind)
    requires Faithful(moment, Resume(cursor.Get(kind)), Cap(kind), provider(kind, Resume(cursor.Get(kind))).value)
    requires StreamLater(moment, now, batch.next.Get(kind))
    ensures StreamCovered(now, batch.next.Get(kind), kind, rows + set r | r in batch.records)
  {
    var values := ValuesOf(kind, batch.records);
    WindowKeepsCovered(moment, cursor.Get(kind), limit, kind, provider(kind, Resume(cursor.Get(kind))).value, values,
                       rows);
    forall v | v in values ensures Record(kind, v) in batch.records { ValuesOfIn(kind, batch.records, v); }
    assert RecordsOf(kind, values) <= set r | r in batch.records;
  }

  /**
   A backfill whose three requests were answered at three moments: from a covered cursor it yields one
   covered by the stored rows plus the batch, provided that what appeared since is later than it.
   */
  lemma {:induction false} BackfillKeepsCovered(moments: Kind -> seq<Value>, now: World, cursor: Cursor, limit: nat,
                                                provider: Provider, batch: Batch, rows: set<Record>)
    requires FaithfulProvider(moments, cursor, provider)
    requires forall kind :: ValidHistory(moments(kind)) && StreamCovered(moments(kind), cursor.Get(kind), kind, rows)
    requires forall kind :: StreamLater(moments(kind), now.History(kind), batch.next.Get(kind))
    requires forall kind :: StreamAdvanced(cursor, limit, provider, batch, kind)
    ensures Covered(now, batch.next, rows + set r | r in batch.records)
  {
    var more := rows + set r | r in batch.records;
    forall kind: Kind ensures StreamCovered(now.History(kind), batch.next.Get(kind), kind, more) {
      StreamKeepsCovered(moments(kind), now.History(kind), cursor, limit, provider, batch, kind, rows);
    }
  }

  // ---------------------------------------------------------------------------
  // A backfill under way: some streams have their window, the others not yet
  // ---------------------------------------------------------------------------

  function WindowAt(ws: map<Kind, seq<Value>>, kind: Kind): seq<Value> { if kind in ws then ws[kind] else [] }

  function Advanced(cursor: Cursor, ws: map<Kind, seq<Value>>): Cursor {
    Cursor(NextCursor(cursor.fills, WindowAt(ws, Fill)),
           NextCursor(cursor.funding, WindowAt(ws, Funding)),
           NextCursor(cursor.ledger, WindowAt(ws, LedgerUpdate)))
  }

  ghost function WindowRecords(ws: map<Kind, seq<Value>>): set<Record> {
    set kind, v | kind in ws && v in ws[kind] :: Record(kind, v)
  }

  /** One more stream's window, from a page that is faithful now, keeps what the advanced cursors claim. */
  lemma {:induction false} PageKeepsCovered(w: World, cursor: Cursor, ws: map<Kind, seq<Value>>, kind: Kind, limit: nat,
                                            page: seq<Value>, window: seq<Value>, rows: set<Record>)
    requires ValidWorld(w) && kind !in ws && Covered(w, Advanced(cursor, ws), rows + WindowRecords(ws))
    requires Faithful(w.History(kind), Resume(cursor.Get(kind)), Cap(kind), page)
    requires IsWindow(page, Resume(cursor.Get(kind)), limit, Cap(kind), Ok(window))
    ensures Covered(w, Advanced(cursor, ws[kind := window]), rows + WindowRecords(ws[kind := window]))
  {
    var stored := rows + WindowRecords(ws);
    StreamStands(w, cursor, ws, kind, stored);
    WindowKeepsCovered(w.History(kind), cursor.Get(kind), limit, kind, page, window, stored);
    OneStreamAdvances(w, cursor, ws, kind, window, stored);
    RecordsAdded(ws, kind, window, rows);
  }

  lemma {:induction false} StreamStands(w: World, cursor: Cursor, ws: map<Kind, seq<Value>>, kind: Kind,
                                        stored: set<Record>)
    requires kind !in ws && Covered(w, Advanced(cursor, ws), stored)
    ensures StreamCovered(w.History(kind), cursor.Get(kind), kind, stored)
  {
    AdvancedGet(cursor, ws, kind);
    assert StreamCovered(w.History(kind), Advanced(cursor, ws).Get(kind), kind, stored);
  }

  lemma {:induction false} OneStreamAdvances(w: World, cursor: Cursor, ws: map<Kind, seq<Value>>, kind: Kind,
                                             window: seq<Value>, stored: set<Record>)
    requires kind !in ws && Covered(w, Advanced(cursor, ws), stored)
    requires StreamCovered(w.History(kind), NextCursor(cursor.Get(kind), window), kind,
                           stored + RecordsOf(kind, window))
    ensures Covered(w, Advanced(cursor, ws[kind := window]), stored + RecordsOf(kind, window))
  {
    var more := stored + RecordsOf(kind, window);
    forall k: Kind ensures StreamCovered(w.History(k), Advanced(cursor, ws[kind := window]).Get(k), k, more) {
      AdvancedGet(cursor, ws[kind := window], k);
      AdvancedGet(cursor, ws, k);
      if k != kind { assert StreamCovered(w.History(k), Advanced(cursor, ws).Get(k), k, stored); }
    }
  }

  lemma {:induction false} AdvancedGet(cursor: Cursor, ws: map<Kind, seq<Value>>, kind: Kind)
    ensures Advanced(cursor, ws).Get(kind) == NextCursor(cursor.Get(kind), WindowAt(ws, kind))
  {
  }

  lemma {:induction false} RecordsAdded(ws: map<Kind, seq<Value>>, kind: Kind, window: seq<Value>, rows: set<Record>)
    requires kind !in ws
    ensures rows + WindowRecords(ws[kind := window]) == rows + WindowRecords(ws) + RecordsOf(kind, window)
  {
    assert WindowRecords(ws[kind := window]) == WindowRecords(ws) + RecordsOf(kind, window);
  }

  /** The batch made of all three windows. */
  ghost predicate Completes(cursor: Cursor, ws: map<Kind, seq<Value>>, batch: Batch) {
    forall kind: Kind ::
      && kind in ws && ValuesOf(kind, batch.records) == ws[kind]
      && batch.next.Get(kind) == NextCursor(cursor.Get(kind), ws[kind])
  }

  lemma {:induction false} CompletedBatch(cursor: Cursor, ws: map<Kind, seq<Value>>, batch: Batch)
    requires Completes(cursor, ws, batch)
    ensures batch.next == Advanced(cursor, ws)
    ensures (set r | r in batch.records) == WindowRecords(ws)
  {
    assert forall kind: Kind :: batch.next.Get(kind) == Advanced(cursor, ws).Get(kind);
    assert batch.next.Get(Fill) == Advanced(cursor, ws).Get(Fill);
    assert batch.next.Get(Funding) == Advanced(cursor, ws).Get(Funding);
    assert batch.next.Get(LedgerUpdate) == Advanced(cursor, ws).Get(LedgerUpdate);
    forall r: Record ensures r in batch.records <==> r in WindowRecords(ws) {
      ValuesOfIn(r.kind, batch.records, r.value);
      assert r == Record(r.kind, r.value);
    }
  }

  /** The stream's window is cut from what the provider answered. */
  ghost predicate Answered(cursor: Cursor, limit: nat, provider: Provider, ws: map<Kind, seq<Value>>, kind: Kind) {
    var start := Resume(cursor.Get(kind));
    && kind in ws && provider(kind, start).Ok?
    && IsWindow(provider(kind, start).value, start, limit, Cap(kind), Ok(ws[kind]))
  }

  /** What `WalletBackfill` returns is three such windows and the batch that completes them. */
  lemma {:induction false} BackfillCompletes(cursor: Cursor, limit: nat, provider: Provider, batch: Batch)
      returns (ws: map<Kind, seq<Value>>)
    requires forall kind :: StreamAdvanced(cursor, limit, provider, batch, kind)
    ensures Completes(cursor, ws, batch)
    ensures forall kind: Kind :: Answered(cursor, limit, provider, ws, kind)
  {
    ws := map[Fill := ValuesOf(Fill, batch.records), Funding := ValuesOf(Funding, batch.records),
              LedgerUpdate := ValuesOf(LedgerUpdate, batch.records)];
    forall kind: Kind
      ensures kind in ws && ValuesOf(kind, batch.records) == ws[kind]
      ensures batch.next.Get(kind) == NextCursor(cursor.Get(kind), ws[kind])
      ensures Answered(cursor, limit, provider, ws, kind)
    {
      match kind { case Fill => case Funding => case LedgerUpdate => }
      assert StreamAdvanced(cursor, limit, provider, batch, kind);
    }
  }

  // ---------------------------------------------------------------------------
  // Draining a fixed history
  // ---------------------------------------------------------------------------

  ghost predicate Answers(w: World, cursor: Cursor, provider: Provider) {
    forall kind: Kind ::
      var start := Resume(cursor.Get(kind));
      provider(kind, start).Ok? && Faithful(w.History(kind), start, PageSize(kind), provider(kind, start).value)
  }

  /** No timestamp of a stream holds as many events as its page may. */
  ghost predicate Uncrowded(w: World) { forall kind: Kind, t :: |Filter(At(t), w.History(kind))| < PageSize(kind) }

  ghost predicate ValidCursors(cursor: Cursor) { forall kind: Kind :: ValidCursor(cursor.Get(kind)) }

  /** One backfill of the wallet, with the provider's answers. */
  datatype Backfill = Backfill(provider: Provider, batch: Batch)

  ghost predicate Backfills(w: World, cursor: Cursor, limit: nat, runs: seq<Backfill>)
    decreases |runs|
  {
    runs != [] ==>
      && Answers(w, cursor, runs[0].provider)
      && (forall kind :: StreamAdvanced(cursor, limit, runs[0].provider, runs[0].batch, kind))
      && Backfills(w, runs[0].batch.next, limit, runs[1..])
  }

  function CursorAfter(cursor: Cursor, runs: seq<Backfill>): Cursor
    decreases |runs|
  {
    if runs == [] then cursor else CursorAfter(runs[0].batch.next, runs[1..])
  }

  /** Without crowded timestamps no stream of a backfill fails, whatever the cursor. */
  lemma {:induction false} BackfillNeverFails(w: World, cursor: Cursor, provider: Provider, kind: Kind)
    requires ValidWorld(w) && Uncrowded(w) && Answers(w, cursor, provider)
    ensures !StreamFails(cursor, provider, kind)
  {
    var start := Resume(cursor.Get(kind));
    var page := provider(kind, start).value;
    PageIsKept(w.History(kind), start, Cap(kind), page);
    assert forall t :: |Filter(At(t), w.History(kind))| < Cap(kind);
    NeverStuck(w.History(kind), start, Cap(kind), page);
    assert ValidHistory(w.History(kind));
  }

  lemma {:induction false} FirstBackfill(w: World, cursor: Cursor, limit: nat, runs: seq<Backfill>, kind: Kind)
    requires runs != [] && Backfills(w, cursor, limit, runs)
    ensures var first := ValuesOf(kind, runs[0].batch.records);
            && Window(w.History(kind), cursor.Get(kind), limit, Cap(kind), first)
            && runs[0].batch.next.Get(kind) == NextCursor(cursor.Get(kind), first)
            && Backfills(w, runs[0].batch.next, limit, runs[1..])
  {
    var start := Resume(cursor.Get(kind));
    assert StreamAdvanced(cursor, limit, runs[0].provider, runs[0].batch, kind);
    assert Faithful(w.History(kind), start, Cap(kind), runs[0].provider(kind, start).value);
  }

  function StreamWindows(kind: Kind, runs: seq<Backfill>): seq<seq<Value>> {
    if runs == [] then [] else [ValuesOf(kind, runs[0].batch.records)] + StreamWindows(kind, runs[1..])
  }

  lemma {:induction false} BackfillWindows(w: World, cursor: Cursor, limit: nat, runs: seq<Backfill>, kind: Kind)
    requires Backfills(w, cursor, limit, runs)
    ensures Windows(w.History(kind), cursor.Get(kind), limit, Cap(kind), StreamWindows(kind, runs))
    ensures FinalCursor(cursor.Get(kind), StreamWindows(kind, runs)) == CursorAfter(cursor, runs).Get(kind)
    decreases |runs|
  {
    if runs != [] {
      FirstBackfill(w, cursor, limit, runs, kind);
      BackfillWindows(w, runs[0].batch.next, limit, runs[1..], kind);
      WindowsCons(w.History(kind), cursor.Get(kind), limit, Cap(kind), ValuesOf(kind, runs[0].batch.records),
                  StreamWindows(kind, runs[1..]));
    }
  }

  lemma {:induction false} WindowPerRun(kind: Kind, runs: seq<Backfill>)
    ensures |StreamWindows(kind, runs)| == |runs|
  {
    if runs != [] { WindowPerRun(kind, runs[1..]); }
  }

  /**
   Repeated backfills of a fixed history drain every stream: after as many runs as the fullest stream
   has events left, nothing is left anywhere, and what the runs brought is exactly what was missing.
   */
  lemma {:induction false} BackfillsDrain(w: World, cursor: Cursor, limit: nat, runs: seq<Backfill>, kind: Kind)
    requires ValidWorld(w) && ValidCursors(cursor) && Backfills(w, cursor, limit, runs)
    requires |Remaining(w.History(kind), cursor.Get(kind))| <= |runs|
    ensures Remaining(w.History(kind), CursorAfter(cursor, runs).Get(kind)) == []
    ensures multiset(UpTo(w.History(kind), CursorAfter(cursor, runs).Get(kind))) ==
            multiset(UpTo(w.History(kind), cursor.Get(kind))) + multiset(Flatten(StreamWindows(kind, runs)))
  {
    BackfillWindows(w, cursor, limit, runs, kind);
    WindowPerRun(kind, runs);
    assert ValidHistory(w.History(kind)) && ValidCursor(cursor.Get(kind));
    WindowsDrain(w.History(kind), cursor.Get(kind), limit, Cap(kind), StreamWindows(kind, runs));
    WindowsConcatenate(w.History(kind), cursor.Get(kind), limit, Cap(kind), StreamWindows(kind, runs));
  }

  function LeftOf(w: World, cursor: Cursor, kind: Kind): nat { |Remaining(w.History(kind), cursor.Get(kind))| }

  /** The events of all three streams that are still to come. */
  function Left(w: World, cursor: Cursor): nat {
    LeftOf(w, cursor, Fill) + LeftOf(w, cursor, Funding) + LeftOf(w, cursor, LedgerUpdate)
  }

  /** One stream of one run: fewer events left unless its window was empty, and then none were. */
  lemma {:induction false} StreamDrains(w: World, cursor: Cursor, limit: nat, provider: Provider, batch: Batch,
                                        kind: Kind)
    requires ValidWorld(w) && ValidCursors(cursor) && Answers(w, cursor, provider)
    requires StreamAdvanced(cursor, limit, provider, batch, kind)
    ensures ValidCursor(batch.next.Get(kind))
    ensures LeftOf(w, batch.next, kind) <= LeftOf(w, cursor, kind)
    ensures ValuesOf(kind, batch.records) != [] ==> LeftOf(w, batch.next, kind) < LeftOf(w, cursor, kind)
    ensures ValuesOf(kind, batch.records) == [] ==> LeftOf(w, batch.next, kind) == 0
    ensures multiset(UpTo(w.History(kind), batch.next.Get(kind))) ==
            multiset(UpTo(w.History(kind), cursor.Get(kind))) + multiset(ValuesOf(kind, batch.records))
  {
    var history, at, values := w.History(kind), cursor.Get(kind), ValuesOf(kind, batch.records);
    var start := Resume(at);
    assert ValidHistory(history) && ValidCursor(at);
    assert Faithful(history, start, Cap(kind), provider(kind, start).value);
    assert Window(history, at, limit, Cap(kind), values);
    WindowDrains(history, at, limit, Cap(kind), values);
  }

  lemma {:induction false} RunDrains(w: World, cursor: Cursor, limit: nat, provider: Provider, batch: Batch)
    requires ValidWorld(w) && ValidCursors(cursor) && Answers(w, cursor, provider)
    requires forall kind :: StreamAdvanced(cursor, limit, provider, batch, kind)
    ensures ValidCursors(batch.next)
    ensures batch.records != [] ==> Left(w, batch.next) < Left(w, cursor)
    ensures batch.records == [] ==> Left(w, batch.next) == 0
    ensures forall kind :: multiset(UpTo(w.History(kind), batch.next.Get(kind))) ==
                           multiset(UpTo(w.History(kind), cursor.Get(kind))) + multiset(ValuesOf(kind, batch.records))
  {
    forall kind: Kind
      ensures ValidCursor(batch.next.Get(kind)) && LeftOf(w, batch.next, kind) <= LeftOf(w, cursor, kind)
      ensures ValuesOf(kind, batch.records) != [] ==> LeftOf(w, batch.next, kind) < LeftOf(w, cursor, kind)
      ensures ValuesOf(kind, batch.records) == [] ==> LeftOf(w, batch.next, kind) == 0
      ensures multiset(UpTo(w.History(kind), batch.next.Get(kind))) ==
              multiset(UpTo(w.History(kind), cursor.Get(kind))) + multiset(ValuesOf(kind, batch.records))
    {
      StreamDrains(w, cursor, limit, provider, batch, kind);
    }
    if batch.records != [] {
      var r := batch.records[0];
      ValuesOfIn(r.kind, batch.records, r.value);
      assert ValuesOf(r.kind, batch.records) != [];
      match r.kind { case Fill => case Funding => case LedgerUpdate => }
    }
  }

  /** All that is ever stored up to the cursors is what was, and what the runs brought. */
  ghost predicate Brought(w: World, before: Cursor, after: Cursor, records: seq<Record>) {
    forall kind :: multiset(UpTo(w.History(kind), after.Get(kind))) ==
                   multiset(UpTo(w.History(kind), before.Get(kind))) + multiset(ValuesOf(kind, records))
  }

  lemma {:induction false} BroughtMore(w: World, first: Cursor, before: Cursor, after: Cursor, records: seq<Record>,
                                       more: seq<Record>)
    requires Brought(w, first, before, records) && Brought(w, before, after, more)
    ensures Brought(w, first, after, records + more)
  {
    forall kind ensures multiset(UpTo(w.History(kind), after.Get(kind))) ==
                        multiset(UpTo(w.History(kind), first.Get(kind))) + multiset(ValuesOf(kind, records + more))
    {
      FlatMapConcat(ValueOf(kind), records, more);
    }
  }

  /**
   Backfills repeated until one brings nothing. Against a fixed history without crowded timestamps none of
   them fails; they end after at most one run more than there are events left, with all three streams
   empty and every event brought once.
   */
  method Drain(start: Cursor, limit: nat, provider: nat -> Provider, ghost w: World)
    returns (cursor: Cursor, records: seq<Record>, runs: nat)
    requires ValidWorld(w) && Uncrowded(w) && ValidCursors(start) && 1 <= limit <= 100_000
    requires forall n: nat, c: Cursor :: Answers(w, c, provider(n))
    ensures forall kind :: Remaining(w.History(kind), cursor.Get(kind)) == []
    ensures Brought(w, start, cursor, records) && runs <= Left(w, start) + 1
  {
    cursor, records, runs := start, [], 0;
    var done := false;
    while !done
      invariant ValidCursors(cursor) && Brought(w, start, cursor, records)
      invariant done ==> Left(w, cursor) == 0
      invariant runs + Left(w, cursor) <= Left(w, start) + if done then 1 else 0
      decreases Left(w, cursor), !done
    {
      forall kind { BackfillNeverFails(w, cursor, provider(runs), kind); }
      var r := WalletBackfill(cursor, limit, provider(runs));
      RunDrains(w, cursor, limit, provider(runs), r.value);
      BroughtMore(w, start, cursor, r.value.next, records, r.value.records);
      done := r.value.records == [];
      cursor, records, runs := r.value.next, records + r.value.records, runs + 1;
    }
    forall kind ensures Remaining(w.History(kind), cursor.Get(kind)) == [] {
      match kind { case Fill => case Funding => case LedgerUpdate => }
      assert LeftOf(w, cursor, kind) == 0;
    }
  }
}
