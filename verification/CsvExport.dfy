/** CSV export: escaping, row writers, and a reader following section 2 of RFC 4180 that recovers what was written. */
module CsvExport {
  import opened Common

  // ---------------------------------------------------------------------------
  // Escaping
  // ---------------------------------------------------------------------------

  /** Characters with the Unicode White_Space property. */
  predicate IsSpace(c: char) {
    || '\U{0009}' <= c <= '\U{000D}' || c == ' ' || c == '\U{0085}' || c == '\U{00A0}' || c == '\U{1680}'
    || '\U{2000}' <= c <= '\U{200A}' || c == '\U{2028}' || c == '\U{2029}' || c == '\U{202F}' || c == '\U{205F}'
    || c == '\U{3000}'
  }

  function TrimStart(s: string): string {
    if s != [] && IsSpace(s[0]) then TrimStart(s[1..]) else s
  }

  predicate StartsWithAny(s: string, chars: set<char>) { s != [] && s[0] in chars }

  predicate Contains(s: string, chars: set<char>) { exists c | c in s :: c in chars }

  const SPECIAL := {',', '"', '\n', '\r'}

  /** What a spreadsheet would take for a formula. */
  predicate FormulaLike(s: string) {
    StartsWithAny(TrimStart(s), {'=', '+', '-', '@'}) || StartsWithAny(s, {'\t', '\r', '\n'})
  }

  function Protect(s: string): string { if FormulaLike(s) then "'" + s else s }

  function Doubled(s: string): string {
    if s == [] then [] else DoubledChar(s[0]) + Doubled(s[1..])
  }

  function DoubledChar(c: char): string { if c == '"' then "\"\"" else [c] }

  function Quote(s: string): string { if Contains(s, SPECIAL) then "\"" + Doubled(s) + "\"" else s }

  function Escape(s: string): string { Quote(Protect(s)) }

  ghost predicate SpaceBefore(s: string, k: nat) { k <= |s| && forall i: nat | i < k :: IsSpace(s[i]) }

  ghost predicate OperatorAt(s: string, k: nat) {
    k < |s| && (s[k] == '=' || s[k] == '+' || s[k] == '-' || s[k] == '@')
  }

  /** The characters that start a formula: an operator behind any spaces, or a leading tab, CR or LF. */
  lemma {:induction false} FormulaLikeIff(s: string)
    ensures FormulaLike(s) <==>
            || (exists k: nat :: SpaceBefore(s, k) && OperatorAt(s, k))
            || (s != [] && (s[0] == '\t' || s[0] == '\r' || s[0] == '\n'))
  {
    TrimmedOperator(s);
  }

  lemma {:induction false} TrimmedOperator(s: string)
    ensures OperatorAt(TrimStart(s), 0) <==> exists k: nat :: SpaceBefore(s, k) && OperatorAt(s, k)
  {
    if s != [] && IsSpace(s[0]) {
      TrimmedOperator(s[1..]);
      if k: nat :| SpaceBefore(s[1..], k) && OperatorAt(s[1..], k) {
        forall i: nat | i < k + 1 ensures IsSpace(s[i]) { if i > 0 { assert s[i] == s[1..][i - 1]; } }
        assert SpaceBefore(s, k + 1) && OperatorAt(s, k + 1);
      }
      if k: nat :| SpaceBefore(s, k) && OperatorAt(s, k) {
        assert k != 0;
        assert SpaceBefore(s[1..], k - 1) && OperatorAt(s[1..], k - 1);
      }
    } else {
      assert SpaceBefore(s, 0);
      if k: nat :| SpaceBefore(s, k) && OperatorAt(s, k) { assert k == 0; }
    }
  }

  /** A protected cell is no formula, and differs from its text by at most one leading apostrophe. */
  lemma {:induction false} ProtectNeutralizes(s: string)
    ensures !FormulaLike(Protect(s))
    ensures Protect(s) == s || Protect(s) == "'" + s
    ensures Protect(s) == s <==> !FormulaLike(s)
  {
    assert TrimStart("'" + s) == "'" + s;
    assert |"'" + s| == 1 + |s|;
  }

  /**
   Two texts share a cell only when one is the formula-like other with an apostrophe typed before it:
   everything else is told apart.
   */
  lemma {:induction false} ProtectCollidesIff(a: string, b: string)
    requires a != b
    ensures Protect(a) == Protect(b) <==> (FormulaLike(b) && a == "'" + b) || (FormulaLike(a) && b == "'" + a)
  {
    ProtectNeutralizes(a);
    ProtectNeutralizes(b);
    if FormulaLike(a) && FormulaLike(b) {
      assert ("'" + a)[1..] == a && ("'" + b)[1..] == b;
    }
  }

  // ---------------------------------------------------------------------------
  // A reader for RFC 4180, also accepting a bare LF as the end of a record
  // ---------------------------------------------------------------------------

  datatype State = FieldStart | Unquoted | Quoted | QuoteSeen | CrSeen

  type Records = seq<seq<string>>

  function Scan(s: string, state: State, field: string, row: seq<string>, rows: Records): Option<Records>
    decreases |s|
  {
    if s == [] then
      if state == FieldStart && row == [] then Some(rows)
      else if state == Quoted || state == CrSeen then None
      else Some(rows + [row + [field]])
    else
      var c, rest := s[0], s[1..];
      if state == Quoted then
        if c == '"' then Scan(rest, QuoteSeen, field, row, rows) else Scan(rest, Quoted, field + [c], row, rows)
      else if c == '\n' then Scan(rest, FieldStart, [], [], rows + [row + [field]])
      else if state == CrSeen then None
      else if c == ',' then Scan(rest, FieldStart, [], row + [field], rows)
      else if c == '\r' then Scan(rest, CrSeen, field, row, rows)
      else if c == '"' then
        if state == FieldStart then Scan(rest, Quoted, field, row, rows)
        else if state == QuoteSeen then Scan(rest, Quoted, field + [c], row, rows)
        else None
      else if state == QuoteSeen then None
      else Scan(rest, Unquoted, field + [c], row, rows)
  }

  function Read(s: string): Option<Records> { Scan(s, FieldStart, [], [], []) }

  /** Where the reader is after a field and the delimiter that ends it. */
  function Ended(d: char, rest: string, field: string, row: seq<string>, rows: Records): Option<Records> {
    if d == ',' then Scan(rest, FieldStart, [], row + [field], rows)
    else Scan(rest, FieldStart, [], [], rows + [row + [field]])
  }

  predicate PlainText(s: string) { forall i | 0 <= i < |s| :: s[i] !in SPECIAL }

  lemma {:induction false} ScanUnquoted(t: string, d: char, rest: string, state: State, field: string, row: seq<string>,
                                        rows: Records)
    requires PlainText(t) && d in {',', '\n'} && state in {FieldStart, Unquoted}
    ensures Scan(t + [d] + rest, state, field, row, rows) == Ended(d, rest, field + t, row, rows)
    decreases |t|
  {
    if t == [] {
      assert t + [d] + rest == [d] + rest;
      assert field + t == field;
    } else {
      assert t[0] in t && t == [t[0]] + t[1..];
      assert (t + [d] + rest)[1..] == t[1..] + [d] + rest;
      ScanUnquoted(t[1..], d, rest, Unquoted, field + [t[0]], row, rows);
      assert field + [t[0]] + t[1..] == field + t;
    }
  }

  lemma {:induction false} ScanQuoted(t: string, d: char, rest: string, field: string, row: seq<string>, rows: Records)
    requires d in {',', '\n'}
    ensures Scan(Doubled(t) + ['"', d] + rest, Quoted, field, row, rows) == Ended(d, rest, field + t, row, rows)
    decreases |t|
  {
    var s := Doubled(t) + ['"', d] + rest;
    if t == [] {
      assert s == ['"', d] + rest && s[1..] == [d] + rest && s[1..][1..] == rest;
      assert field + t == field;
    } else {
      var after := Doubled(t[1..]) + ['"', d] + rest;
      ScanQuoted(t[1..], d, rest, field + [t[0]], row, rows);
      assert field + [t[0]] + t[1..] == field + t;
      assert s == DoubledChar(t[0]) + after;
      ScanChar(t[0], after, field, row, rows);
    }
  }

  lemma {:induction false} ScanQuotedField(t: string, d: char, rest: string, row: seq<string>, rows: Records)
    requires d in {',', '\n'}
    ensures Scan("\"" + Doubled(t) + "\"" + [d] + rest, FieldStart, [], row, rows) == Ended(d, rest, t, row, rows)
  {
    var s := "\"" + Doubled(t) + "\"" + [d] + rest;
    assert s[0] == '"' && s[1..] == Doubled(t) + ['"', d] + rest;
    ScanQuoted(t, d, rest, [], row, rows);
    assert [] + t == t;
  }

  lemma {:induction false} ScanChar(c: char, after: string, field: string, row: seq<string>, rows: Records)
    ensures Scan(DoubledChar(c) + after, Quoted, field, row, rows) == Scan(after, Quoted, field + [c], row, rows)
  {
    var s := DoubledChar(c) + after;
    if c == '"' {
      assert s == "\"\"" + after && s[1..] == "\"" + after && s[1..][1..] == after;
    } else {
      assert s == [c] + after && s[1..] == after;
    }
  }

  // ---------------------------------------------------------------------------
  // Rows
  // ---------------------------------------------------------------------------

  /** A number, id or date as the writer prints it. */
  type Printed = s: string | PlainText(s)

  /** Text is escaped; printed values are emitted as they are. */
  datatype Cell = Text(text: string) | Value(printed: Printed)

  type Row = cells: seq<Cell> | cells != [] witness [Text("")]

  function Emitted(c: Cell): string { if c.Text? then Escape(c.text) else c.printed }

  function Recovered(c: Cell): string { if c.Text? then Protect(c.text) else c.printed }

  function RecoveredRow(cells: Row): seq<string> { seq(|cells|, i requires 0 <= i < |cells| => Recovered(cells[i])) }

  /** The cells of a line, separated by commas and ended by a newline. */
  function Line(cells: Row): string {
    Emitted(cells[0]) + if |cells| == 1 then "\n" else "," + Line(cells[1..])
  }

  /** The reader takes an emitted cell back, whatever follows its delimiter. */
  lemma {:induction false} ScanCell(c: Cell, d: char, rest: string, row: seq<string>, rows: Records)
    requires d in {',', '\n'}
    ensures Scan(Emitted(c) + [d] + rest, FieldStart, [], row, rows) == Ended(d, rest, Recovered(c), row, rows)
  {
    var t := Recovered(c);
    assert [] + t == t;
    if c.Text? && Contains(t, SPECIAL) {
      ScanQuotedField(t, d, rest, row, rows);
    } else {
      ScanUnquoted(t, d, rest, FieldStart, [], row, rows);
    }
  }

  /** The reader takes a line back as one record with one field per cell. */
  lemma {:induction false} ScanLine(cells: Row, rest: string, row: seq<string>, rows: Records)
    ensures Scan(Line(cells) + rest, FieldStart, [], row, rows) ==
            Scan(rest, FieldStart, [], [], rows + [row + RecoveredRow(cells)])
    decreases |cells|
  {
    var e := Emitted(cells[0]);
    if |cells| == 1 {
      ScanCell(cells[0], '\n', rest, row, rows);
      assert Line(cells) + rest == e + ['\n'] + rest;
      assert RecoveredRow(cells) == [Recovered(cells[0])];
    } else {
      var more := Line(cells[1..]) + rest;
      ScanCell(cells[0], ',', more, row, rows);
      ScanLine(cells[1..], rest, row + [Recovered(cells[0])], rows);
      assert Line(cells) + rest == e + [','] + more;
      assert row + [Recovered(cells[0])] + RecoveredRow(cells[1..]) == row + RecoveredRow(cells);
    }
  }

  function RecoveredRows<T>(cellsOf: T -> Row, records: seq<T>): Records {
    seq(|records|, i requires 0 <= i < |records| => RecoveredRow(cellsOf(records[i])))
  }

  function LineOf<T>(cellsOf: T -> Row): T -> string { (r: T) => Line(cellsOf(r)) }

  /** The reader takes written rows back as one record each. */
  lemma {:induction false} ScanRows<T>(cellsOf: T -> Row, records: seq<T>, rows: Records)
    ensures Scan(FlatMap(LineOf(cellsOf), records), FieldStart, [], [], rows) ==
            Some(rows + RecoveredRows(cellsOf, records))
    decreases |records|
  {
    if records == [] {
      assert rows + RecoveredRows(cellsOf, records) == rows;
    } else {
      var first := cellsOf(records[0]);
      ScanLine(first, FlatMap(LineOf(cellsOf), records[1..]), [], rows);
      assert [] + RecoveredRow(first) == RecoveredRow(first);
      ScanRows(cellsOf, records[1..], rows + [RecoveredRow(first)]);
      assert rows + [RecoveredRow(first)] + RecoveredRows(cellsOf, records[1..]) ==
             rows + RecoveredRows(cellsOf, records);
    }
  }

  type Columns = names: seq<Printed> | names != [] witness ["id"]

  function HeaderCells(columns: Columns): Row { seq(|columns|, i requires 0 <= i < |columns| => Value(columns[i])) }

  function Header(columns: Columns): string { Line(HeaderCells(columns)) }

  /** Round trip of any dataset: the header, then one record per row with one field per cell. */
  lemma {:induction false} RoundTrip<T>(columns: Columns, cellsOf: T -> Row, records: seq<T>)
    ensures Read(Header(columns) + FlatMap(LineOf(cellsOf), records)) ==
            Some([columns] + RecoveredRows(cellsOf, records))
  {
    ScanLine(HeaderCells(columns), FlatMap(LineOf(cellsOf), records), [], []);
    assert [] + RecoveredRow(HeaderCells(columns)) == columns;
    assert [] + [columns] == [columns];
    ScanRows(cellsOf, records, [columns]);
  }

  /** Every field read back is a printed value as it was, or its text, neutralized if formula-like. */
  ghost predicate Faithful(cell: Cell, field: string) {
    match cell
    case Value(printed) => field == printed
    case Text(text) => !FormulaLike(field) && (if FormulaLike(text) then field == "'" + text else field == text)
  }

  ghost predicate FaithfulRow(cells: Row, fields: seq<string>) {
    |fields| == |cells| && forall i | 0 <= i < |cells| :: Faithful(cells[i], fields[i])
  }

  lemma {:induction false} RowIsFaithful(cells: Row)
    ensures FaithfulRow(cells, RecoveredRow(cells))
  {
    forall i | 0 <= i < |cells| ensures Faithful(cells[i], RecoveredRow(cells)[i]) {
      if cells[i].Text? { ProtectNeutralizes(cells[i].text); }
    }
  }

  /** A file that a reader takes back as the header and one faithful row per record, all of the header's width. */
  ghost predicate Readable<T>(file: string, columns: Columns, cellsOf: T -> Row, records: seq<T>) {
    var read := Read(file);
    && read.Some? && |read.value| == |records| + 1 && read.value[0] == columns
    && forall i | 0 <= i < |records| ::
         |read.value[i + 1]| == |columns| && FaithfulRow(cellsOf(records[i]), read.value[i + 1])
  }

  /** A header and the loop that writes one line per record. */
  method WriteFile<T>(columns: Columns, cellsOf: T -> Row, records: seq<T>) returns (file: string)
    requires forall r: T :: |cellsOf(r)| == |columns|
    ensures file == Header(columns) + FlatMap(LineOf(cellsOf), records)
    ensures Read(file) == Some([columns] + RecoveredRows(cellsOf, records))
    ensures Readable(file, columns, cellsOf, records)
  {
    file := AppendEach(LineOf(cellsOf), records, Header(columns));
    RoundTrip(columns, cellsOf, records);
    forall i | 0 <= i < |records| ensures FaithfulRow(cellsOf(records[i]), RecoveredRows(cellsOf, records)[i]) {
      RowIsFaithful(cellsOf(records[i]));
    }
  }

  // ---------------------------------------------------------------------------
  // The wallet ledger
  // ---------------------------------------------------------------------------

  datatype LedgerRecord = LedgerRecord(
    id: Printed, rawTransactionId: Option<Printed>, wallet: string, network: string, txHash: string, timestamp: Printed,
    entryType: string, asset: string, amount: Printed, counterparty: Option<string>, feeAmount: Option<Printed>,
    feeAsset: Option<string>, costBasis: Option<Printed>, proceeds: Option<Printed>, datasetVersionId: Option<Printed>,
    createdAt: Printed)

  function OrEmpty(v: Option<Printed>): Cell { Value(if v.Some? then v.value else "") }

  function TextOrEmpty(v: Option<string>): Cell { Text(if v.Some? then v.value else "") }

  function LedgerCells(r: LedgerRecord): Row {
    [Value(r.id), OrEmpty(r.rawTransactionId), Text(r.wallet), Text(r.network), Text(r.txHash), Value(r.timestamp),
     Text(r.entryType), Text(r.asset), Value(r.amount), TextOrEmpty(r.counterparty), OrEmpty(r.feeAmount),
     TextOrEmpty(r.feeAsset), OrEmpty(r.costBasis), OrEmpty(r.proceeds), OrEmpty(r.datasetVersionId),
     Value(r.createdAt)]
  }

  const LEDGER_KEYS: seq<Printed> := ["id", "raw_transaction_id", "wallet_address", "network"]
  const LEDGER_ENTRY: seq<Printed> := ["tx_hash", "timestamp", "entry_type", "asset_symbol"]
  const LEDGER_AMOUNTS: seq<Printed> := ["amount", "counterparty_address", "fee_amount", "fee_asset"]
  const LEDGER_TAX: seq<Printed> := ["cost_basis", "proceeds", "dataset_version_id", "created_at"]
  const LEDGER_COLUMNS: Columns := LEDGER_KEYS + LEDGER_ENTRY + LEDGER_AMOUNTS + LEDGER_TAX

  /** The field under a column of that name. */
  ghost predicate Under(columns: Columns, fields: seq<string>, name: string, value: string) {
    exists k: nat | k < |columns| && k < |fields| :: columns[k] == name && fields[k] == value
  }

  lemma {:induction false} IsUnder(columns: Columns, cells: Row, k: nat)
    requires |cells| == |columns| && k < |columns|
    ensures Under(columns, RecoveredRow(cells), columns[k], Recovered(cells[k]))
  {
    assert RecoveredRow(cells)[k] == Recovered(cells[k]);
  }

  function Optional(v: Option<string>): string { if v.Some? then v.value else "" }

  /** Each column holds the attribute it is named after. */
  ghost predicate LedgerLabelled(r: LedgerRecord, f: seq<string>) {
    LedgerKeysLabelled(r, f) && LedgerEntryLabelled(r, f) && LedgerAmountsLabelled(r, f) && LedgerTaxLabelled(r, f)
  }

  ghost predicate LedgerKeysLabelled(r: LedgerRecord, f: seq<string>) {
    && Under(LEDGER_COLUMNS, f, "id", r.id)
    && Under(LEDGER_COLUMNS, f, "raw_transaction_id", Optional(r.rawTransactionId))
    && Under(LEDGER_COLUMNS, f, "wallet_address", Protect(r.wallet))
    && Under(LEDGER_COLUMNS, f, "network", Protect(r.network))
  }

  ghost predicate LedgerEntryLabelled(r: LedgerRecord, f: seq<string>) {
    && Under(LEDGER_COLUMNS, f, "tx_hash", Protect(r.txHash))
    && Under(LEDGER_COLUMNS, f, "timestamp", r.timestamp)
    && Under(LEDGER_COLUMNS, f, "entry_type", Protect(r.entryType))
    && Under(LEDGER_COLUMNS, f, "asset_symbol", Protect(r.asset))
  }

  ghost predicate LedgerAmountsLabelled(r: LedgerRecord, f: seq<string>) {
    && Under(LEDGER_COLUMNS, f, "amount", r.amount)
    && Under(LEDGER_COLUMNS, f, "counterparty_address", Protect(Optional(r.counterparty)))
    && Under(LEDGER_COLUMNS, f, "fee_amount", Optional(r.feeAmount))
    && Under(LEDGER_COLUMNS, f, "fee_asset", Protect(Optional(r.feeAsset)))
  }

  ghost predicate LedgerTaxLabelled(r: LedgerRecord, f: seq<string>) {
    && Under(LEDGER_COLUMNS, f, "cost_basis", Optional(r.costBasis))
    && Under(LEDGER_COLUMNS, f, "proceeds", Optional(r.proceeds))
    && Under(LEDGER_COLUMNS, f, "dataset_version_id", Optional(r.datasetVersionId))
    && Under(LEDGER_COLUMNS, f, "created_at", r.createdAt)
  }

  lemma {:induction false} LedgerKeysRead(r: LedgerRecord)
    ensures LedgerKeysLabelled(r, RecoveredRow(LedgerCells(r)))
  {
    IsUnder(LEDGER_COLUMNS, LedgerCells(r), 0);
    IsUnder(LEDGER_COLUMNS, LedgerCells(r), 1);
    IsUnder(LEDGER_COLUMNS, LedgerCells(r), 2);
    IsUnder(LEDGER_COLUMNS, LedgerCells(r), 3);
  }

  lemma {:induction false} LedgerEntryRead(r: LedgerRecord)
    ensures LedgerEntryLabelled(r, RecoveredRow(LedgerCells(r)))
  {
    IsUnder(LEDGER_COLUMNS, LedgerCells(r), 4);
    IsUnder(LEDGER_COLUMNS, LedgerCells(r), 5);
    IsUnder(LEDGER_COLUMNS, LedgerCells(r), 6);
    IsUnder(LEDGER_COLUMNS, LedgerCells(r), 7);
  }

  lemma {:induction false} LedgerAmountsRead(r: LedgerRecord)
    ensures LedgerAmountsLabelled(r, RecoveredRow(LedgerCells(r)))
  {
    IsUnder(LEDGER_COLUMNS, LedgerCells(r), 8);
    IsUnder(LEDGER_COLUMNS, LedgerCells(r), 9);
    IsUnder(LEDGER_COLUMNS, LedgerCells(r), 10);
    IsUnder(LEDGER_COLUMNS, LedgerCells(r), 11);
  }

  lemma {:induction false} LedgerTaxRead(r: LedgerRecord)
    ensures LedgerTaxLabelled(r, RecoveredRow(LedgerCells(r)))
  {
    IsUnder(LEDGER_COLUMNS, LedgerCells(r), 12);
    IsUnder(LEDGER_COLUMNS, LedgerCells(r), 13);
    IsUnder(LEDGER_COLUMNS, LedgerCells(r), 14);
    IsUnder(LEDGER_COLUMNS, LedgerCells(r), 15);
  }

  ghost predicate AllLabelled(read: Option<Records>, records: seq<LedgerRecord>) {
    && read.Some? && |read.value| == |records| + 1
    && forall i | 0 <= i < |records| :: LedgerLabelled(records[i], read.value[i + 1])
  }

  lemma {:induction false} LedgerRead(read: Option<Records>, records: seq<LedgerRecord>)
    requires read == Some([LEDGER_COLUMNS] + RecoveredRows(LedgerCells, records))
    ensures AllLabelled(read, records)
  {
    forall i | 0 <= i < |records| ensures LedgerLabelled(records[i], read.value[i + 1]) {
      var r := records[i];
      assert read.value[i + 1] == RecoveredRow(LedgerCells(r));
      LedgerKeysRead(r);
      LedgerEntryRead(r);
      LedgerAmountsRead(r);
      LedgerTaxRead(r);
    }
  }

  method ExportWalletLedger(records: seq<LedgerRecord>) returns (file: string)
    ensures Readable(file, LEDGER_COLUMNS, LedgerCells, records)
    ensures AllLabelled(Read(file), records)
  {
    file := WriteFile(LEDGER_COLUMNS, LedgerCells, records);
    LedgerRead(Read(file), records);
  }
}
