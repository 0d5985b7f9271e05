/**
 Hyperliquid ledger entries by two routes: the direct V1 parser, and the V2 route that first extracts
 Silver records and then derives entries from them.
 */
module HlLedger {
  import opened Common

  /** Decimal text as the library parses it; None for malformed text. */
  type DecimalParser = string -> Option<real>

  // ---------------------------------------------------------------------------
  // Payloads (after JSON decoding; None where decoding fails) and Silver records
  // ---------------------------------------------------------------------------

  datatype FillData = FillData(coin: string, px: string, sz: string, side: string, dir: Option<string>,
                               closedPnl: Option<string>, fee: Option<string>, feeToken: Option<string>,
                               tid: Option<nat>)

  datatype FundingData = FundingData(coin: string, usdc: string, time: nat)

  datatype DeltaKind = Deposit | Withdraw | Liquidation | OtherDelta

  datatype LedgerData = LedgerData(kind: DeltaKind, usdc: Option<string>, accountValue: Option<string>)

  datatype Payload =
    | FillPayload(fill: Option<FillData>)
    | FundingPayload(funding: Option<FundingData>)
    | LedgerPayload(update: Option<LedgerData>)
    | UnknownPayload

  datatype FillRecord = FillRecord(coin: string, side: string, price: real, size: real, direction: Option<string>,
                                   closedPnl: Option<real>, fee: Option<real>, feeToken: Option<string>,
                                   tradeId: Option<int>)

  datatype FundingRecord = FundingRecord(coin: string, amount: real, time: int)

  // ---------------------------------------------------------------------------
  // Entries
  // ---------------------------------------------------------------------------

  datatype EntryType = Trade | Fee | Income | Transfer

  /** deterministic_id: a UUID v5 over (transaction, index), kept as the pair it hashes. */
  datatype EntryId = EntryId(transaction: nat, index: nat)

  datatype Tx = Tx(id: nat, user: nat, wallet: string)

  datatype Entry = Entry(id: EntryId, transaction: nat, user: nat, wallet: string,
                         asset: string, amount: real, entryType: EntryType, fiatValue: Option<real>)

  /** What an entry says, before it is numbered. */
  datatype Line = Line(entryType: EntryType, asset: string, amount: real, fiatValue: Option<real>)

  function EntryOf(tx: Tx, index: nat, line: Line): Entry {
    Entry(EntryId(tx.id, index), tx.id, tx.user, tx.wallet, line.asset, line.amount, line.entryType, line.fiatValue)
  }

  /** Lines numbered consecutively from an offset. */
  function Numbered(tx: Tx, offset: nat, lines: seq<Line>): seq<Entry> {
    seq(|lines|, i requires 0 <= i < |lines| => EntryOf(tx, offset + i, lines[i]))
  }

  lemma {:induction false} NumberedConcat(tx: Tx, offset: nat, a: seq<Line>, b: seq<Line>)
    ensures Numbered(tx, offset, a + b) == Numbered(tx, offset, a) + Numbered(tx, offset + |a|, b)
  {
  }

  /** Pushing an optional entry numbers the lines with it, or leaves them. */
  lemma {:induction false} PushOptional(tx: Tx, offset: nat, lines: seq<Line>, more: seq<Line>)
    requires |more| <= 1
    ensures Numbered(tx, offset, lines + more) ==
            if more == [] then Numbered(tx, offset, lines)
            else Numbered(tx, offset, lines) + [EntryOf(tx, offset + |lines|, more[0])]
  {
    if more == [] {
      assert lines + more == lines;
    } else {
      assert more == [more[0]];
      Push(tx, offset, lines, more[0]);
    }
  }

  /** Pushing an entry with the running index numbers one more line. */
  lemma {:induction false} Push(tx: Tx, offset: nat, lines: seq<Line>, line: Line)
    ensures Numbered(tx, offset, lines + [line]) == Numbered(tx, offset, lines) + [EntryOf(tx, offset + |lines|, line)]
  {
  }

  // ---------------------------------------------------------------------------
  // Extraction to Silver
  // ---------------------------------------------------------------------------

  function Parsed(parse: DecimalParser, text: Option<string>): Option<real> {
    if text.Some? then parse(text.value) else None
  }

  /** u64_to_i64_or_max */
  function ToI64(x: nat): int { if x > 0x7fff_ffff_ffff_ffff then 0x7fff_ffff_ffff_ffff else x }

  function ExtractFill(parse: DecimalParser, fill: FillData): seq<FillRecord> {
    if parse(fill.px).None? || parse(fill.sz).None? then []
    else [FillRecord(fill.coin, fill.side, parse(fill.px).value, parse(fill.sz).value, fill.dir,
                     Parsed(parse, fill.closedPnl), Parsed(parse, fill.fee), fill.feeToken,
                     if fill.tid.Some? then Some(ToI64(fill.tid.value)) else None)]
  }

  function ExtractFills(parse: DecimalParser, p: Payload): seq<FillRecord> {
    if p.FillPayload? && p.fill.Some? then ExtractFill(parse, p.fill.value) else []
  }

  function ExtractFunding(parse: DecimalParser, p: Payload): seq<FundingRecord> {
    if p.FundingPayload? && p.funding.Some? && parse(p.funding.value.usdc).Some?
    then [FundingRecord(p.funding.value.coin, parse(p.funding.value.usdc).value, ToI64(p.funding.value.time))]
    else []
  }

  // ---------------------------------------------------------------------------
  // Derivation from Silver (V2)
  // ---------------------------------------------------------------------------

  function Optional(kind: EntryType, asset: string, amount: Option<real>): seq<Line> {
    if amount.None? || amount.value == 0.0 then [] else [Line(kind, asset, amount.value, None)]
  }

  function Negated(amount: Option<real>): Option<real> { if amount.Some? then Some(-amount.value) else None }

  /** The settlement asset of a fee; a missing token means USDC. */
  function FeeAsset(token: Option<string>): string { if token.Some? then token.value else "USDC" }

  function FiatValue(size: real, price: real): real { size * price }

  function TradeLine(f: FillRecord): Line {
    Line(Trade, f.coin, if f.side == "B" then f.size else -f.size, Some(FiatValue(f.size, f.price)))
  }

  function FillLines(f: FillRecord): seq<Line> {
    [TradeLine(f)]
    + Optional(Fee, FeeAsset(f.feeToken), Negated(f.fee))
    + Optional(Income, "USDC", f.closedPnl)
  }

  function FundingLine(p: FundingRecord): Line {
    Line(if p.amount > 0.0 then Income else Fee, "USDC", p.amount, None)
  }

  function AllFillLines(fills: seq<FillRecord>): seq<Line> {
    if fills == [] then [] else AllFillLines(fills[..|fills| - 1]) + FillLines(fills[|fills| - 1])
  }

  function AllFundingLines(payments: seq<FundingRecord>): seq<Line> {
    if payments == [] then [] else AllFundingLines(payments[..|payments| - 1]) + [FundingLine(payments[|payments| - 1])]
  }

  /** One fill's entries, pushed one by one while the offset moves. */
  method DeriveFill(tx: Tx, f: FillRecord, offset0: nat) returns (entries: seq<Entry>, offset: nat)
    ensures entries == Numbered(tx, offset0, FillLines(f)) && offset == offset0 + |FillLines(f)|
  {
    var signed := if f.side == "B" then f.size else -f.size;
    var trade := Line(Trade, f.coin, signed, Some(FiatValue(f.size, f.price)));
    ghost var fees := Optional(Fee, FeeAsset(f.feeToken), Negated(f.fee));
    entries, offset := [EntryOf(tx, offset0, trade)], offset0 + 1;
    assert entries == Numbered(tx, offset0, [trade]);
    PushOptional(tx, offset0, [trade], fees);
    PushOptional(tx, offset0, [trade] + fees, Optional(Income, "USDC", f.closedPnl));
    if f.fee.Some? && f.fee.value != 0.0 {
      entries := entries + [EntryOf(tx, offset, Line(Fee, FeeAsset(f.feeToken), -f.fee.value, None))];
      offset := offset + 1;
    }
    assert entries == Numbered(tx, offset0, [trade] + fees) && offset == offset0 + 1 + |fees|;
    if f.closedPnl.Some? && f.closedPnl.value != 0.0 {
      entries := entries + [EntryOf(tx, offset, Line(Income, "USDC", f.closedPnl.value, None))];
      offset := offset + 1;
    }
    assert FillLines(f) == [trade] + fees + Optional(Income, "USDC", f.closedPnl);
  }

  method DeriveFromFills(tx: Tx, fills: seq<FillRecord>, offset0: nat) returns (entries: seq<Entry>, offset: nat)
    ensures entries == Numbered(tx, offset0, AllFillLines(fills)) && offset == offset0 + |AllFillLines(fills)|
  {
    entries, offset := [], offset0;
    for i := 0 to |fills|
      invariant entries == Numbered(tx, offset0, AllFillLines(fills[..i])) &&
                offset == offset0 + |AllFillLines(fills[..i])|
    {
      var more;
      NumberedConcat(tx, offset0, AllFillLines(fills[..i]), FillLines(fills[i]));
      assert fills[..i + 1][..i] == fills[..i];
      more, offset := DeriveFill(tx, fills[i], offset);
      entries := entries + more;
    }
    assert fills[..|fills|] == fills;
  }

  method DeriveFromFunding(tx: Tx, payments: seq<FundingRecord>, offset0: nat)
      returns (entries: seq<Entry>, offset: nat)
    ensures entries == Numbered(tx, offset0, AllFundingLines(payments)) &&
            offset == offset0 + |AllFundingLines(payments)|
  {
    entries, offset := [], offset0;
    for i := 0 to |payments|
      invariant entries == Numbered(tx, offset0, AllFundingLines(payments[..i])) &&
                offset == offset0 + |AllFundingLines(payments[..i])|
    {
      NumberedConcat(tx, offset0, AllFundingLines(payments[..i]), [FundingLine(payments[i])]);
      assert payments[..i + 1][..i] == payments[..i];
      entries, offset := entries + [EntryOf(tx, offset, FundingLine(payments[i]))], offset + 1;
    }
    assert payments[..|payments|] == payments;
  }

  /** The V2 entries of one payload: extract, then derive fills and funding with one running offset. */
  function SilverRoute(parse: DecimalParser, tx: Tx, p: Payload): seq<Entry> {
    Numbered(tx, 0, AllFillLines(ExtractFills(parse, p)) + AllFundingLines(ExtractFunding(parse, p)))
  }

  method DeriveAll(parse: DecimalParser, tx: Tx, p: Payload) returns (entries: seq<Entry>)
    ensures entries == SilverRoute(parse, tx, p)
  {
    var fills, offset := DeriveFromFills(tx, ExtractFills(parse, p), 0);
    var funding, _ := DeriveFromFunding(tx, ExtractFunding(parse, p), offset);
    NumberedConcat(tx, 0, AllFillLines(ExtractFills(parse, p)), AllFundingLines(ExtractFunding(parse, p)));
    entries := fills + funding;
  }

  // ---------------------------------------------------------------------------
  // The direct parser (V1)
  // ---------------------------------------------------------------------------

  /** Malformed fee or PnL text counts as zero. */
  function OrZero(parse: DecimalParser, text: string): real { if parse(text).Some? then parse(text).value else 0.0 }

  lemma {:induction false} OneFill(parse: DecimalParser, fill: FillData)
    requires ExtractFill(parse, fill) != []
    ensures AllFillLines(ExtractFill(parse, fill)) == FillLines(ExtractFill(parse, fill)[0])
  {
    assert ExtractFill(parse, fill)[..0] == [];
    assert AllFillLines([]) == [];
  }

  lemma {:induction false} SettledLines(parse: DecimalParser, text: Option<string>, kind: EntryType, asset: string)
    ensures var amount := if text.Some? then OrZero(parse, text.value) else 0.0;
            && Optional(kind, asset, Parsed(parse, text)) ==
              (if amount == 0.0 then [] else [Line(kind, asset, amount, None)])
            && Optional(kind, asset, Negated(Parsed(parse, text))) ==
              (if amount == 0.0 then [] else [Line(kind, asset, -amount, None)])
  {
  }

  /** The settlement entries behind a fill's trade entry: fee, then realized PnL. */
  method PushSettlement(tx: Tx, entries0: seq<Entry>, ghost lines: seq<Line>, fee: real, feeAsset: string, pnl: real)
      returns (entries: seq<Entry>)
    requires entries0 == Numbered(tx, 0, lines)
    ensures entries == Numbered(tx, 0, lines
                                       + (if fee == 0.0 then [] else [Line(Fee, feeAsset, -fee, None)])
                                       + (if pnl == 0.0 then [] else [Line(Income, "USDC", pnl, None)]))
  {
    entries := entries0;
    ghost var fees := if fee == 0.0 then [] else [Line(Fee, feeAsset, -fee, None)];
    PushOptional(tx, 0, lines, fees);
    PushOptional(tx, 0, lines + fees, if pnl == 0.0 then [] else [Line(Income, "USDC", pnl, None)]);
    var index := |entries|;
    if fee != 0.0 {
      entries, index := entries + [EntryOf(tx, index, Line(Fee, feeAsset, -fee, None))], index + 1;
    }
    if pnl != 0.0 {
      entries, index := entries + [EntryOf(tx, index, Line(Income, "USDC", pnl, None))], index + 1;
    }
  }

  /** The lines of an extracted fill, in the direct parser's terms. */
  lemma {:induction false} ExtractedFillLines(parse: DecimalParser, fill: FillData, fee: real, pnl: real)
    requires parse(fill.sz).Some? && parse(fill.px).Some?
    requires fee == if fill.fee.Some? then OrZero(parse, fill.fee.value) else 0.0
    requires pnl == if fill.closedPnl.Some? then OrZero(parse, fill.closedPnl.value) else 0.0
    ensures ExtractFill(parse, fill) != []
    ensures AllFillLines(ExtractFill(parse, fill)) ==
            [TradeLine(ExtractFill(parse, fill)[0])]
            + (if fee == 0.0 then [] else [Line(Fee, FeeAsset(fill.feeToken), -fee, None)])
            + (if pnl == 0.0 then [] else [Line(Income, "USDC", pnl, None)])
  {
    OneFill(parse, fill);
    SettledLines(parse, fill.fee, Fee, FeeAsset(fill.feeToken));
    SettledLines(parse, fill.closedPnl, Income, "USDC");
  }

  /** Unless size or price is malformed, the first entry is the trade: bought or sold, at size times price. */
  ghost predicate TradeReads(parse: DecimalParser, fill: FillData, entries: seq<Entry>) {
    var size, price := parse(fill.sz), parse(fill.px);
    if size.None? || price.None? then entries == []
    else
      && entries != [] && entries[0].entryType == Trade && entries[0].asset == fill.coin
      && entries[0].amount == (if fill.side == "B" then size.value else -size.value)
      && entries[0].fiatValue.Some? && entries[0].fiatValue.value == size.value * price.value
      && forall i | 0 < i < |entries| :: entries[i].entryType != Trade
  }

  /** parse_fill gives exactly the entries that the Silver route derives from the same fill. */
  method ParseFill(parse: DecimalParser, tx: Tx, fill: FillData) returns (entries: seq<Entry>)
    ensures entries == Numbered(tx, 0, AllFillLines(ExtractFill(parse, fill)))
    ensures TradeReads(parse, fill, entries)
  {
    var size := parse(fill.sz);
    if size.None? { return []; }
    var price := parse(fill.px);
    if price.None? { return []; }
    var signed := if fill.side == "B" then size.value else -size.value;
    var trade := Line(Trade, fill.coin, signed, Some(FiatValue(size.value, price.value)));
    var fee := if fill.fee.Some? then OrZero(parse, fill.fee.value) else 0.0;
    var pnl := if fill.closedPnl.Some? then OrZero(parse, fill.closedPnl.value) else 0.0;
    entries := [EntryOf(tx, 0, trade)];
    assert entries == Numbered(tx, 0, [trade]);
    entries := PushSettlement(tx, entries, [trade], fee, FeeAsset(fill.feeToken), pnl);
    ExtractedFillLines(parse, fill, fee, pnl);
    FillReads(parse, tx, fill);
  }

  lemma {:induction false} FillReads(parse: DecimalParser, tx: Tx, fill: FillData)
    requires parse(fill.sz).Some? && parse(fill.px).Some?
    ensures TradeReads(parse, fill, Numbered(tx, 0, AllFillLines(ExtractFill(parse, fill))))
  {
    OneFill(parse, fill);
    var f := ExtractFill(parse, fill)[0];
    var lines := FillLines(f);
    LinesRead(f);
    forall i | 0 <= i < |lines| ensures Numbered(tx, 0, lines)[i] == EntryOf(tx, i, lines[i]) {
    }
    var entries := Numbered(tx, 0, lines);
    assert entries[0] == EntryOf(tx, 0, TradeLine(f));
    forall i | 0 < i < |entries| ensures entries[i].entryType != Trade { assert lines[i].entryType != Trade; }
  }

  lemma {:induction false} LinesRead(f: FillRecord)
    ensures FillLines(f) != [] && FillLines(f)[0] == TradeLine(f)
    ensures forall i | 0 < i < |FillLines(f)| :: FillLines(f)[i].entryType != Trade
  {
    var fee := Optional(Fee, FeeAsset(f.feeToken), Negated(f.fee));
    var pnl := Optional(Income, "USDC", f.closedPnl);
    assert FillLines(f) == [TradeLine(f)] + (fee + pnl);
    assert forall l: Line | l in fee + pnl :: l.entryType != Trade;
    assert forall i | 0 < i < |FillLines(f)| :: FillLines(f)[i] == (fee + pnl)[i - 1];
  }

  /** A well-formed payment is one entry in USDC, income exactly if it is positive. */
  ghost predicate PaymentReads(parse: DecimalParser, funding: FundingData, entries: seq<Entry>) {
    var amount := parse(funding.usdc);
    if amount.None? then entries == []
    else
      && |entries| == 1 && entries[0].asset == "USDC" && entries[0].amount == amount.value
      && (entries[0].entryType == Income <==> 0.0 < amount.value)
      && (entries[0].entryType == Fee <==> amount.value <= 0.0)
  }

  /** parse_funding gives exactly the entry that the Silver route derives from the same payment. */
  method ParseFunding(parse: DecimalParser, tx: Tx, funding: FundingData) returns (entries: seq<Entry>)
    ensures entries == Numbered(tx, 0, AllFundingLines(ExtractFunding(parse, FundingPayload(Some(funding)))))
    ensures PaymentReads(parse, funding, entries)
  {
    ghost var payments := ExtractFunding(parse, FundingPayload(Some(funding)));
    assert payments != [] ==> payments[..0] == [] && AllFundingLines([]) == [];
    var amount := parse(funding.usdc);
    if amount.None? { return []; }
    entries := [EntryOf(tx, 0, Line(if amount.value > 0.0 then Income else Fee, "USDC", amount.value, None))];
  }

  function Abs(x: real): real { if x < 0.0 then -x else x }

  /** The text of a ledger update's amount; "0" when the field is missing. */
  function LedgerText(u: LedgerData): string {
    if u.usdc.Some? then u.usdc.value
    else if u.kind == Liquidation && u.accountValue.Some? then u.accountValue.value
    else "0"
  }

  predicate LedgerHasEntry(parse: DecimalParser, u: LedgerData) { u.kind != OtherDelta && parse(LedgerText(u)).Some? }

  /** parse_ledger_update: deposits come in, withdrawals always go out, liquidations count as trades. */
  function LedgerEntries(parse: DecimalParser, tx: Tx, u: LedgerData): seq<Entry> {
    if !LedgerHasEntry(parse, u) then []
    else
      var amount := parse(LedgerText(u)).value;
      [EntryOf(tx, 0, Line(if u.kind == Liquidation then Trade else Transfer, "USDC",
                           if u.kind == Withdraw then -Abs(amount) else amount, None))]
  }

  /**
   Deposits, withdrawals and liquidations with a well-formed amount leave one entry in USDC; a withdrawal
   is negative whatever the sign of its text.
   */
  ghost predicate UpdateReads(parse: DecimalParser, u: LedgerData, entries: seq<Entry>) {
    var text := match u.usdc
                case Some(usdc) => usdc
                case None => if u.kind.Liquidation? && u.accountValue.Some? then u.accountValue.value else "0";
    if u.kind.OtherDelta? || parse(text).None? then entries == []
    else
      var x := parse(text).value;
      && |entries| == 1 && entries[0].asset == "USDC"
      && entries[0].entryType == (if u.kind.Liquidation? then Trade else Transfer)
      && (if u.kind.Withdraw? then entries[0].amount <= 0.0 && entries[0].amount in {x, -x}
          else entries[0].amount == x)
  }

  predicate Undecodable(p: Payload) {
    (p.FillPayload? && p.fill.None?) || (p.FundingPayload? && p.funding.None?) || (p.LedgerPayload? && p.update.None?)
  }

  /** The direct parser's entries, stated by the Silver route wherever the two agree. */
  function DirectEntries(parse: DecimalParser, tx: Tx, p: Payload): seq<Entry> {
    if p.LedgerPayload? && p.update.Some? then LedgerEntries(parse, tx, p.update.value) else SilverRoute(parse, tx, p)
  }

  /**
   parse_hyperliquid_transaction. For every payload it accepts, malformed amounts included, it gives
   the same entries with the same ids as the Silver route, unless the payload is a ledger update that
   it turns into an entry: the derivation reads fills and funding only.
   */
  method ParseTransaction(parse: DecimalParser, tx: Tx, p: Payload) returns (r: Result<seq<Entry>>)
    ensures r.Err? <==> Undecodable(p)
    ensures r.Ok? ==> r.value == DirectEntries(parse, tx, p)
    ensures r.Ok? && p.LedgerPayload? ==> UpdateReads(parse, p.update.value, r.value)
    ensures r.Ok? ==> (r.value == SilverRoute(parse, tx, p) <==>
                       !(p.LedgerPayload? && LedgerHasEntry(parse, p.update.value)))
  {
    if Undecodable(p) { return Err("payload does not decode"); }
    match p
    case FillPayload(fill) =>
      var entries := ParseFill(parse, tx, fill.value);
      assert AllFillLines(ExtractFills(parse, p)) + [] == AllFillLines(ExtractFills(parse, p));
      return Ok(entries);
    case FundingPayload(funding) =>
      var entries := ParseFunding(parse, tx, funding.value);
      assert [] + AllFundingLines(ExtractFunding(parse, p)) == AllFundingLines(ExtractFunding(parse, p));
      return Ok(entries);
    case LedgerPayload(update) => return Ok(LedgerEntries(parse, tx, update.value));
    case UnknownPayload => return Ok([]);
  }

  /** The failing family has members: a deposit of one has an entry on the direct route and none on the other. */
  lemma {:induction false} DepositHasNoDerivedEntry(tx: Tx)
    ensures var parse: DecimalParser := (text: string) => if text == "1" then Some(1.0) else None;
            var deposit := LedgerData(Deposit, Some("1"), None);
            && SilverRoute(parse, tx, LedgerPayload(Some(deposit))) == []
            && LedgerEntries(parse, tx, deposit) == [EntryOf(tx, 0, Line(Transfer, "USDC", 1.0, None))]
  {
  }
}
