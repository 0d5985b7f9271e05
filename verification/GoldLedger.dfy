/**
 The Gold wallet ledger and the Gold balance events are two derivations of the same Silver data. This
 module builds both the way `materialize_gold_from_silver` does and reconciles them per (network, asset).
 */
module GoldLedger {
  import opened Common
  import opened HlLedger
  import EvmValue
  import BalanceHistory

  type Key = BalanceHistory.Key

  // ---------------------------------------------------------------------------
  // Raw and Silver records
  // ---------------------------------------------------------------------------

  /** The raw row a record comes from, with what is looked up in it. */
  datatype Origin = Origin(raw: nat, network: string, timestamp: int, txHash: string)

  function KeyIn(origin: Origin, asset: string): Key { BalanceHistory.Key(origin.network, asset) }

  datatype TokenTransfer = TokenTransfer(origin: Origin, tokenAddress: string, symbol: Option<string>,
                                         from: string, to: string, amount: real, decimals: int, index: int)

  /** `feeLamports` is the fee of the delta's raw transaction, 0 when it has none. */
  datatype NativeDelta = NativeDelta(origin: Origin, account: string, token: string, delta: real, isFeePayer: bool,
                                     feeLamports: nat)

  /** A Bronze row: its Hyperliquid payload, what the other parsers extract from it, and its EVM fields. */
  datatype Raw = Raw(origin: Origin, payload: Payload, transfers: seq<TokenTransfer>, deltas: seq<NativeDelta>,
                     evm: Option<EvmValue.Tx>)

  datatype NetworkFill = NetworkFill(origin: Origin, fill: FillRecord)

  datatype NetworkFunding = NetworkFunding(origin: Origin, payment: FundingRecord)

  predicate IsHyperliquid(network: string) { "hypercore" <= network || "hyperliquid" <= network }

  predicate IsSolana(network: string) { "solana" <= network }

  /** Parsers, wallet and address normalisation of one materialization. */
  datatype Context = Context(parse: DecimalParser, normalize: string -> string, wallet: string) {
    predicate Mine(address: string) { normalize(address) == normalize(wallet) }
  }

  function HlTransfer(c: Context, origin: Origin, u: LedgerData): seq<TokenTransfer> {
    var amount := c.parse(if u.usdc.Some? then u.usdc.value else "0");
    if amount.None? || amount.value == 0.0 then []
    else
      match u.kind
      case Deposit => [TokenTransfer(origin, "USDC", Some("USDC"), "external", c.wallet, amount.value, 6, 0)]
      case Withdraw => [TokenTransfer(origin, "USDC", Some("USDC"), c.wallet, "external", Abs(amount.value), 6, 0)]
      case _ => []
  }

  function UsdcDelta(c: Context, origin: Origin, delta: real, isFeePayer: bool): seq<NativeDelta> {
    if delta == 0.0 then [] else [NativeDelta(origin, c.wallet, "USDC", delta, isFeePayer, 0)]
  }

  /** extract_hyperliquid_native_balance_deltas: realized PnL less fee, or the funding amount. */
  function HlDeltas(c: Context, origin: Origin, p: Payload): seq<NativeDelta> {
    match p
    case FillPayload(Some(fill)) =>
      if Malformed(c.parse, fill.fee) || Malformed(c.parse, fill.closedPnl) then []
      else UsdcDelta(c, origin, OrNone(Parsed(c.parse, fill.closedPnl)) - OrNone(Parsed(c.parse, fill.fee)), true)
    case FundingPayload(Some(funding)) =>
      if c.parse(funding.usdc).None? then [] else UsdcDelta(c, origin, c.parse(funding.usdc).value, false)
    case _ => []
  }

  predicate Malformed(parse: DecimalParser, text: Option<string>) { text.Some? && parse(text.value).None? }

  function OrNone(x: Option<real>): real { if x.Some? then x.value else 0.0 }

  function StampTransfer(origin: Origin): TokenTransfer -> seq<TokenTransfer> {
    (t: TokenTransfer) => [t.(origin := origin)]
  }

  function StampDelta(origin: Origin): NativeDelta -> seq<NativeDelta> { (d: NativeDelta) => [d.(origin := origin)] }

  function TransfersOf(c: Context): Raw -> seq<TokenTransfer> {
    (raw: Raw) =>
      if !IsHyperliquid(raw.origin.network) then FlatMap(StampTransfer(raw.origin), raw.transfers)
      else
        match raw.payload
        case LedgerPayload(Some(update)) => HlTransfer(c, raw.origin, update)
        case _ => []
  }

  function DeltasOf(c: Context): Raw -> seq<NativeDelta> {
    (raw: Raw) =>
      if IsHyperliquid(raw.origin.network) then HlDeltas(c, raw.origin, raw.payload)
      else FlatMap(StampDelta(raw.origin), raw.deltas)
  }

  function WithNetworkFill(origin: Origin): FillRecord -> seq<NetworkFill> {
    (f: FillRecord) => [NetworkFill(origin, f)]
  }

  function FillsOf(c: Context): Raw -> seq<NetworkFill> {
    (raw: Raw) =>
      if !IsHyperliquid(raw.origin.network) then []
      else FlatMap(WithNetworkFill(raw.origin), ExtractFills(c.parse, raw.payload))
  }

  function WithNetworkFunding(origin: Origin): FundingRecord -> seq<NetworkFunding> {
    (p: FundingRecord) => [NetworkFunding(origin, p)]
  }

  function FundingOf(c: Context): Raw -> seq<NetworkFunding> {
    (raw: Raw) =>
      if !IsHyperliquid(raw.origin.network) then []
      else FlatMap(WithNetworkFunding(raw.origin), ExtractFunding(c.parse, raw.payload))
  }

  // ---------------------------------------------------------------------------
  // Ledger rows and balance events
  // ---------------------------------------------------------------------------

  datatype RowKind = TransferRow | FeeRow | TradeRow | IncomeRow | FundingRow

  /** What a ledger row's id is hashed from besides the wallet. */
  datatype LedgerId =
    | TransferId(raw: nat, token: string, index: int, outgoing: bool)
    | NativeId(raw: nat, account: string, kind: RowKind)
    | PositionId(raw: nat, coin: string, tradeId: int)
    | SettlementId(raw: nat, coin: string, tradeId: int, kind: RowKind)
    | FundingId(raw: nat, coin: string, time: int)
    | FlowId(raw: nat, kind: RowKind)

  datatype LedgerRow = LedgerRow(id: LedgerId, key: Key, kind: RowKind, amount: real)

  /** What a balance event is hashed from besides wallet, asset, timestamp and transaction hash. */
  datatype Source =
    | FromTransfer(origin: Origin, token: string, from: string, to: string, index: int)
    | FromDelta(origin: Origin, account: string, token: string)
    | FromFlow(origin: Origin)

  datatype BalanceEvent = BalanceEvent(source: Source, key: Key, delta: real)

  function AssetOf(t: TokenTransfer): string { if t.symbol.Some? then t.symbol.value else t.tokenAddress }

  /** Unknown units and self-transfers leave no ledger row. */
  function TransferRows(c: Context): TokenTransfer -> seq<LedgerRow> {
    (t: TokenTransfer) =>
      if t.decimals < 0 || c.Mine(t.from) == c.Mine(t.to) then []
      else [LedgerRow(TransferId(t.origin.raw, t.tokenAddress, t.index, c.Mine(t.from)), KeyIn(t.origin, AssetOf(t)),
                      TransferRow, if c.Mine(t.from) then -t.amount else t.amount)]
  }

  /** A self-transfer is an event of zero. */
  function TransferEvents(c: Context): TokenTransfer -> seq<BalanceEvent> {
    (t: TokenTransfer) =>
      if t.decimals < 0 || (!c.Mine(t.from) && !c.Mine(t.to)) then []
      else
        var delta := if c.Mine(t.from) && c.Mine(t.to) then 0.0 else if c.Mine(t.from) then -t.amount else t.amount;
        [BalanceEvent(FromTransfer(t.origin, t.tokenAddress, t.from, t.to, t.index), KeyIn(t.origin, AssetOf(t)),
                      delta)]
  }

  function SolanaFee(d: NativeDelta): real {
    if d.isFeePayer && IsSolana(d.origin.network) then d.feeLamports as real / 1_000_000_000.0 else 0.0
  }

  function NonZeroRow(id: LedgerId, key: Key, kind: RowKind, amount: real): seq<LedgerRow> {
    if amount == 0.0 then [] else [LedgerRow(id, key, kind, amount)]
  }

  function NativeRow(d: NativeDelta, kind: RowKind, amount: real): seq<LedgerRow> {
    NonZeroRow(NativeId(d.origin.raw, d.account, kind), KeyIn(d.origin, d.token), kind, amount)
  }

  /** Value and fee apart; Hyperliquid settlement is booked from fills and funding instead. */
  function DeltaRows(c: Context): NativeDelta -> seq<LedgerRow> {
    (d: NativeDelta) =>
      if !c.Mine(d.account) || IsHyperliquid(d.origin.network) then []
      else
        NativeRow(d, TransferRow, d.delta + SolanaFee(d)) + NativeRow(d, FeeRow, -SolanaFee(d))
  }

  function DeltaEvents(c: Context): NativeDelta -> seq<BalanceEvent> {
    (d: NativeDelta) =>
      if !c.Mine(d.account) then []
      else [BalanceEvent(FromDelta(d.origin, d.account, d.token), KeyIn(d.origin, d.token), d.delta)]
  }

  function TradeNumber(f: FillRecord): int { if f.tradeId.Some? then f.tradeId.value else 0 }

  function PositionRow(f: NetworkFill): seq<LedgerRow> {
    var size := if f.fill.side == "B" then f.fill.size else -f.fill.size;
    [LedgerRow(PositionId(f.origin.raw, f.fill.coin, TradeNumber(f.fill)), KeyIn(f.origin, f.fill.coin), TradeRow,
               size)]
  }

  function OptionalRow(f: NetworkFill, asset: string, kind: RowKind, amount: Option<real>): seq<LedgerRow> {
    if amount.None? then []
    else NonZeroRow(SettlementId(f.origin.raw, f.fill.coin, TradeNumber(f.fill), kind), KeyIn(f.origin, asset), kind,
                    amount.value)
  }

  function SettlementRows(f: NetworkFill): seq<LedgerRow> {
    OptionalRow(f, FeeAsset(f.fill.feeToken), FeeRow, Negated(f.fill.fee)) +
      OptionalRow(f, "USDC", IncomeRow, f.fill.closedPnl)
  }

  function FundingRows(p: NetworkFunding): seq<LedgerRow> {
    [LedgerRow(FundingId(p.origin.raw, p.payment.coin, p.payment.time), KeyIn(p.origin, "USDC"), FundingRow,
               p.payment.amount)]
  }

  function NativeAsset(network: string): string { if "hyperevm" <= network then "HYPE" else "ETH" }

  function NativeKey(raw: Raw): Key { KeyIn(raw.origin, NativeAsset(raw.origin.network)) }

  /** The flows of a row that names a sender; malformed amounts leave none. */
  function FlowsOf(c: Context, raw: Raw): seq<EvmValue.Flow> {
    if raw.evm.Some? && raw.evm.value.from.Text? then EvmValue.Booked(raw.evm.value, c.wallet) else []
  }

  function KindOf(f: EvmValue.Flow): RowKind { if f.kind == EvmValue.FeeFlow then FeeRow else TransferRow }

  function FlowRow(raw: nat, key: Key): EvmValue.Flow -> seq<LedgerRow> {
    (f: EvmValue.Flow) => [LedgerRow(FlowId(raw, KindOf(f)), key, KindOf(f), f.amount)]
  }

  function FlowRows(c: Context): Raw -> seq<LedgerRow> {
    (raw: Raw) => FlatMap(FlowRow(raw.origin.raw, NativeKey(raw)), FlowsOf(c, raw))
  }

  function FlowEvents(c: Context): Raw -> seq<BalanceEvent> {
    (raw: Raw) =>
      var net := Sum(EvmValue.FlowAmount, FlowsOf(c, raw));
      if net == 0.0 then [] else [BalanceEvent(FromFlow(raw.origin), NativeKey(raw), net)]
  }

  // ---------------------------------------------------------------------------
  // Totals per key
  // ---------------------------------------------------------------------------

  /** The cash amount a row books under a key; position sizes are not cash. */
  function Booked(k: Key): LedgerRow -> real {
    (r: LedgerRow) => if r.key == k && r.kind != TradeRow then r.amount else 0.0
  }

  function Moved(k: Key): BalanceEvent -> real { (e: BalanceEvent) => if e.key == k then e.delta else 0.0 }

  /** A fee settled outside USDC is booked under its own token, while the balance delta charges USDC. */
  predicate FeeInUsdc(fill: FillRecord) { fill.fee.None? || fill.fee.value == 0.0 || FeeAsset(fill.feeToken) == "USDC" }

  /** What validation guarantees of a Hyperliquid payload: every amount present is a decimal. */
  predicate ValidAmounts(parse: DecimalParser, p: Payload) {
    match p
    case FillPayload(fill) =>
      fill.Some? && parse(fill.value.px).Some? && parse(fill.value.sz).Some?
      && (fill.value.fee.Some? ==> parse(fill.value.fee.value).Some?)
      && (fill.value.closedPnl.Some? ==> parse(fill.value.closedPnl.value).Some?)
    case FundingPayload(funding) => funding.Some? && parse(funding.value.usdc).Some?
    case _ => true
  }

  predicate Reconcilable(parse: DecimalParser, raw: Raw) {
    IsHyperliquid(raw.origin.network) ==>
      ValidAmounts(parse, raw.payload) && forall f | f in ExtractFills(parse, raw.payload) :: FeeInUsdc(f)
  }

  lemma {:induction false} SumOne<T>(f: T -> real, x: T)
    ensures Sum(f, [x]) == f(x)
  {
    assert [x][1..] == [];
  }

  lemma {:induction false} SumOptionalRow(k: Key, id: LedgerId, key: Key, kind: RowKind, amount: real)
    requires kind != TradeRow
    ensures Sum(Booked(k), NonZeroRow(id, key, kind, amount)) == if key == k then amount else 0.0
  {
    if amount != 0.0 { SumOne(Booked(k), LedgerRow(id, key, kind, amount)); }
  }

  lemma {:induction false} TransferReconciles(c: Context, k: Key, t: TokenTransfer)
    ensures Sum(Booked(k), TransferRows(c)(t)) == Sum(Moved(k), TransferEvents(c)(t))
  {
    if TransferRows(c)(t) != [] { SumOne(Booked(k), TransferRows(c)(t)[0]); }
    if TransferEvents(c)(t) != [] { SumOne(Moved(k), TransferEvents(c)(t)[0]); }
  }

  lemma {:induction false} DeltaReconciles(c: Context, k: Key, d: NativeDelta)
    ensures Sum(Booked(k), DeltaRows(c)(d)) ==
            if IsHyperliquid(d.origin.network) then 0.0 else Sum(Moved(k), DeltaEvents(c)(d))
  {
    var key, raw := KeyIn(d.origin, d.token), d.origin.raw;
    SumOptionalRow(k, NativeId(raw, d.account, TransferRow), key, TransferRow, d.delta + SolanaFee(d));
    SumOptionalRow(k, NativeId(raw, d.account, FeeRow), key, FeeRow, -SolanaFee(d));
    SumConcat(Booked(k), NativeRow(d, TransferRow, d.delta + SolanaFee(d)), NativeRow(d, FeeRow, -SolanaFee(d)));
    if c.Mine(d.account) { SumOne(Moved(k), DeltaEvents(c)(d)[0]); }
  }

  lemma {:induction false} FlowsBooked(k: Key, raw: nat, key: Key, flows: seq<EvmValue.Flow>)
    ensures Sum(Booked(k), FlatMap(FlowRow(raw, key), flows)) ==
            if key == k then Sum(EvmValue.FlowAmount, flows) else 0.0
  {
    if flows != [] {
      FlowsBooked(k, raw, key, flows[1..]);
      SumOne(Booked(k), FlowRow(raw, key)(flows[0])[0]);
      SumConcat(Booked(k), FlowRow(raw, key)(flows[0]), FlatMap(FlowRow(raw, key), flows[1..]));
    }
  }

  lemma {:induction false} FlowReconciles(c: Context, k: Key, raw: Raw)
    ensures Sum(Booked(k), FlowRows(c)(raw)) == Sum(Moved(k), FlowEvents(c)(raw))
  {
    FlowsBooked(k, raw.origin.raw, NativeKey(raw), FlowsOf(c, raw));
    if FlowEvents(c)(raw) != [] { SumOne(Moved(k), FlowEvents(c)(raw)[0]); }
  }

  // ---------------------------------------------------------------------------
  // Hyperliquid: settlement booked from fills and funding against USDC deltas
  // ---------------------------------------------------------------------------

  function FillBooked(k: Key, f: NetworkFill): real {
    (if k == KeyIn(f.origin, FeeAsset(f.fill.feeToken)) then -OrNone(f.fill.fee) else 0.0)
    + (if k == KeyIn(f.origin, "USDC") then OrNone(f.fill.closedPnl) else 0.0)
  }

  lemma {:induction false} SettlementBooked(k: Key, f: NetworkFill)
    ensures Sum(Booked(k), SettlementRows(f)) == FillBooked(k, f)
  {
    SumConcat(Booked(k), OptionalRow(f, FeeAsset(f.fill.feeToken), FeeRow, Negated(f.fill.fee)),
              OptionalRow(f, "USDC", IncomeRow, f.fill.closedPnl));
    var raw, coin, trade := f.origin.raw, f.fill.coin, TradeNumber(f.fill);
    SumOptionalRow(k, SettlementId(raw, coin, trade, FeeRow), KeyIn(f.origin, FeeAsset(f.fill.feeToken)), FeeRow,
                   -OrNone(f.fill.fee));
    SumOptionalRow(k, SettlementId(raw, coin, trade, IncomeRow), KeyIn(f.origin, "USDC"), IncomeRow,
                   OrNone(f.fill.closedPnl));
  }

  lemma {:induction false} UsdcMoved(c: Context, k: Key, origin: Origin, delta: real, isFeePayer: bool)
    ensures Sum(Moved(k), FlatMap(DeltaEvents(c), UsdcDelta(c, origin, delta, isFeePayer))) ==
            if k == KeyIn(origin, "USDC") then delta else 0.0
  {
    if delta != 0.0 {
      var d := NativeDelta(origin, c.wallet, "USDC", delta, isFeePayer, 0);
      SumFlatMap(Moved(k), DeltaEvents(c), [d]);
      SumOne(Each(Moved(k), DeltaEvents(c)), d);
      SumOne(Moved(k), DeltaEvents(c)(d)[0]);
    }
  }

  /** A valid fill reconciles under every key exactly when its fee, if any, is in USDC. */
  lemma {:induction false} FillReconcilesIff(c: Context, origin: Origin, fill: FillData)
    requires ValidAmounts(c.parse, FillPayload(Some(fill)))
    ensures ExtractFill(c.parse, fill) != []
    ensures var f := NetworkFill(origin, ExtractFill(c.parse, fill)[0]);
            var deltas := HlDeltas(c, origin, FillPayload(Some(fill)));
            (forall k :: Sum(Booked(k), SettlementRows(f)) == Sum(Moved(k), FlatMap(DeltaEvents(c), deltas)))
            <==> FeeInUsdc(f.fill)
  {
    var f := NetworkFill(origin, ExtractFill(c.parse, fill)[0]);
    var delta := OrNone(f.fill.closedPnl) - OrNone(f.fill.fee);
    var deltas := HlDeltas(c, origin, FillPayload(Some(fill)));
    assert deltas == UsdcDelta(c, origin, delta, true);
    forall k
      ensures Sum(Booked(k), SettlementRows(f)) == FillBooked(k, f)
      ensures Sum(Moved(k), FlatMap(DeltaEvents(c), deltas)) ==
              if k == KeyIn(origin, "USDC") then delta else 0.0
    {
      SettlementBooked(k, f);
      UsdcMoved(c, k, origin, delta, true);
    }
    if !FeeInUsdc(f.fill) {
      var k := KeyIn(origin, FeeAsset(f.fill.feeToken));
      assert Sum(Booked(k), SettlementRows(f)) != Sum(Moved(k), FlatMap(DeltaEvents(c), deltas));
    }
  }

  /** The failing family has members: a fee of one HYPE is booked under HYPE and charged to USDC. */
  lemma {:induction false} HypeFeeDoesNotReconcile(origin: Origin, wallet: string)
    ensures var c := Context((text: string) => Some(1.0), (a: string) => a, wallet);
            var fill := FillData("BTC", "1", "1", "B", None, None, Some("1"), Some("HYPE"), None);
            var f := NetworkFill(origin, FillRecord("BTC", "B", 1.0, 1.0, None, None, Some(1.0), Some("HYPE"), None));
            var k := KeyIn(origin, "HYPE");
            && ExtractFill(c.parse, fill) == [f.fill]
            && Sum(Booked(k), SettlementRows(f)) == -1.0
            && Sum(Moved(k), FlatMap(DeltaEvents(c), HlDeltas(c, origin, FillPayload(Some(fill))))) == 0.0
  {
    var c := Context((text: string) => Some(1.0), (a: string) => a, wallet);
    var f := NetworkFill(origin, FillRecord("BTC", "B", 1.0, 1.0, None, None, Some(1.0), Some("HYPE"), None));
    var k := KeyIn(origin, "HYPE");
    assert "HYPE" != "USDC" by { assert "HYPE"[0] != "USDC"[0]; }
    SettlementBooked(k, f);
    UsdcMoved(c, k, origin, -1.0, true);
  }

  lemma {:induction false} OneBooked<T>(k: Key, rows: T -> seq<LedgerRow>, x: T)
    ensures Sum(Booked(k), FlatMap(rows, [x])) == Sum(Booked(k), rows(x))
  {
    SumFlatMap(Booked(k), rows, [x]);
    SumOne(Each(Booked(k), rows), x);
  }

  lemma {:induction false} FillRawReconciles(c: Context, k: Key, raw: Raw)
    requires IsHyperliquid(raw.origin.network) && Reconcilable(c.parse, raw) && raw.payload.FillPayload?
    ensures Sum(Booked(k), FlatMap(SettlementRows, FillsOf(c)(raw))) ==
            Sum(Moved(k), FlatMap(DeltaEvents(c), DeltasOf(c)(raw)))
  {
    var fills := ExtractFills(c.parse, raw.payload);
    FillReconcilesIff(c, raw.origin, raw.payload.fill.value);
    assert fills == [fills[0]] && FeeInUsdc(fills[0]);
    var f := NetworkFill(raw.origin, fills[0]);
    assert FlatMap(WithNetworkFill(raw.origin), [fills[0]]) == [f];
    assert FillsOf(c)(raw) == [f];
    OneBooked(k, SettlementRows, f);
    assert DeltasOf(c)(raw) == HlDeltas(c, raw.origin, FillPayload(Some(raw.payload.fill.value)));
  }

  lemma {:induction false} FundingRawReconciles(c: Context, k: Key, raw: Raw)
    requires IsHyperliquid(raw.origin.network) && Reconcilable(c.parse, raw) && raw.payload.FundingPayload?
    ensures Sum(Booked(k), FlatMap(FundingRows, FundingOf(c)(raw))) ==
            Sum(Moved(k), FlatMap(DeltaEvents(c), DeltasOf(c)(raw)))
  {
    var amount := c.parse(raw.payload.funding.value.usdc).value;
    var record := FundingRecord(raw.payload.funding.value.coin, amount, ToI64(raw.payload.funding.value.time));
    var p := NetworkFunding(raw.origin, record);
    assert FlatMap(WithNetworkFunding(raw.origin), [record]) == [p];
    assert FundingOf(c)(raw) == [p];
    OneBooked(k, FundingRows, p);
    SumOne(Booked(k), FundingRows(p)[0]);
    UsdcMoved(c, k, raw.origin, amount, false);
  }

  lemma {:induction false} DeltasReconcile(c: Context, k: Key, deltas: seq<NativeDelta>, network: string)
    requires forall d | d in deltas :: d.origin.network == network
    ensures Sum(Booked(k), FlatMap(DeltaRows(c), deltas)) ==
            if IsHyperliquid(network) then 0.0 else Sum(Moved(k), FlatMap(DeltaEvents(c), deltas))
  {
    if deltas != [] {
      DeltaReconciles(c, k, deltas[0]);
      DeltasReconcile(c, k, deltas[1..], network);
      SumConcat(Booked(k), DeltaRows(c)(deltas[0]), FlatMap(DeltaRows(c), deltas[1..]));
      SumConcat(Moved(k), DeltaEvents(c)(deltas[0]), FlatMap(DeltaEvents(c), deltas[1..]));
    }
  }

  lemma {:induction false} StampedNetwork(deltas: seq<NativeDelta>, origin: Origin)
    ensures forall d | d in FlatMap(StampDelta(origin), deltas) :: d.origin == origin
  {
    if deltas != [] { StampedNetwork(deltas[1..], origin); }
  }

  lemma {:induction false} DeltasOfNetwork(c: Context, raw: Raw)
    ensures forall d | d in DeltasOf(c)(raw) :: d.origin.network == raw.origin.network
  {
    StampedNetwork(raw.deltas, raw.origin);
  }

  /** One raw row: native ledger rows, settlement and funding together book what its deltas move. */
  lemma {:induction false} RawReconciles(c: Context, k: Key, raw: Raw)
    requires Reconcilable(c.parse, raw)
    ensures Sum(Booked(k), FlatMap(DeltaRows(c), DeltasOf(c)(raw)))
            + Sum(Booked(k), FlatMap(SettlementRows, FillsOf(c)(raw)))
            + Sum(Booked(k), FlatMap(FundingRows, FundingOf(c)(raw)))
            == Sum(Moved(k), FlatMap(DeltaEvents(c), DeltasOf(c)(raw)))
  {
    DeltasOfNetwork(c, raw);
    DeltasReconcile(c, k, DeltasOf(c)(raw), raw.origin.network);
    if IsHyperliquid(raw.origin.network) {
      if raw.payload.FillPayload? {
        FillRawReconciles(c, k, raw);
        assert FundingOf(c)(raw) == [];
      } else if raw.payload.FundingPayload? {
        FundingRawReconciles(c, k, raw);
        assert FillsOf(c)(raw) == [];
      } else {
        assert FillsOf(c)(raw) == [] && FundingOf(c)(raw) == [] && DeltasOf(c)(raw) == [];
      }
    } else {
      assert FillsOf(c)(raw) == [] && FundingOf(c)(raw) == [];
    }
  }

  lemma {:induction false} NativeTotals(c: Context, k: Key, raws: seq<Raw>)
    requires forall raw | raw in raws :: Reconcilable(c.parse, raw)
    ensures Sum(Booked(k), FlatMap(DeltaRows(c), FlatMap(DeltasOf(c), raws)))
            + Sum(Booked(k), FlatMap(SettlementRows, FlatMap(FillsOf(c), raws)))
            + Sum(Booked(k), FlatMap(FundingRows, FlatMap(FundingOf(c), raws)))
            == Sum(Moved(k), FlatMap(DeltaEvents(c), FlatMap(DeltasOf(c), raws)))
  {
    if raws != [] {
      RawReconciles(c, k, raws[0]);
      NativeTotals(c, k, raws[1..]);
      NestedHead(Booked(k), DeltaRows(c), DeltasOf(c), raws);
      NestedHead(Booked(k), SettlementRows, FillsOf(c), raws);
      NestedHead(Booked(k), FundingRows, FundingOf(c), raws);
      NestedHead(Moved(k), DeltaEvents(c), DeltasOf(c), raws);
    }
  }

  lemma {:induction false} TransferTotals(c: Context, k: Key, transfers: seq<TokenTransfer>)
    ensures Sum(Booked(k), FlatMap(TransferRows(c), transfers)) == Sum(Moved(k), FlatMap(TransferEvents(c), transfers))
  {
    if transfers != [] {
      TransferReconciles(c, k, transfers[0]);
      TransferTotals(c, k, transfers[1..]);
      SumConcat(Booked(k), TransferRows(c)(transfers[0]), FlatMap(TransferRows(c), transfers[1..]));
      SumConcat(Moved(k), TransferEvents(c)(transfers[0]), FlatMap(TransferEvents(c), transfers[1..]));
    }
  }

  lemma {:induction false} FlowTotals(c: Context, k: Key, raws: seq<Raw>)
    ensures Sum(Booked(k), FlatMap(FlowRows(c), raws)) == Sum(Moved(k), FlatMap(FlowEvents(c), raws))
  {
    if raws != [] {
      FlowReconciles(c, k, raws[0]);
      FlowTotals(c, k, raws[1..]);
      SumConcat(Booked(k), FlowRows(c)(raws[0]), FlatMap(FlowRows(c), raws[1..]));
      SumConcat(Moved(k), FlowEvents(c)(raws[0]), FlatMap(FlowEvents(c), raws[1..]));
    }
  }

  lemma {:induction false} PositionsAreNotCash(k: Key, fills: seq<NetworkFill>)
    ensures Sum(Booked(k), FlatMap(PositionRow, fills)) == 0.0
  {
    if fills != [] {
      PositionsAreNotCash(k, fills[1..]);
      SumOne(Booked(k), PositionRow(fills[0])[0]);
      SumConcat(Booked(k), PositionRow(fills[0]), FlatMap(PositionRow, fills[1..]));
    }
  }

  function LedgerOf(c: Context, raws: seq<Raw>): seq<LedgerRow> {
    FlatMap(TransferRows(c), FlatMap(TransfersOf(c), raws))
    + FlatMap(DeltaRows(c), FlatMap(DeltasOf(c), raws))
    + FlatMap(PositionRow, FlatMap(FillsOf(c), raws))
    + FlatMap(SettlementRows, FlatMap(FillsOf(c), raws))
    + FlatMap(FundingRows, FlatMap(FundingOf(c), raws))
    + FlatMap(FlowRows(c), raws)
  }

  function EventsOf(c: Context, raws: seq<Raw>): seq<BalanceEvent> {
    FlatMap(TransferEvents(c), FlatMap(TransfersOf(c), raws))
    + FlatMap(DeltaEvents(c), FlatMap(DeltasOf(c), raws))
    + FlatMap(FlowEvents(c), raws)
  }

  lemma {:induction false} SumSix(g: LedgerRow -> real, a: seq<LedgerRow>, b: seq<LedgerRow>, c: seq<LedgerRow>,
                                  d: seq<LedgerRow>, e: seq<LedgerRow>, f: seq<LedgerRow>)
    ensures Sum(g, a + b + c + d + e + f) == Sum(g, a) + Sum(g, b) + Sum(g, c) + Sum(g, d) + Sum(g, e) + Sum(g, f)
  {
    SumConcat(g, a, b);
    SumConcat(g, a + b, c);
    SumConcat(g, a + b + c, d);
    SumConcat(g, a + b + c + d, e);
    SumConcat(g, a + b + c + d + e, f);
  }

  /**
   Reconciliation: for every batch of validated rows, any wallet and every (network, asset), the cash
   booked in the ledger equals the balance movement, across all chains and event kinds.
   */
  lemma {:induction false} LedgerReconciles(c: Context, raws: seq<Raw>, k: Key)
    requires forall raw | raw in raws :: Reconcilable(c.parse, raw)
    ensures Sum(Booked(k), LedgerOf(c, raws)) == Sum(Moved(k), EventsOf(c, raws))
  {
    var transfers, deltas := FlatMap(TransfersOf(c), raws), FlatMap(DeltasOf(c), raws);
    var fills, funding := FlatMap(FillsOf(c), raws), FlatMap(FundingOf(c), raws);
    SumSix(Booked(k), FlatMap(TransferRows(c), transfers), FlatMap(DeltaRows(c), deltas), FlatMap(PositionRow, fills),
           FlatMap(SettlementRows, fills), FlatMap(FundingRows, funding), FlatMap(FlowRows(c), raws));
    SumConcat(Moved(k), FlatMap(TransferEvents(c), transfers), FlatMap(DeltaEvents(c), deltas));
    SumConcat(Moved(k), FlatMap(TransferEvents(c), transfers) + FlatMap(DeltaEvents(c), deltas),
              FlatMap(FlowEvents(c), raws));
    TransferTotals(c, k, transfers);
    NativeTotals(c, k, raws);
    PositionsAreNotCash(k, fills);
    FlowTotals(c, k, raws);
  }

  datatype Silver = Silver(transfers: seq<TokenTransfer>, deltas: seq<NativeDelta>, fills: seq<NetworkFill>,
                           funding: seq<NetworkFunding>)

  function SilverOf(c: Context, raws: seq<Raw>): Silver {
    Silver(FlatMap(TransfersOf(c), raws), FlatMap(DeltasOf(c), raws), FlatMap(FillsOf(c), raws),
           FlatMap(FundingOf(c), raws))
  }

  method ExtractSilver(c: Context, raws: seq<Raw>) returns (s: Silver)
    ensures s == SilverOf(c, raws)
  {
    var transfers := CollectEach(TransfersOf(c), raws);
    var deltas := CollectEach(DeltasOf(c), raws);
    var fills := CollectEach(FillsOf(c), raws);
    var funding := CollectEach(FundingOf(c), raws);
    s := Silver(transfers, deltas, fills, funding);
  }

  method BuildLedger(c: Context, raws: seq<Raw>, s: Silver) returns (ledger: seq<LedgerRow>)
    requires s == SilverOf(c, raws)
    ensures ledger == LedgerOf(c, raws)
  {
    ledger := CollectEach(TransferRows(c), s.transfers);
    ledger := AppendEach(DeltaRows(c), s.deltas, ledger);
    ledger := AppendEach(PositionRow, s.fills, ledger);
    ledger := AppendEach(SettlementRows, s.fills, ledger);
    ledger := AppendEach(FundingRows, s.funding, ledger);
    ledger := AppendEach(FlowRows(c), raws, ledger);
  }

  method BuildEvents(c: Context, raws: seq<Raw>, s: Silver) returns (events: seq<BalanceEvent>)
    requires s == SilverOf(c, raws)
    ensures events == EventsOf(c, raws)
  {
    events := CollectEach(TransferEvents(c), s.transfers);
    events := AppendEach(DeltaEvents(c), s.deltas, events);
    events := AppendEach(FlowEvents(c), raws, events);
  }

  /** The materialization loops, dataset by dataset: both outputs, reconciled. */
  method Materialize(c: Context, raws: seq<Raw>) returns (ledger: seq<LedgerRow>, events: seq<BalanceEvent>)
    ensures c.wallet == "" ==> ledger == [] && events == []
    ensures c.wallet != "" ==> ledger == LedgerOf(c, raws) && events == EventsOf(c, raws)
    ensures (forall raw | raw in raws :: Reconcilable(c.parse, raw)) ==>
            forall k :: Sum(Booked(k), ledger) == Sum(Moved(k), events)
  {
    if c.wallet == "" { return [], []; }
    var s := ExtractSilver(c, raws);
    ledger := BuildLedger(c, raws, s);
    events := BuildEvents(c, raws, s);
    if forall raw | raw in raws :: Reconcilable(c.parse, raw) {
      forall k ensures Sum(Booked(k), ledger) == Sum(Moved(k), events) { LedgerReconciles(c, raws, k); }
    }
  }
}
