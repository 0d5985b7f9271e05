/**
 What the Gold ledger and the balance events add up to, on the amounts of the raw payloads: received less
 sent, deposits less withdrawals, realized PnL, fees, funding and gas, under every network and asset.
 */
module GoldAmounts {
  import opened Common
  import opened HlLedger
  import opened GoldLedger
  import opened LedgerTable
  import EvmValue
  import BalanceHistory

  type Kinds = RowKind -> bool

  /** The amounts of some kinds of ledger rows under one key. */
  function Amounts(k: Key, kinds: Kinds): LedgerRow -> real {
    (r: LedgerRow) => if r.key == k && kinds(r.kind) then r.amount else 0.0
  }

  // ---------------------------------------------------------------------------
  // The amounts of one raw row
  // ---------------------------------------------------------------------------

  predicate OnHypercore(raw: Raw) { "hypercore" <= raw.origin.network || "hyperliquid" <= raw.origin.network }

  function In(raw: Raw, asset: string): Key { BalanceHistory.Key(raw.origin.network, asset) }

  /** A decimal that is there and well-formed counts; any other text does not. */
  function Read(parse: DecimalParser, text: Option<string>): real {
    if text.Some? && parse(text.value).Some? then parse(text.value).value else 0.0
  }

  /** A fill whose price and size are well-formed. */
  predicate HasFill(parse: DecimalParser, raw: Raw) {
    && OnHypercore(raw) && raw.payload.FillPayload? && raw.payload.fill.Some?
    && parse(raw.payload.fill.value.px).Some? && parse(raw.payload.fill.value.sz).Some?
  }

  /** The size of a fill in its coin: bought, or sold. */
  function Bought(c: Context, k: Key): Raw -> real {
    (raw: Raw) =>
      if HasFill(c.parse, raw) && k == In(raw, raw.payload.fill.value.coin) then
        var size := c.parse(raw.payload.fill.value.sz).value;
        if raw.payload.fill.value.side == "B" then size else -size
      else 0.0
  }

  function ClosedPnl(c: Context, k: Key): Raw -> real {
    (raw: Raw) =>
      if HasFill(c.parse, raw) && k == In(raw, "USDC") then Read(c.parse, raw.payload.fill.value.closedPnl) else 0.0
  }

  /** A fill's fee, in the token it names, or in USDC. */
  function FillFee(c: Context, k: Key): Raw -> real {
    (raw: Raw) =>
      if !HasFill(c.parse, raw) then 0.0
      else
        var token := raw.payload.fill.value.feeToken;
        if k == In(raw, if token.Some? then token.value else "USDC") then Read(c.parse, raw.payload.fill.value.fee)
        else 0.0
  }

  function Funded(c: Context, k: Key): Raw -> real {
    (raw: Raw) =>
      if OnHypercore(raw) && raw.payload.FundingPayload? && raw.payload.funding.Some? && k == In(raw, "USDC")
      then Read(c.parse, Some(raw.payload.funding.value.usdc))
      else 0.0
  }

  /** The amount of a deposit or withdrawal; a missing one reads "0". */
  function Update(c: Context, k: Key, raw: Raw, kind: DeltaKind): real {
    if OnHypercore(raw) && raw.payload.LedgerPayload? && raw.payload.update.Some? && k == In(raw, "USDC")
       && raw.payload.update.value.kind == kind
    then
      var usdc := raw.payload.update.value.usdc;
      Read(c.parse, if usdc.Some? then usdc else Some("0"))
    else 0.0
  }

  function Deposited(c: Context, k: Key): Raw -> real { (raw: Raw) => Update(c, k, raw, Deposit) }

  function Withdrawn(c: Context, k: Key): Raw -> real {
    (raw: Raw) => var x := Update(c, k, raw, Withdraw); if x < 0.0 then -x else x
  }

  /** A token transfer of known units, in this asset. */
  predicate Counts(k: Key, network: string, t: TokenTransfer) {
    0 <= t.decimals && k == BalanceHistory.Key(network, if t.symbol.Some? then t.symbol.value else t.tokenAddress)
  }

  function ReceivedIn(c: Context, k: Key, network: string, ts: seq<TokenTransfer>): real {
    if ts == [] then 0.0
    else
      (if Counts(k, network, ts[0]) && c.Mine(ts[0].to) then ts[0].amount else 0.0)
      + ReceivedIn(c, k, network, ts[1..])
  }

  function SentIn(c: Context, k: Key, network: string, ts: seq<TokenTransfer>): real {
    if ts == [] then 0.0
    else
      (if Counts(k, network, ts[0]) && c.Mine(ts[0].from) then ts[0].amount else 0.0)
      + SentIn(c, k, network, ts[1..])
  }

  function Received(c: Context, k: Key): Raw -> real {
    (raw: Raw) => if OnHypercore(raw) then 0.0 else ReceivedIn(c, k, raw.origin.network, raw.transfers)
  }

  function Sent(c: Context, k: Key): Raw -> real {
    (raw: Raw) => if OnHypercore(raw) then 0.0 else SentIn(c, k, raw.origin.network, raw.transfers)
  }

  predicate Touches(c: Context, k: Key, network: string, d: NativeDelta) {
    c.Mine(d.account) && k == BalanceHistory.Key(network, d.token)
  }

  function MovedIn(c: Context, k: Key, network: string, ds: seq<NativeDelta>): real {
    if ds == [] then 0.0
    else (if Touches(c, k, network, ds[0]) then ds[0].delta else 0.0) + MovedIn(c, k, network, ds[1..])
  }

  /** The Solana fees that the deltas of fee payers contain: a lamport is 10^-9. */
  function FeesIn(c: Context, k: Key, network: string, ds: seq<NativeDelta>): real {
    if ds == [] then 0.0
    else
      var pays := Touches(c, k, network, ds[0]) && ds[0].isFeePayer && "solana" <= network;
      (if pays then ds[0].feeLamports as real / 1_000_000_000.0 else 0.0) + FeesIn(c, k, network, ds[1..])
  }

  /** The native balance change of the wallet's accounts, fees included. */
  function NativeMoved(c: Context, k: Key): Raw -> real {
    (raw: Raw) => if OnHypercore(raw) then 0.0 else MovedIn(c, k, raw.origin.network, raw.deltas)
  }

  function NativeFee(c: Context, k: Key): Raw -> real {
    (raw: Raw) => if OnHypercore(raw) then 0.0 else FeesIn(c, k, raw.origin.network, raw.deltas)
  }

  /** An EVM transaction that names its sender, with amounts that decode for this wallet. */
  predicate HasFlows(c: Context, k: Key, raw: Raw) {
    && raw.evm.Some? && raw.evm.value.from.Text? && EvmValue.FlowsDecode(raw.evm.value, c.wallet)
    && k == In(raw, if "hyperevm" <= raw.origin.network then "HYPE" else "ETH")
  }

  /** Value in less value out, in ether. */
  function ValueMoved(c: Context, k: Key): Raw -> real {
    (raw: Raw) =>
      if !HasFlows(c, k, raw) then 0.0
      else
        var tx := raw.evm.value;
        var wei := if tx.status == EvmValue.Text("0x0") then 0 else EvmValue.Number(tx.value);
        ((if EvmValue.Names(tx.to, c.wallet) then wei else 0) - (if EvmValue.Names(tx.from, c.wallet) then wei else 0))
        as real / 1_000_000_000_000_000_000.0
  }

  function Gas(c: Context, k: Key): Raw -> real {
    (raw: Raw) =>
      if !HasFlows(c, k, raw) || !EvmValue.Names(raw.evm.value.from, c.wallet) then 0.0
      else
        (EvmValue.Number(raw.evm.value.gasUsed) * EvmValue.Number(raw.evm.value.gasPrice)) as real
        / 1_000_000_000_000_000_000.0
  }

  // ---------------------------------------------------------------------------
  // The ledger rows of one raw row, part by part
  // ---------------------------------------------------------------------------

  function If(yes: bool, x: real): real { if yes then x else 0.0 }

  lemma {:induction false} IfAdd(yes: bool, x: real, y: real)
    ensures If(yes, x) + If(yes, y) == If(yes, x + y)
  {
  }

  lemma {:induction false} SumRow(k: Key, kinds: Kinds, id: LedgerId, key: Key, kind: RowKind, amount: real)
    ensures Sum(Amounts(k, kinds), NonZeroRow(id, key, kind, amount)) == If(k == key && kinds(kind), amount)
  {
    if amount != 0.0 { SumOne(Amounts(k, kinds), LedgerRow(id, key, kind, amount)); }
  }

  function Net(c: Context, k: Key, network: string, t: TokenTransfer): real {
    If(Counts(k, network, t) && c.Mine(t.to), t.amount) - If(Counts(k, network, t) && c.Mine(t.from), t.amount)
  }

  lemma {:induction false} NetHead(c: Context, k: Key, network: string, ts: seq<TokenTransfer>)
    requires ts != []
    ensures ReceivedIn(c, k, network, ts) - SentIn(c, k, network, ts) ==
            Net(c, k, network, ts[0]) + (ReceivedIn(c, k, network, ts[1..]) - SentIn(c, k, network, ts[1..]))
  {
  }

  lemma {:induction false} OneTransferSum(c: Context, k: Key, kinds: Kinds, origin: Origin, t: TokenTransfer)
    ensures Sum(Amounts(k, kinds), TransferRows(c)(t.(origin := origin))) ==
            If(kinds(TransferRow), Net(c, k, origin.network, t))
  {
    var rows := TransferRows(c)(t.(origin := origin));
    if rows != [] { SumOne(Amounts(k, kinds), rows[0]); }
  }

  function NetIf(c: Context, k: Key, kinds: Kinds, network: string): TokenTransfer -> real {
    (t: TokenTransfer) => If(kinds(TransferRow), Net(c, k, network, t))
  }

  lemma {:induction false} NetSum(c: Context, k: Key, kinds: Kinds, network: string, ts: seq<TokenTransfer>)
    ensures Sum(NetIf(c, k, kinds, network), ts) ==
            If(kinds(TransferRow), ReceivedIn(c, k, network, ts) - SentIn(c, k, network, ts))
  {
    if ts != [] {
      NetSum(c, k, kinds, network, ts[1..]);
      NetHead(c, k, network, ts);
    }
  }

  function StampedRows(c: Context, origin: Origin): TokenTransfer -> seq<LedgerRow> {
    (t: TokenTransfer) => TransferRows(c)(t.(origin := origin))
  }

  lemma {:induction false} TransferSum(c: Context, k: Key, kinds: Kinds, origin: Origin, ts: seq<TokenTransfer>)
    ensures Sum(Amounts(k, kinds), FlatMap(TransferRows(c), FlatMap(StampTransfer(origin), ts))) ==
            If(kinds(TransferRow), ReceivedIn(c, k, origin.network, ts) - SentIn(c, k, origin.network, ts))
  {
    forall t | t in ts ensures StampedRows(c, origin)(t) == FlatMap(TransferRows(c), StampTransfer(origin)(t)) {
      FlatMapOne(TransferRows(c), t.(origin := origin));
    }
    Nested(TransferRows(c), StampTransfer(origin), StampedRows(c, origin), ts);
    StampedSum(c, k, kinds, origin, ts);
  }

  lemma {:induction false} StampedSum(c: Context, k: Key, kinds: Kinds, origin: Origin, ts: seq<TokenTransfer>)
    ensures Sum(Amounts(k, kinds), FlatMap(StampedRows(c, origin), ts)) ==
            If(kinds(TransferRow), ReceivedIn(c, k, origin.network, ts) - SentIn(c, k, origin.network, ts))
  {
    var each, net := Each(Amounts(k, kinds), StampedRows(c, origin)), NetIf(c, k, kinds, origin.network);
    SumFlatMap(Amounts(k, kinds), StampedRows(c, origin), ts);
    forall t | t in ts ensures each(t) == net(t) { OneTransferSum(c, k, kinds, origin, t); }
    SumAgrees(each, net, ts);
    NetSum(c, k, kinds, origin.network, ts);
  }

  /** A balance change with the fee it contains: the value without the fee, and the fee. */
  function Natively(kinds: Kinds, moved: real, fee: real): real {
    If(kinds(TransferRow), moved + fee) + If(kinds(FeeRow), -fee)
  }

  lemma {:induction false} NativelyAdd(kinds: Kinds, moved: real, fee: real, more: real, fees: real)
    ensures Natively(kinds, moved, fee) + Natively(kinds, more, fees) == Natively(kinds, moved + more, fee + fees)
  {
  }

  lemma {:induction false} DeltaSum(c: Context, k: Key, kinds: Kinds, origin: Origin, ds: seq<NativeDelta>)
    requires !IsHyperliquid(origin.network)
    ensures Sum(Amounts(k, kinds), FlatMap(DeltaRows(c), FlatMap(StampDelta(origin), ds))) ==
            Natively(kinds, MovedIn(c, k, origin.network, ds), FeesIn(c, k, origin.network, ds))
  {
    if ds != [] {
      var d := ds[0].(origin := origin);
      DeltaSum(c, k, kinds, origin, ds[1..]);
      NestedHead(Amounts(k, kinds), DeltaRows(c), StampDelta(origin), ds);
      FlatMapOne(DeltaRows(c), d);
      OneDeltaSum(c, k, kinds, d);
      var touches := Touches(c, k, origin.network, d);
      NativelyAdd(kinds, If(touches, d.delta), If(touches, SolanaFee(d)), MovedIn(c, k, origin.network, ds[1..]),
                  FeesIn(c, k, origin.network, ds[1..]));
    }
  }

  lemma {:induction false} OneDeltaSum(c: Context, k: Key, kinds: Kinds, d: NativeDelta)
    requires !IsHyperliquid(d.origin.network)
    ensures var touches := Touches(c, k, d.origin.network, d);
            Sum(Amounts(k, kinds), DeltaRows(c)(d)) ==
            Natively(kinds, If(touches, d.delta), If(touches, SolanaFee(d)))
  {
    var key, raw := KeyIn(d.origin, d.token), d.origin.raw;
    SumRow(k, kinds, NativeId(raw, d.account, TransferRow), key, TransferRow, d.delta + SolanaFee(d));
    SumRow(k, kinds, NativeId(raw, d.account, FeeRow), key, FeeRow, -SolanaFee(d));
    SumConcat(Amounts(k, kinds), NativeRow(d, TransferRow, d.delta + SolanaFee(d)),
              NativeRow(d, FeeRow, -SolanaFee(d)));
  }

  lemma {:induction false} TransferPart(c: Context, k: Key, kinds: Kinds, raw: Raw)
    requires !c.Mine("external")
    ensures Sum(Amounts(k, kinds), FlatMap(TransferRows(c), TransfersOf(c)(raw))) ==
            If(kinds(TransferRow), Received(c, k)(raw) - Sent(c, k)(raw) + Deposited(c, k)(raw) - Withdrawn(c, k)(raw))
  {
    if !OnHypercore(raw) {
      TransferSum(c, k, kinds, raw.origin, raw.transfers);
    } else if raw.payload.LedgerPayload? && raw.payload.update.Some? {
      UpdateSum(c, k, kinds, raw.origin, raw.payload.update.value);
      UpdateIs(c, k, raw);
    }
  }

  lemma {:induction false} UpdateIs(c: Context, k: Key, raw: Raw)
    requires OnHypercore(raw) && raw.payload.LedgerPayload? && raw.payload.update.Some?
    ensures var u := raw.payload.update.value;
            var amount := Read(c.parse, if u.usdc.Some? then u.usdc else Some("0"));
            && TransfersOf(c)(raw) == HlTransfer(c, raw.origin, u)
            && Deposited(c, k)(raw) == If(k == KeyIn(raw.origin, "USDC") && u.kind == Deposit, amount)
            && Withdrawn(c, k)(raw) == If(k == KeyIn(raw.origin, "USDC") && u.kind == Withdraw, Abs(amount))
  {
  }

  lemma {:induction false} UpdateSum(c: Context, k: Key, kinds: Kinds, origin: Origin, u: LedgerData)
    requires !c.Mine("external")
    ensures var amount := Read(c.parse, if u.usdc.Some? then u.usdc else Some("0"));
            Sum(Amounts(k, kinds), FlatMap(TransferRows(c), HlTransfer(c, origin, u))) ==
            If(k == KeyIn(origin, "USDC") && kinds(TransferRow),
               match u.kind
               case Deposit => amount
               case Withdraw => if amount < 0.0 then amount else -amount
               case _ => 0.0)
  {
    var ts := HlTransfer(c, origin, u);
    if ts != [] {
      assert ts == [ts[0]] && c.Mine(c.wallet);
      FlatMapOne(TransferRows(c), ts[0]);
      var row := TransferRows(c)(ts[0])[0];
      assert TransferRows(c)(ts[0]) == [row];
      SumOne(Amounts(k, kinds), row);
    }
  }

  lemma {:induction false} NoDeltaRows(c: Context, deltas: seq<NativeDelta>, network: string)
    requires IsHyperliquid(network) && forall d | d in deltas :: d.origin.network == network
    ensures FlatMap(DeltaRows(c), deltas) == []
  {
    if deltas != [] { NoDeltaRows(c, deltas[1..], network); }
  }

  lemma {:induction false} NativePart(c: Context, k: Key, kinds: Kinds, raw: Raw)
    ensures Sum(Amounts(k, kinds), FlatMap(DeltaRows(c), DeltasOf(c)(raw))) ==
            If(kinds(TransferRow), NativeMoved(c, k)(raw) + NativeFee(c, k)(raw))
            + If(kinds(FeeRow), -NativeFee(c, k)(raw))
  {
    if OnHypercore(raw) {
      DeltasOfNetwork(c, raw);
      NoDeltaRows(c, DeltasOf(c)(raw), raw.origin.network);
    } else {
      DeltaSum(c, k, kinds, raw.origin, raw.deltas);
    }
  }

  lemma {:induction false} FillsAre(c: Context, raw: Raw)
    ensures FillsOf(c)(raw) == if HasFill(c.parse, raw)
                               then [NetworkFill(raw.origin, ExtractFill(c.parse, raw.payload.fill.value)[0])] else []
  {
    if HasFill(c.parse, raw) { FlatMapOne(WithNetworkFill(raw.origin), ExtractFills(c.parse, raw.payload)[0]); }
  }

  lemma {:induction false} FillPart(c: Context, k: Key, kinds: Kinds, raw: Raw)
    ensures Sum(Amounts(k, kinds), FlatMap(PositionRow, FillsOf(c)(raw))) == If(kinds(TradeRow), Bought(c, k)(raw))
    ensures Sum(Amounts(k, kinds), FlatMap(SettlementRows, FillsOf(c)(raw))) ==
            If(kinds(FeeRow), -FillFee(c, k)(raw)) + If(kinds(IncomeRow), ClosedPnl(c, k)(raw))
  {
    FillsAre(c, raw);
    if HasFill(c.parse, raw) {
      var f := FillsOf(c)(raw)[0];
      FlatMapOne(PositionRow, f);
      FlatMapOne(SettlementRows, f);
      SumOne(Amounts(k, kinds), PositionRow(f)[0]);
      SettlementSum(k, kinds, f);
    }
  }

  /** A provider number as the tables hold it: i64, saturated. */
  function Stored64(x: nat): int { if x < 0x8000_0000_0000_0000 then x else 0x7fff_ffff_ffff_ffff }

  /** Hyperliquid rows are named by raw row, coin and trade number, or by the time of the payment. */
  lemma {:induction false} RowsAreNamed(c: Context, raw: Raw, r: LedgerRow)
    requires OnHypercore(raw)
    ensures r in FlatMap(PositionRow, FillsOf(c)(raw)) + FlatMap(SettlementRows, FillsOf(c)(raw)) ==>
              && HasFill(c.parse, raw)
              && var fill := raw.payload.fill.value;
                 var trade := if fill.tid.Some? then Stored64(fill.tid.value) else 0;
                 r.id == if r.kind == TradeRow then PositionId(raw.origin.raw, fill.coin, trade)
                         else SettlementId(raw.origin.raw, fill.coin, trade, r.kind)
    ensures r in FlatMap(FundingRows, FundingOf(c)(raw)) ==>
              && raw.payload.FundingPayload? && raw.payload.funding.Some?
              && var funding := raw.payload.funding.value;
                 r.id == FundingId(raw.origin.raw, funding.coin, Stored64(funding.time))
  {
    FillsAre(c, raw);
    if HasFill(c.parse, raw) {
      FlatMapOne(PositionRow, FillsOf(c)(raw)[0]);
      FlatMapOne(SettlementRows, FillsOf(c)(raw)[0]);
    }
    var payments := ExtractFunding(c.parse, raw.payload);
    if payments != [] {
      FlatMapOne(WithNetworkFunding(raw.origin), payments[0]);
      FlatMapOne(FundingRows, NetworkFunding(raw.origin, payments[0]));
    }
  }

  lemma {:induction false} SettlementSum(k: Key, kinds: Kinds, f: NetworkFill)
    ensures Sum(Amounts(k, kinds), SettlementRows(f)) ==
            If(k == KeyIn(f.origin, FeeAsset(f.fill.feeToken)) && kinds(FeeRow), -OrNone(f.fill.fee))
            + If(k == KeyIn(f.origin, "USDC") && kinds(IncomeRow), OrNone(f.fill.closedPnl))
  {
    var raw, coin, trade := f.origin.raw, f.fill.coin, TradeNumber(f.fill);
    SumConcat(Amounts(k, kinds), OptionalRow(f, FeeAsset(f.fill.feeToken), FeeRow, Negated(f.fill.fee)),
              OptionalRow(f, "USDC", IncomeRow, f.fill.closedPnl));
    SumRow(k, kinds, SettlementId(raw, coin, trade, FeeRow), KeyIn(f.origin, FeeAsset(f.fill.feeToken)), FeeRow,
           -OrNone(f.fill.fee));
    SumRow(k, kinds, SettlementId(raw, coin, trade, IncomeRow), KeyIn(f.origin, "USDC"), IncomeRow,
           OrNone(f.fill.closedPnl));
  }

  lemma {:induction false} FundingPart(c: Context, k: Key, kinds: Kinds, raw: Raw)
    ensures Sum(Amounts(k, kinds), FlatMap(FundingRows, FundingOf(c)(raw))) ==
            If(kinds(FundingRow), Funded(c, k)(raw))
  {
    var payments := ExtractFunding(c.parse, raw.payload);
    if OnHypercore(raw) && payments != [] {
      FlatMapOne(WithNetworkFunding(raw.origin), payments[0]);
      var p := NetworkFunding(raw.origin, payments[0]);
      assert FundingOf(c)(raw) == [p];
      FlatMapOne(FundingRows, p);
      SumOne(Amounts(k, kinds), FundingRows(p)[0]);
    }
  }

  lemma {:induction false} FlowRowsSum(k: Key, kinds: Kinds, raw: nat, key: Key, kind: EvmValue.FlowKind, amount: real)
    ensures Sum(Amounts(k, kinds), FlatMap(FlowRow(raw, key), EvmValue.NonZero(kind, amount))) ==
            If(k == key && kinds(KindOf(EvmValue.Flow(kind, amount))), amount)
  {
    if amount != 0.0 {
      FlatMapOne(FlowRow(raw, key), EvmValue.Flow(kind, amount));
      SumOne(Amounts(k, kinds), FlowRow(raw, key)(EvmValue.Flow(kind, amount))[0]);
    }
  }

  lemma {:induction false} FlowPart(c: Context, k: Key, kinds: Kinds, raw: Raw)
    ensures Sum(Amounts(k, kinds), FlowRows(c)(raw)) ==
            If(kinds(TransferRow), ValueMoved(c, k)(raw)) + If(kinds(FeeRow), -Gas(c, k)(raw))
  {
    if raw.evm.Some? && raw.evm.value.from.Text? && EvmValue.FlowsDecode(raw.evm.value, c.wallet) {
      var tx, id, key := raw.evm.value, raw.origin.raw, NativeKey(raw);
      var transfer, fee := EvmValue.TransferPart(tx, c.wallet), EvmValue.FeePart(tx, c.wallet);
      FlatMapConcat(FlowRow(id, key), transfer, fee);
      SumConcat(Amounts(k, kinds), FlatMap(FlowRow(id, key), transfer), FlatMap(FlowRow(id, key), fee));
      FlowRowsSum(k, kinds, id, key, EvmValue.TransferFlow,
                  EvmValue.Signed(EvmValue.Names(tx.from, c.wallet), EvmValue.Value(tx)));
      FlowRowsSum(k, kinds, id, key, EvmValue.FeeFlow, -EvmValue.GasFee(tx));
      FlowIs(c, k, raw);
    }
  }

  lemma {:induction false} FlowIs(c: Context, k: Key, raw: Raw)
    requires raw.evm.Some? && raw.evm.value.from.Text? && EvmValue.FlowsDecode(raw.evm.value, c.wallet)
    ensures var tx := raw.evm.value;
            var out := EvmValue.Names(tx.from, c.wallet);
            && ValueMoved(c, k)(raw) == If(k == NativeKey(raw) && out != EvmValue.Names(tx.to, c.wallet),
                                           EvmValue.Signed(out, EvmValue.Value(tx)))
            && Gas(c, k)(raw) == If(k == NativeKey(raw) && out, EvmValue.GasFee(tx))
  {
  }

  // ---------------------------------------------------------------------------
  // The ledger of a batch
  // ---------------------------------------------------------------------------

  /** What the transfer rows of a batch must add up to; balance changes stand without the fees they contain. */
  function Transferred(c: Context, k: Key, raws: seq<Raw>): real {
    Sum(Received(c, k), raws) - Sum(Sent(c, k), raws)
    + Sum(Deposited(c, k), raws) - Sum(Withdrawn(c, k), raws)
    + Sum(NativeMoved(c, k), raws) + Sum(NativeFee(c, k), raws) + Sum(ValueMoved(c, k), raws)
  }

  function FeesCharged(c: Context, k: Key, raws: seq<Raw>): real {
    Sum(NativeFee(c, k), raws) + Sum(FillFee(c, k), raws) + Sum(Gas(c, k), raws)
  }

  /** The ledger by kind of row: whatever kinds are asked for. */
  function Expected(c: Context, k: Key, kinds: Kinds, raws: seq<Raw>): real {
    If(kinds(TransferRow), Transferred(c, k, raws))
    + If(kinds(FeeRow), -FeesCharged(c, k, raws))
    + If(kinds(TradeRow), Sum(Bought(c, k), raws))
    + If(kinds(IncomeRow), Sum(ClosedPnl(c, k), raws))
    + If(kinds(FundingRow), Sum(Funded(c, k), raws))
  }

  lemma {:induction false} OneRaw(c: Context, k: Key, kinds: Kinds, raw: Raw)
    requires !c.Mine("external")
    ensures Sum(Amounts(k, kinds), LedgerOf(c, [raw])) == Expected(c, k, kinds, [raw])
  {
    LedgerParts(Amounts(k, kinds), c, [raw]);
    FlatMapOne(TransfersOf(c), raw);
    FlatMapOne(DeltasOf(c), raw);
    FlatMapOne(FillsOf(c), raw);
    FlatMapOne(FundingOf(c), raw);
    FlatMapOne(FlowRows(c), raw);
    TransferPart(c, k, kinds, raw);
    NativePart(c, k, kinds, raw);
    FillPart(c, k, kinds, raw);
    FundingPart(c, k, kinds, raw);
    FlowPart(c, k, kinds, raw);
    SumsOfOne(c, k, raw);
  }

  lemma {:induction false} SumsOfOne(c: Context, k: Key, raw: Raw)
    ensures Transferred(c, k, [raw]) ==
            Received(c, k)(raw) - Sent(c, k)(raw) + Deposited(c, k)(raw) - Withdrawn(c, k)(raw)
            + NativeMoved(c, k)(raw) + NativeFee(c, k)(raw) + ValueMoved(c, k)(raw)
    ensures FeesCharged(c, k, [raw]) == NativeFee(c, k)(raw) + FillFee(c, k)(raw) + Gas(c, k)(raw)
    ensures Sum(Bought(c, k), [raw]) == Bought(c, k)(raw) && Sum(ClosedPnl(c, k), [raw]) == ClosedPnl(c, k)(raw)
    ensures Sum(Funded(c, k), [raw]) == Funded(c, k)(raw)
  {
    SumOne(Received(c, k), raw);
    SumOne(Sent(c, k), raw);
    SumOne(Deposited(c, k), raw);
    SumOne(Withdrawn(c, k), raw);
    SumOne(NativeMoved(c, k), raw);
    SumOne(NativeFee(c, k), raw);
    SumOne(ValueMoved(c, k), raw);
    SumOne(FillFee(c, k), raw);
    SumOne(Gas(c, k), raw);
    SumOne(Bought(c, k), raw);
    SumOne(ClosedPnl(c, k), raw);
    SumOne(Funded(c, k), raw);
  }

  lemma {:induction false} ExpectedSplit(c: Context, k: Key, kinds: Kinds, a: seq<Raw>, b: seq<Raw>)
    ensures Expected(c, k, kinds, a + b) == Expected(c, k, kinds, a) + Expected(c, k, kinds, b)
  {
    SumConcat(Received(c, k), a, b);
    SumConcat(Sent(c, k), a, b);
    SumConcat(Deposited(c, k), a, b);
    SumConcat(Withdrawn(c, k), a, b);
    SumConcat(NativeMoved(c, k), a, b);
    SumConcat(NativeFee(c, k), a, b);
    SumConcat(ValueMoved(c, k), a, b);
    SumConcat(FillFee(c, k), a, b);
    SumConcat(Gas(c, k), a, b);
    SumConcat(Bought(c, k), a, b);
    SumConcat(ClosedPnl(c, k), a, b);
    SumConcat(Funded(c, k), a, b);
  }

  /**
   The ledger of any batch, by kind of row and for every network and asset, read off the payloads. The
   wallet must not be spelled like the outside party of deposits and withdrawals.
   */
  lemma {:induction false} LedgerIsPayloads(c: Context, k: Key, kinds: Kinds, raws: seq<Raw>)
    requires !c.Mine("external")
    ensures Sum(Amounts(k, kinds), LedgerOf(c, raws)) == Expected(c, k, kinds, raws)
  {
    if raws == [] {
      NoLedger(Amounts(k, kinds), c);
    } else {
      var first, rest := [raws[0]], raws[1..];
      assert raws == first + rest;
      LedgerSplit(Amounts(k, kinds), c, raws, first, rest);
      OneRaw(c, k, kinds, raws[0]);
      LedgerIsPayloads(c, k, kinds, rest);
      ExpectedSplit(c, k, kinds, first, rest);
    }
  }

  // ---------------------------------------------------------------------------
  // Ledger and balance events of a validated batch
  // ---------------------------------------------------------------------------

  function Cash(kind: RowKind): bool { kind != TradeRow }

  /** What a batch moves: transfers, deposits, native balances, value, realized PnL and funding, less fees. */
  function Gained(c: Context, k: Key, raws: seq<Raw>): real {
    Sum(Received(c, k), raws) - Sum(Sent(c, k), raws)
    + Sum(Deposited(c, k), raws) - Sum(Withdrawn(c, k), raws)
    + Sum(ClosedPnl(c, k), raws) - Sum(FillFee(c, k), raws) + Sum(Funded(c, k), raws)
    + Sum(NativeMoved(c, k), raws) + Sum(ValueMoved(c, k), raws) - Sum(Gas(c, k), raws)
  }

  /**
   Over any batch of validated rows the ledger books, and the balance events move, what the payloads say:
   received less sent, deposits less withdrawals, closed PnL less fees, funding, and native balances.
   */
  lemma {:induction false} BookedIsGained(c: Context, k: Key, raws: seq<Raw>)
    requires !c.Mine("external") && forall raw | raw in raws :: Reconcilable(c.parse, raw)
    ensures Sum(Booked(k), LedgerOf(c, raws)) == Gained(c, k, raws)
    ensures Sum(Moved(k), EventsOf(c, raws)) == Gained(c, k, raws)
  {
    LedgerIsPayloads(c, k, Cash, raws);
    CashIsBooked(k, LedgerOf(c, raws));
    CashIsGained(c, k, raws);
    LedgerReconciles(c, raws, k);
  }

  lemma {:induction false} CashIsBooked(k: Key, rows: seq<LedgerRow>)
    ensures Sum(Booked(k), rows) == Sum(Amounts(k, Cash), rows)
  {
    SumAgrees(Booked(k), Amounts(k, Cash), rows);
  }

  lemma {:induction false} CashIsGained(c: Context, k: Key, raws: seq<Raw>)
    ensures Expected(c, k, Cash, raws) == Gained(c, k, raws)
  {
  }

  /** For Hyperliquid rows alone, that is deposits, withdrawals, PnL, fees and funding, all in USDC. */
  lemma {:induction false} UsdcIsGained(c: Context, network: string, raws: seq<Raw>)
    requires !c.Mine("external") && IsHyperliquid(network)
    requires forall raw | raw in raws :: Reconcilable(c.parse, raw) && raw.origin.network == network && raw.evm.None?
    ensures var k := BalanceHistory.Key(network, "USDC");
            var cash := Sum(Deposited(c, k), raws) - Sum(Withdrawn(c, k), raws)
                        + Sum(ClosedPnl(c, k), raws) - Sum(FillFee(c, k), raws) + Sum(Funded(c, k), raws);
            Sum(Booked(k), LedgerOf(c, raws)) == cash && Sum(Moved(k), EventsOf(c, raws)) == cash
  {
    var k := BalanceHistory.Key(network, "USDC");
    BookedIsGained(c, k, raws);
    SumOfNothing(Received(c, k), raws);
    SumOfNothing(Sent(c, k), raws);
    SumOfNothing(NativeMoved(c, k), raws);
    SumOfNothing(ValueMoved(c, k), raws);
    SumOfNothing(Gas(c, k), raws);
  }

  // ---------------------------------------------------------------------------
  // The direct parser books the same cash
  // ---------------------------------------------------------------------------

  function EntryCash(asset: string): Entry -> real {
    (e: Entry) => if e.asset == asset && e.entryType != Trade then e.amount else 0.0
  }

  function LineCash(asset: string): Line -> real {
    (l: Line) => if l.asset == asset && l.entryType != Trade then l.amount else 0.0
  }

  lemma {:induction false} NumberedCash(tx: Tx, offset: nat, asset: string, lines: seq<Line>)
    ensures Sum(EntryCash(asset), Numbered(tx, offset, lines)) == Sum(LineCash(asset), lines)
    decreases |lines|
  {
    if lines != [] {
      assert Numbered(tx, offset, lines)[1..] == Numbered(tx, offset + 1, lines[1..]);
      NumberedCash(tx, offset + 1, asset, lines[1..]);
    }
  }

  lemma {:induction false} OptionalCash(asset: string, kind: EntryType, of: string, amount: Option<real>)
    requires kind != Trade
    ensures Sum(LineCash(asset), HlLedger.Optional(kind, of, amount)) == If(asset == of, OrNone(amount))
  {
    if amount.Some? && amount.value != 0.0 { SumOne(LineCash(asset), Line(kind, of, amount.value, None)); }
  }

  lemma {:induction false} FillCash(asset: string, f: FillRecord)
    ensures Sum(LineCash(asset), FillLines(f)) ==
            If(asset == FeeAsset(f.feeToken), -OrNone(f.fee)) + If(asset == "USDC", OrNone(f.closedPnl))
  {
    var fee := HlLedger.Optional(Fee, FeeAsset(f.feeToken), Negated(f.fee));
    var pnl := HlLedger.Optional(Income, "USDC", f.closedPnl);
    SumConcat(LineCash(asset), [TradeLine(f)] + fee, pnl);
    SumConcat(LineCash(asset), [TradeLine(f)], fee);
    SumOne(LineCash(asset), TradeLine(f));
    OptionalCash(asset, Fee, FeeAsset(f.feeToken), Negated(f.fee));
    OptionalCash(asset, Income, "USDC", f.closedPnl);
  }

  lemma {:induction false} SilverCash(c: Context, tx: Tx, raw: Raw, asset: string)
    requires OnHypercore(raw)
    ensures var k := In(raw, asset);
            Sum(EntryCash(asset), SilverRoute(c.parse, tx, raw.payload)) ==
            ClosedPnl(c, k)(raw) - FillFee(c, k)(raw) + Funded(c, k)(raw)
  {
    var fills, payments := ExtractFills(c.parse, raw.payload), ExtractFunding(c.parse, raw.payload);
    NumberedCash(tx, 0, asset, AllFillLines(fills) + AllFundingLines(payments));
    SumConcat(LineCash(asset), AllFillLines(fills), AllFundingLines(payments));
    FillsCash(c, raw, asset);
    PaymentsCash(c, raw, asset);
  }

  lemma {:induction false} FillsCash(c: Context, raw: Raw, asset: string)
    requires OnHypercore(raw)
    ensures var k := In(raw, asset);
            Sum(LineCash(asset), AllFillLines(ExtractFills(c.parse, raw.payload))) ==
            ClosedPnl(c, k)(raw) - FillFee(c, k)(raw)
  {
    if ExtractFills(c.parse, raw.payload) != [] {
      OneFill(c.parse, raw.payload.fill.value);
      FillCash(asset, ExtractFills(c.parse, raw.payload)[0]);
    }
  }

  lemma {:induction false} PaymentsCash(c: Context, raw: Raw, asset: string)
    requires OnHypercore(raw)
    ensures Sum(LineCash(asset), AllFundingLines(ExtractFunding(c.parse, raw.payload))) ==
            Funded(c, In(raw, asset))(raw)
  {
    var payments := ExtractFunding(c.parse, raw.payload);
    if payments != [] {
      assert payments[..0] == [] && AllFundingLines([]) == [];
      assert AllFundingLines(payments) == [FundingLine(payments[0])];
      SumOne(LineCash(asset), FundingLine(payments[0]));
    }
  }

  /**
   For every Hyperliquid payload that decodes, malformed amounts, foreign fees and deposits included, the
   entries of the direct parser and the rows of the Gold ledger book the same cash under every asset.
   */
  lemma {:induction false} DirectIsBooked(c: Context, tx: Tx, raw: Raw, asset: string)
    requires OnHypercore(raw) && raw.evm.None? && !Undecodable(raw.payload) && !c.Mine("external")
    ensures Sum(EntryCash(asset), DirectEntries(c.parse, tx, raw.payload)) ==
            Sum(Booked(In(raw, asset)), LedgerOf(c, [raw]))
  {
    RawCash(c, In(raw, asset), raw);
    if raw.payload.LedgerPayload? { UpdateCash(c, tx, raw, asset); } else { SilverCash(c, tx, raw, asset); }
  }

  lemma {:induction false} RawCash(c: Context, k: Key, raw: Raw)
    requires OnHypercore(raw) && raw.evm.None? && !c.Mine("external")
    ensures Sum(Booked(k), LedgerOf(c, [raw])) ==
            Deposited(c, k)(raw) - Withdrawn(c, k)(raw)
            + ClosedPnl(c, k)(raw) - FillFee(c, k)(raw) + Funded(c, k)(raw)
  {
    OneRaw(c, k, Cash, raw);
    CashIsBooked(k, LedgerOf(c, [raw]));
    SumsOfOne(c, k, raw);
  }

  lemma {:induction false} UpdateCash(c: Context, tx: Tx, raw: Raw, asset: string)
    requires OnHypercore(raw) && raw.payload.LedgerPayload? && raw.payload.update.Some?
    ensures var k := In(raw, asset);
            Sum(EntryCash(asset), LedgerEntries(c.parse, tx, raw.payload.update.value)) ==
            Deposited(c, k)(raw) - Withdrawn(c, k)(raw)
  {
    var entries := LedgerEntries(c.parse, tx, raw.payload.update.value);
    if entries != [] {
      assert entries == [entries[0]];
      SumOne(EntryCash(asset), entries[0]);
    }
  }
}
