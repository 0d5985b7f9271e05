/** EVM amounts: exact uint256 hex decoding, import validation, and native value and gas flows. */
module EvmValue {
  import opened Common

  // ---------------------------------------------------------------------------
  // hex_to_bigdecimal
  // ---------------------------------------------------------------------------

  predicate IsHexDigit(c: char) { '0' <= c <= '9' || 'a' <= c <= 'f' || 'A' <= c <= 'F' }

  function DigitValue(c: char): nat
    requires IsHexDigit(c)
    ensures DigitValue(c) < 16
  {
    if '0' <= c <= '9' then (c - '0') as nat
    else if 'a' <= c <= 'f' then (c - 'a') as nat + 10
    else (c - 'A') as nat + 10
  }

  predicate AllHex(s: string) { forall c | c in s :: IsHexDigit(c) }

  function Pow16(n: nat): nat { if n == 0 then 1 else 16 * Pow16(n - 1) }

  /** The number a digit string denotes: every digit times its power of sixteen. */
  function HexValue(s: string): nat
    requires AllHex(s)
  {
    if s == [] then 0
    else
      assert AllHex(s[1..]);
      DigitValue(s[0]) * Pow16(|s| - 1) + HexValue(s[1..])
  }

  function StripPrefix(s: string): string { if "0x" <= s then s[2..] else s }

  lemma {:induction false} HexValueSnoc(s: string, c: char)
    requires AllHex(s) && IsHexDigit(c)
    ensures AllHex(s + [c]) && HexValue(s + [c]) == 16 * HexValue(s) + DigitValue(c)
  {
    if s == [] {
      assert s + [c] == [c];
      assert HexValue([c]) == DigitValue(c) * Pow16(0) + HexValue([c][1..]);
    } else {
      assert AllHex(s[1..]);
      HexValueSnoc(s[1..], c);
      assert (s + [c])[1..] == s[1..] + [c];
      assert AllHex(s + [c]);
      ScaleSum(DigitValue(s[0]), Pow16(|s| - 1), HexValue(s[1..]), DigitValue(c));
    }
  }

  lemma {:induction false} ScaleSum(d: nat, p: nat, v: nat, c: nat)
    ensures d * (16 * p) + (16 * v + c) == 16 * (d * p + v) + c
  {
  }

  lemma {:induction false} HexValueBound(s: string)
    requires AllHex(s)
    ensures HexValue(s) < Pow16(|s|)
  {
    if s != [] {
      assert AllHex(s[1..]);
      HexValueBound(s[1..]);
      ScaleUp(DigitValue(s[0]), 15, Pow16(|s| - 1));
    }
  }

  lemma {:induction false} ScaleUp(a: nat, b: nat, p: nat)
    requires a <= b
    ensures a * p <= b * p
  {
  }

  lemma {:induction false} Pow16Monotone(a: nat, b: nat)
    requires a <= b
    ensures Pow16(a) <= Pow16(b)
  {
    if a < b { Pow16Monotone(a, b - 1); }
  }

  predicate DecodesAsUint256(hex: string) { |StripPrefix(hex)| <= 64 && AllHex(StripPrefix(hex)) }

  /** Decodes exactly the strings of at most 64 hex digits, without truncation. */
  method HexToDecimal(hex: string) returns (r: Result<nat>)
    ensures r.Ok? <==> DecodesAsUint256(hex)
    ensures r.Ok? ==> r.value == HexValue(StripPrefix(hex)) && r.value < Pow16(64)
  {
    var stripped := StripPrefix(hex);
    if |stripped| > 64 { return Err("Hex amount exceeds uint256"); }
    var result := 0;
    for i := 0 to |stripped|
      invariant AllHex(stripped[..i]) && result == HexValue(stripped[..i])
    {
      if !IsHexDigit(stripped[i]) {
        assert stripped[i] in stripped;
        return Err("Invalid hex character");
      }
      HexValueSnoc(stripped[..i], stripped[i]);
      assert stripped[..i + 1] == stripped[..i] + [stripped[i]];
      result := result * 16 + DigitValue(stripped[i]);
    }
    assert stripped[..|stripped|] == stripped;
    HexValueBound(stripped);
    Pow16Monotone(|stripped|, 64);
    return Ok(result);
  }

  function DigitChar(d: nat): (c: char)
    requires d < 16
    ensures IsHexDigit(c) && DigitValue(c) == d
  {
    if d < 10 then '0' + d as char else 'a' + (d - 10) as char
  }

  /** `n` written with exactly `width` hex digits. */
  function ToHex(n: nat, width: nat): string {
    if width == 0 then [] else ToHex(n / 16, width - 1) + [DigitChar(n % 16)]
  }

  /** Decoding inverts encoding for every value that fits the width. */
  lemma {:induction false} HexRoundTrip(n: nat, width: nat)
    requires n < Pow16(width)
    ensures |ToHex(n, width)| == width && AllHex(ToHex(n, width)) && HexValue(ToHex(n, width)) == n
  {
    if width > 0 {
      assert n / 16 < Pow16(width - 1);
      HexRoundTrip(n / 16, width - 1);
      HexValueSnoc(ToHex(n / 16, width - 1), DigitChar(n % 16));
    }
  }

  /** Every uint256, written with its 0x prefix, decodes to itself. */
  lemma {:induction false} Uint256Decodes(n: nat, width: nat)
    requires n < Pow16(width) && width <= 64
    ensures DecodesAsUint256("0x" + ToHex(n, width)) && HexValue(StripPrefix("0x" + ToHex(n, width))) == n
  {
    HexRoundTrip(n, width);
    assert ("0x" + ToHex(n, width))[2..] == ToHex(n, width);
  }

  // ---------------------------------------------------------------------------
  // Payload fields and validation
  // ---------------------------------------------------------------------------

  /** A JSON member: missing, a string, or anything else. */
  datatype Field = Absent | Text(text: string) | NotText

  datatype Tx = Tx(from: Field, to: Field, value: Field, gasUsed: Field, gasPrice: Field, status: Field, data: Field,
                   isRpcLog: bool, hasLogs: bool)

  predicate HexText(f: Field) { f.Text? && "0x" <= f.text && AllHex(f.text[2..]) }

  predicate ValidAmount(f: Field) { f.Absent? || (HexText(f) && 2 < |f.text| <= 66) }

  /** validate_import_payload, EVM branch, on the fields that carry amounts. */
  predicate ValidPayload(tx: Tx) {
    && (tx.isRpcLog || (tx.from.Text? && tx.value.Text?) || tx.hasLogs)
    && ValidAmount(tx.value) && ValidAmount(tx.gasUsed) && ValidAmount(tx.gasPrice)
    && (tx.data.Absent? || HexText(tx.data))
  }

  // ---------------------------------------------------------------------------
  // native_flows
  // ---------------------------------------------------------------------------

  function LowerChar(c: char): char { if 'A' <= c <= 'Z' then c - 'A' + 'a' else c }

  function Lower(s: string): string { seq(|s|, i requires 0 <= i < |s| => LowerChar(s[i])) }

  /** The field names this wallet, ignoring ASCII case. */
  predicate Names(f: Field, wallet: string) { f.Text? && Lower(f.text) == Lower(wallet) }

  datatype FlowKind = TransferFlow | FeeFlow

  datatype Flow = Flow(kind: FlowKind, amount: real)

  function Upper(c: char): char { if 'a' <= c <= 'z' then c - 'a' + 'A' else c }

  /** Addresses are compared letter by letter, ignoring ASCII case and nothing else. */
  lemma {:induction false} NamesIff(f: Field, wallet: string)
    ensures Names(f, wallet) <==>
            f.Text? && |f.text| == |wallet| && forall i | 0 <= i < |wallet| :: Upper(f.text[i]) == Upper(wallet[i])
  {
    if f.Text? {
      if Lower(f.text) == Lower(wallet) {
        forall i | 0 <= i < |wallet| ensures Upper(f.text[i]) == Upper(wallet[i]) {
          assert Lower(f.text)[i] == Lower(wallet)[i];
        }
      } else if |f.text| == |wallet| {
        var i :| 0 <= i < |wallet| && Lower(f.text)[i] != Lower(wallet)[i];
        assert Upper(f.text[i]) != Upper(wallet[i]);
      }
    }
  }

  function WeiToEth(wei: nat): real { wei as real / 1_000_000_000_000_000_000.0 }

  predicate Decodes(f: Field) { f.Text? && DecodesAsUint256(f.text) }

  function Decoded(f: Field): nat
    requires Decodes(f)
  {
    HexValue(StripPrefix(f.text))
  }

  predicate MovesValue(tx: Tx, wallet: string) {
    Names(tx.from, wallet) != Names(tx.to, wallet) && tx.status != Text("0x0") && tx.value.Text?
  }

  predicate PaysGas(tx: Tx, wallet: string) { Names(tx.from, wallet) && tx.gasUsed.Text? && tx.gasPrice.Text? }

  /** The flows exist unless an amount that is needed for this wallet does not decode. */
  predicate FlowsDecode(tx: Tx, wallet: string) {
    && (MovesValue(tx, wallet) ==> Decodes(tx.value))
    && (PaysGas(tx, wallet) ==> Decodes(tx.gasUsed) && Decodes(tx.gasPrice))
  }

  /** The value a transaction moves: nothing when it failed or carries none. */
  function Value(tx: Tx): real {
    if tx.status != Text("0x0") && Decodes(tx.value) then WeiToEth(Decoded(tx.value)) else 0.0
  }

  function GasFee(tx: Tx): real {
    if Decodes(tx.gasUsed) && Decodes(tx.gasPrice) then WeiToEth(Decoded(tx.gasUsed) * Decoded(tx.gasPrice)) else 0.0
  }

  function Signed(negative: bool, amount: real): real { if negative then -amount else amount }

  function NonZero(kind: FlowKind, amount: real): seq<Flow> { if amount == 0.0 then [] else [Flow(kind, amount)] }

  function TransferPart(tx: Tx, wallet: string): seq<Flow> {
    if Names(tx.from, wallet) == Names(tx.to, wallet) then []
    else NonZero(TransferFlow, Signed(Names(tx.from, wallet), Value(tx)))
  }

  function FeePart(tx: Tx, wallet: string): seq<Flow> {
    if Names(tx.from, wallet) then NonZero(FeeFlow, -GasFee(tx)) else []
  }

  method DecodeText(f: Field) returns (r: Result<nat>)
    requires f.Text?
    ensures r.Ok? <==> Decodes(f)
    ensures r.Ok? ==> r.value == Decoded(f)
  {
    r := HexToDecimal(f.text);
  }

  method TransferFlows(tx: Tx, from: bool) returns (r: Result<seq<Flow>>)
    ensures r.Ok? <==> (tx.status != Text("0x0") && tx.value.Text? ==> Decodes(tx.value))
    ensures r.Ok? ==> r.value == NonZero(TransferFlow, Signed(from, Value(tx)))
  {
    if tx.status != Text("0x0") && tx.value.Text? {
      var wei := DecodeText(tx.value);
      if wei.Err? { return Err(wei.message); }
      var amount := WeiToEth(wei.value);
      if amount != 0.0 { return Ok([Flow(TransferFlow, if from then -amount else amount)]); }
    }
    return Ok([]);
  }

  method FeeFlows(tx: Tx) returns (r: Result<seq<Flow>>)
    ensures r.Ok? <==> (tx.gasUsed.Text? && tx.gasPrice.Text? ==> Decodes(tx.gasUsed) && Decodes(tx.gasPrice))
    ensures r.Ok? ==> r.value == NonZero(FeeFlow, -GasFee(tx))
  {
    if tx.gasUsed.Text? && tx.gasPrice.Text? {
      var gas := DecodeText(tx.gasUsed);
      if gas.Err? { return Err(gas.message); }
      var price := DecodeText(tx.gasPrice);
      if price.Err? { return Err(price.message); }
      var fee := WeiToEth(gas.value * price.value);
      if fee != 0.0 { return Ok([Flow(FeeFlow, -fee)]); }
    }
    return Ok([]);
  }

  /** The top-level value and gas flows of one wallet; zero amounts leave no flow. */
  method NativeFlows(tx: Tx, wallet: string) returns (r: Result<seq<Flow>>)
    ensures r.Ok? <==> FlowsDecode(tx, wallet)
    ensures r.Ok? ==> r.value == TransferPart(tx, wallet) + FeePart(tx, wallet)
    ensures Booked(tx, wallet) == if r.Ok? then r.value else []
    ensures r.Ok? ==> Sum(FlowAmount, r.value) * 1_000_000_000_000_000_000.0 == Wei(tx, wallet) as real
  {
    var from, to := Names(tx.from, wallet), Names(tx.to, wallet);
    var flows: seq<Flow> := [];
    if from != to {
      var transfer := TransferFlows(tx, from);
      if transfer.Err? { return Err(transfer.message); }
      flows := flows + transfer.value;
    }
    if from {
      var fee := FeeFlows(tx);
      if fee.Err? { return Err(fee.message); }
      flows := flows + fee.value;
    }
    FlowsInWei(tx, wallet);
    return Ok(flows);
  }

  function Number(f: Field): nat { if Decodes(f) then HexValue(StripPrefix(f.text)) else 0 }

  /** What a wallet gains in wei: the value of a transaction that did not fail, in or out, less the sender's gas. */
  function Wei(tx: Tx, wallet: string): int {
    var moved := if tx.status == Text("0x0") then 0 else Number(tx.value);
    var gas := if Decodes(tx.gasUsed) && Decodes(tx.gasPrice) then Number(tx.gasUsed) * Number(tx.gasPrice) else 0;
    (if Names(tx.to, wallet) then moved else 0) - (if Names(tx.from, wallet) then moved + gas else 0)
  }

  /** One ether is exactly 10^18 wei, in both directions. */
  lemma {:induction false} FlowsInWei(tx: Tx, wallet: string)
    ensures Sum(FlowAmount, TransferPart(tx, wallet) + FeePart(tx, wallet)) * 1_000_000_000_000_000_000.0 ==
            Wei(tx, wallet) as real
  {
    SumConcat(FlowAmount, TransferPart(tx, wallet), FeePart(tx, wallet));
    NonZeroInWei(TransferFlow, Signed(Names(tx.from, wallet), Value(tx)));
    NonZeroInWei(FeeFlow, -GasFee(tx));
    AmountsInWei(tx);
  }

  lemma {:induction false} NonZeroInWei(kind: FlowKind, amount: real)
    ensures Sum(FlowAmount, NonZero(kind, amount)) == amount
  {
    if amount != 0.0 {
      assert NonZero(kind, amount)[1..] == [];
    }
  }

  lemma {:induction false} AmountsInWei(tx: Tx)
    ensures Value(tx) * 1_000_000_000_000_000_000.0 ==
            (if tx.status == Text("0x0") then 0 else Number(tx.value)) as real
    ensures GasFee(tx) * 1_000_000_000_000_000_000.0 ==
            (if Decodes(tx.gasUsed) &&
             Decodes(tx.gasPrice) then Number(tx.gasUsed) * Number(tx.gasPrice) else 0) as real
  {
  }

  /** An amount passes validation exactly when it is absent, or a prefixed uint256 with at least one digit. */
  lemma {:induction false} ValidAmountIff(f: Field)
    ensures ValidAmount(f) <==> f.Absent? || (f.Text? && "0x" <= f.text && 2 < |f.text| && Decodes(f))
  {
  }

  /** A validated payload has flows for every wallet. */
  lemma {:induction false} ValidatedNeverFails(tx: Tx, wallet: string)
    requires ValidPayload(tx)
    ensures FlowsDecode(tx, wallet)
  {
  }

  function FlowAmount(f: Flow): real { f.amount }

  /** What is booked for a wallet: its flows, or nothing at all when they do not decode. */
  function Booked(tx: Tx, wallet: string): seq<Flow> {
    if FlowsDecode(tx, wallet) then TransferPart(tx, wallet) + FeePart(tx, wallet) else []
  }

  function Net(tx: Tx, wallet: string): real { Sum(FlowAmount, Booked(tx, wallet)) }

  /** The sender's flows exist: its gas and, unless it pays itself, its value decode. */
  predicate SenderDecodes(tx: Tx) { tx.from.Text? ==> FlowsDecode(tx, tx.from.text) }

  predicate ReceiverDecodes(tx: Tx) { tx.to.Text? ==> FlowsDecode(tx, tx.to.text) }

  lemma {:induction false} NamesAlike(f: Field, a: string, b: string)
    requires Names(f, a) && Names(f, b)
    ensures forall g: Field :: Names(g, a) <==> Names(g, b)
  {
  }

  lemma {:induction false} DecodesLikeParty(tx: Tx, wallet: string)
    ensures Names(tx.from, wallet) ==> (FlowsDecode(tx, wallet) <==> SenderDecodes(tx))
    ensures Names(tx.to, wallet) ==> (FlowsDecode(tx, wallet) <==> ReceiverDecodes(tx))
  {
    if Names(tx.from, wallet) { NamesAlike(tx.from, wallet, tx.from.text); }
    if Names(tx.to, wallet) { NamesAlike(tx.to, wallet, tx.to.text); }
  }

  function Sent(tx: Tx): real { if SenderDecodes(tx) then -GasFee(tx) - Value(tx) else 0.0 }

  function Received(tx: Tx): real { if ReceiverDecodes(tx) then Value(tx) else 0.0 }

  lemma {:induction false} NetIs(tx: Tx, wallet: string)
    ensures Net(tx, wallet) ==
            (if Names(tx.from, wallet) then Sent(tx) else 0.0) + (if Names(tx.to, wallet) then Received(tx) else 0.0)
  {
    SumConcat(FlowAmount, TransferPart(tx, wallet), FeePart(tx, wallet));
    DecodesLikeParty(tx, wallet);
  }

  function TotalNet(tx: Tx, wallets: seq<string>): real {
    if wallets == [] then 0.0 else Net(tx, wallets[0]) + TotalNet(tx, wallets[1..])
  }

  ghost predicate CaseDistinct(wallets: seq<string>) {
    forall i, j | 0 <= i < j < |wallets| :: Lower(wallets[i]) != Lower(wallets[j])
  }

  ghost predicate Includes(wallets: seq<string>, f: Field) { exists w | w in wallets :: Names(f, w) }

  lemma {:induction false} IncludesHead(wallets: seq<string>, f: Field)
    requires wallets != [] && CaseDistinct(wallets)
    ensures Includes(wallets, f) <==> Names(f, wallets[0]) || Includes(wallets[1..], f)
    ensures !(Names(f, wallets[0]) && Includes(wallets[1..], f))
  {
    assert wallets == [wallets[0]] + wallets[1..];
    if Includes(wallets[1..], f) {
      var j :| 0 <= j < |wallets[1..]| && Names(f, wallets[1..][j]);
      assert wallets[1..][j] == wallets[j + 1];
    }
  }

  /**
   Over any wallets that differ by more than case, what is booked in total depends only on whether
   sender and receiver are among them, and on whether their flows decode.
   */
  lemma {:induction false} FlowsConserve(tx: Tx, wallets: seq<string>)
    requires CaseDistinct(wallets)
    ensures TotalNet(tx, wallets) ==
            (if Includes(wallets, tx.from) then Sent(tx) else 0.0) +
              (if Includes(wallets, tx.to) then Received(tx) else 0.0)
  {
    if wallets != [] {
      NetIs(tx, wallets[0]);
      FlowsConserve(tx, wallets[1..]);
      IncludesHead(wallets, tx.from);
      IncludesHead(wallets, tx.to);
    }
  }

  predicate SelfSend(tx: Tx) { tx.from.Text? && tx.to.Text? && Lower(tx.from.text) == Lower(tx.to.text) }

  /**
   With sender and receiver among the wallets, only the gas fee leaves if and only if the sender's
   flows decode, or there was neither a fee nor value that reached somebody else.
   */
  lemma {:induction false} OnlyGasLeavesIff(tx: Tx, wallets: seq<string>)
    requires CaseDistinct(wallets) && Includes(wallets, tx.from) && Includes(wallets, tx.to)
    ensures TotalNet(tx, wallets) == -GasFee(tx) <==>
            SenderDecodes(tx) || (GasFee(tx) == 0.0 && (Value(tx) == 0.0 || SelfSend(tx)))
  {
    FlowsConserve(tx, wallets);
    SenderAndReceiver(tx);
  }

  /** How the sender's decoding and the receiver's depend on each other. */
  lemma {:induction false} SenderAndReceiver(tx: Tx)
    requires tx.from.Text? && tx.to.Text?
    ensures SelfSend(tx) ==> (SenderDecodes(tx) <==> ReceiverDecodes(tx))
    ensures SenderDecodes(tx) ==> ReceiverDecodes(tx)
    ensures !ReceiverDecodes(tx) && !SelfSend(tx) ==> Value(tx) == 0.0
  {
    if SelfSend(tx) { NamesAlike(tx.from, tx.from.text, tx.to.text); }
  }

  /** For validated payloads that is always so, also for failed and self sends. */
  lemma {:induction false} OnlyGasLeaves(tx: Tx, wallets: seq<string>)
    requires ValidPayload(tx)
    requires CaseDistinct(wallets) && Includes(wallets, tx.from) && Includes(wallets, tx.to)
    ensures TotalNet(tx, wallets) == -GasFee(tx)
  {
    if tx.from.Text? { ValidatedNeverFails(tx, tx.from.text); }
    OnlyGasLeavesIff(tx, wallets);
  }

  /** Without validation: gas that does not decode books nothing for the sender and still credits the receiver. */
  lemma {:induction false} UndecodableGasCredits()
    ensures var tx := Tx(Text("a"), Text("b"), Text("0x1"), Text("?"), Text("0x1"), Absent, Absent, false, false);
            TotalNet(tx, ["a", "b"]) == WeiToEth(1) && GasFee(tx) == 0.0
  {
    var tx := Tx(Text("a"), Text("b"), Text("0x1"), Text("?"), Text("0x1"), Absent, Absent, false, false);
    assert Lower("a") == "a" && Lower("b") == "b";
    assert StripPrefix("?") == "?" && '?' in "?" && !AllHex("?");
    assert StripPrefix("0x1") == "1";
    HexValueSnoc([], '1');
    assert [] + ['1'] == "1";
    assert ["a", "b"][0] == "a" && ["a", "b"][1] == "b";
    assert "a" in ["a", "b"] && "b" in ["a", "b"];
    FlowsConserve(tx, ["a", "b"]);
  }
}
