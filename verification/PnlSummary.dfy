/** Hyperliquid PnL summary: one row per coin, aggregated from fills and funding payments. */
module PnlSummary {
  import opened Common
  import TradeHistory

  type Fill = TradeHistory.Fill

  datatype Funding = Funding(coin: string, amount: real)

  datatype Agg = Agg(closed: real, fees: real, funding: real, fillCount: nat, wins: nat, losses: nat)

  datatype Row = Row(coin: string, closed: real, funding: real, fees: real, net: real, tradeCount: nat, fillCount: nat,
                     wins: nat, losses: nat)

  const EMPTY := Agg(0.0, 0.0, 0.0, 0, 0, 0)

  // ---------------------------------------------------------------------------
  // What a row means: totals over the coin's fills and payments
  // ---------------------------------------------------------------------------

  function In<T>(coinOf: T -> string, coin: string): T -> bool { (x: T) => coinOf(x) == coin }

  function FillCoin(f: Fill): string { f.coin }

  function PaidCoin(p: Funding): string { p.coin }

  predicate Won(f: Fill) { f.closedPnl.Some? && f.closedPnl.value > 0.0 }

  predicate Lost(f: Fill) { f.closedPnl.Some? && f.closedPnl.value < 0.0 }

  function PnlOf(f: Fill): real { TradeHistory.PnlOf(f) }

  function FeeOf(f: Fill): real { TradeHistory.FeeOf(f) }

  function AmountOf(p: Funding): real { p.amount }

  function FillTotals(mine: seq<Fill>, funding: real): Agg {
    Agg(Sum(PnlOf, mine), Sum(FeeOf, mine), funding, |mine|, |Filter(Won, mine)|, |Filter(Lost, mine)|)
  }

  function Totals(fills: seq<Fill>, funding: seq<Funding>, coin: string): Agg {
    FillTotals(Filter(In(FillCoin, coin), fills), Sum(AmountOf, Filter(In(PaidCoin, coin), funding)))
  }

  function RowOf(coin: string, a: Agg): Row {
    Row(coin, a.closed, a.funding, a.fees, a.closed + a.funding - a.fees, a.wins + a.losses, a.fillCount, a.wins,
        a.losses)
  }

  function Coins(fills: seq<Fill>, funding: seq<Funding>): set<string> {
    (set f | f in fills :: f.coin) + (set p | p in funding :: p.coin)
  }

  // ---------------------------------------------------------------------------
  // The order of coin names
  // ---------------------------------------------------------------------------

  predicate Before(a: string, b: string) {
    b != [] && (a == [] || a[0] < b[0] || (a[0] == b[0] && Before(a[1..], b[1..])))
  }

  /** Where two names part: one ends there, or has the smaller character. */
  ghost predicate PartsAt(a: string, b: string, k: nat) {
    && k <= |a| && k < |b| && a[..k] == b[..k]
    && (k == |a| || a[k] < b[k])
  }

  /** The order is the lexicographic one. */
  lemma {:induction false} BeforeIff(a: string, b: string)
    ensures Before(a, b) <==> exists k: nat :: PartsAt(a, b, k)
  {
    if a == [] || b == [] || a[0] != b[0] {
      if b != [] && (a == [] || a[0] < b[0]) { assert PartsAt(a, b, 0); }
      forall k: nat | PartsAt(a, b, k) ensures k == 0 { PartsAlike(a, b, k); }
    } else {
      BeforeIff(a[1..], b[1..]);
      if k: nat :| PartsAt(a[1..], b[1..], k) { PartsOn(a, b, k); }
      if k: nat :| PartsAt(a, b, k) {
        assert k != 0;
        PartsOn(a, b, k - 1);
      }
    }
  }

  lemma {:induction false} PartsAlike(a: string, b: string, k: nat)
    requires PartsAt(a, b, k)
    ensures 0 < k ==> a != [] && b != [] && a[0] == b[0]
  {
    if 0 < k { assert a[..k][0] == b[..k][0]; }
  }

  lemma {:induction false} PartsOn(a: string, b: string, k: nat)
    requires a != [] && b != [] && a[0] == b[0]
    ensures PartsAt(a, b, k + 1) <==> PartsAt(a[1..], b[1..], k)
  {
    if k < |a| && k < |b| {
      assert a[..k + 1] == [a[0]] + a[1..][..k] && b[..k + 1] == [b[0]] + b[1..][..k];
      assert a[1..][..k] == a[..k + 1][1..] && b[1..][..k] == b[..k + 1][1..];
    }
  }

  lemma {:induction false} BeforeIsTotal(a: string, b: string)
    ensures a == b || Before(a, b) || Before(b, a)
  {
    if a != [] && b != [] && a[0] == b[0] {
      BeforeIsTotal(a[1..], b[1..]);
      assert a == [a[0]] + a[1..] && b == [b[0]] + b[1..];
    }
  }

  lemma {:induction false} BeforeIsIrreflexive(a: string)
    ensures !Before(a, a)
  {
    if a != [] { BeforeIsIrreflexive(a[1..]); }
  }

  lemma {:induction false} BeforeIsTransitive(a: string, b: string, c: string)
    requires Before(a, b) && Before(b, c)
    ensures Before(a, c)
  {
    if a != [] && a[0] == b[0] && b[0] == c[0] { BeforeIsTransitive(a[1..], b[1..], c[1..]); }
  }

  ghost predicate Ordered(rows: seq<Row>) {
    forall i, j | 0 <= i < j < |rows| :: Before(rows[i].coin, rows[j].coin)
  }

  function InsertRow(r: Row, rows: seq<Row>): seq<Row> {
    if rows == [] || Before(r.coin, rows[0].coin) then [r] + rows else [rows[0]] + InsertRow(r, rows[1..])
  }

  lemma {:induction false} InsertKeepsOrder(r: Row, rows: seq<Row>)
    requires Ordered(rows) && forall x | x in rows :: x.coin != r.coin
    ensures Ordered(InsertRow(r, rows))
    ensures forall x :: x in InsertRow(r, rows) <==> x == r || x in rows
  {
    if rows == [] {
    } else if Before(r.coin, rows[0].coin) {
      forall j | 0 < j < |rows| ensures Before(r.coin, rows[j].coin) {
        BeforeIsTransitive(r.coin, rows[0].coin, rows[j].coin);
      }
    } else {
      var rest := InsertRow(r, rows[1..]);
      InsertKeepsOrder(r, rows[1..]);
      assert rows[0] in rows && rows == [rows[0]] + rows[1..];
      BeforeIsTotal(r.coin, rows[0].coin);
      forall j | 0 <= j < |rest| ensures Before(rows[0].coin, rest[j].coin) {
        assert rest[j] == r || rest[j] in rows[1..];
      }
    }
  }

  // ---------------------------------------------------------------------------
  // The summary, stated without the loops
  // ---------------------------------------------------------------------------

  ghost predicate RowsMean(rows: seq<Row>, fills: seq<Fill>, funding: seq<Funding>) {
    forall r | r in rows :: r == RowOf(r.coin, Totals(fills, funding, r.coin))
  }

  ghost predicate RowsCover(rows: seq<Row>, coins: set<string>) {
    && (forall r | r in rows :: r.coin in coins)
    && (forall c | c in coins :: exists r | r in rows :: r.coin == c)
  }

  /** One row per coin, strictly ordered by coin, each holding its coin's totals. */
  ghost predicate IsSummary(rows: seq<Row>, fills: seq<Fill>, funding: seq<Funding>) {
    Ordered(rows) && RowsMean(rows, fills, funding) && RowsCover(rows, Coins(fills, funding))
  }

  // ---------------------------------------------------------------------------
  // The loops
  // ---------------------------------------------------------------------------

  function AddFill(a: Agg, f: Fill): Agg {
    Agg(if f.closedPnl.Some? then a.closed + f.closedPnl.value else a.closed,
        if f.fee.Some? then a.fees + f.fee.value else a.fees,
        a.funding, a.fillCount + 1,
        if Won(f) then a.wins + 1 else a.wins,
        if Lost(f) then a.losses + 1 else a.losses)
  }

  function AddFunding(a: Agg, p: Funding): Agg { a.(funding := a.funding + p.amount) }

  function Entry(m: map<string, Agg>, coin: string): Agg { if coin in m then m[coin] else EMPTY }

  ghost predicate Aggregated(m: map<string, Agg>, fills: seq<Fill>, funding: seq<Funding>) {
    m.Keys == Coins(fills, funding) && HoldsTotals(m, fills, funding)
  }

  ghost predicate HoldsTotals(m: map<string, Agg>, fills: seq<Fill>, funding: seq<Funding>) {
    forall c | c in m :: m[c] == Totals(fills, funding, c)
  }

  lemma {:induction false} TotalsSnoc(mine: seq<Fill>, f: Fill, funding: real)
    ensures FillTotals(mine + [f], funding) == AddFill(FillTotals(mine, funding), f)
  {
    SumConcat(PnlOf, mine, [f]);
    SumConcat(FeeOf, mine, [f]);
    FilterConcat(Won, mine, [f]);
    FilterConcat(Lost, mine, [f]);
    assert Sum(PnlOf, [f]) == PnlOf(f) && Sum(FeeOf, [f]) == FeeOf(f);
  }

  lemma {:induction false} FillCounted(fills: seq<Fill>, f: Fill, funding: seq<Funding>, coin: string)
    ensures Totals(fills + [f], funding, coin) ==
            if f.coin == coin then AddFill(Totals(fills, funding, coin), f) else Totals(fills, funding, coin)
  {
    FilterSnoc(In(FillCoin, coin), fills, f);
    assert In(FillCoin, coin)(f) <==> FillCoin(f) == coin;
    TotalsSnoc(Filter(In(FillCoin, coin), fills), f, Sum(AmountOf, Filter(In(PaidCoin, coin), funding)));
  }

  lemma {:induction false} FundingCounted(fills: seq<Fill>, funding: seq<Funding>, p: Funding, coin: string)
    ensures Totals(fills, funding + [p], coin) ==
            if p.coin == coin then AddFunding(Totals(fills, funding, coin), p) else Totals(fills, funding, coin)
  {
    FilterSnoc(In(PaidCoin, coin), funding, p);
    assert In(PaidCoin, coin)(p) <==> PaidCoin(p) == coin;
    SumConcat(AmountOf, Filter(In(PaidCoin, coin), funding), [p]);
    assert Sum(AmountOf, [p]) == p.amount;
  }

  lemma {:induction false} NoTotals(fills: seq<Fill>, funding: seq<Funding>, coin: string)
    requires coin !in Coins(fills, funding)
    ensures Totals(fills, funding, coin) == EMPTY
  {
    forall f | f in fills ensures !In(FillCoin, coin)(f) { assert FillCoin(f) in Coins(fills, funding); }
    forall p | p in funding ensures !In(PaidCoin, coin)(p) { assert PaidCoin(p) in Coins(fills, funding); }
    FilterKeepsNone(In(FillCoin, coin), fills);
    FilterKeepsNone(In(PaidCoin, coin), funding);
  }

  lemma {:induction false} FillAggregated(m: map<string, Agg>, fills: seq<Fill>, f: Fill, funding: seq<Funding>)
    requires Aggregated(m, fills, funding)
    ensures Aggregated(m[f.coin := AddFill(Entry(m, f.coin), f)], fills + [f], funding)
  {
    var m' := m[f.coin := AddFill(Entry(m, f.coin), f)];
    assert Coins(fills + [f], funding) == Coins(fills, funding) + {f.coin};
    assert HoldsTotals(m', fills + [f], funding) by {
      if f.coin !in m { NoTotals(fills, funding, f.coin); }
      forall c | c in m' ensures m'[c] == Totals(fills + [f], funding, c) { FillCounted(fills, f, funding, c); }
    }
  }

  lemma {:induction false} FundingAggregated(m: map<string, Agg>, fills: seq<Fill>, funding: seq<Funding>, p: Funding)
    requires Aggregated(m, fills, funding)
    ensures Aggregated(m[p.coin := AddFunding(Entry(m, p.coin), p)], fills, funding + [p])
  {
    var m' := m[p.coin := AddFunding(Entry(m, p.coin), p)];
    assert Coins(fills, funding + [p]) == Coins(fills, funding) + {p.coin};
    assert HoldsTotals(m', fills, funding + [p]) by {
      if p.coin !in m { NoTotals(fills, funding, p.coin); }
      forall c | c in m' ensures m'[c] == Totals(fills, funding + [p], c) { FundingCounted(fills, funding, p, c); }
    }
  }

  method Aggregate(fills: seq<Fill>, funding: seq<Funding>) returns (m: map<string, Agg>)
    ensures Aggregated(m, fills, funding)
  {
    m := map[];
    for i := 0 to |fills|
      invariant Aggregated(m, fills[..i], [])
    {
      assert fills[..i + 1] == fills[..i] + [fills[i]];
      FillAggregated(m, fills[..i], fills[i], []);
      m := m[fills[i].coin := AddFill(Entry(m, fills[i].coin), fills[i])];
    }
    assert fills[..|fills|] == fills;
    for i := 0 to |funding|
      invariant Aggregated(m, fills, funding[..i])
    {
      assert funding[..i + 1] == funding[..i] + [funding[i]];
      FundingAggregated(m, fills, funding[..i], funding[i]);
      m := m[funding[i].coin := AddFunding(Entry(m, funding[i].coin), funding[i])];
    }
    assert funding[..|funding|] == funding;
  }

  /** The rows of the map, sorted by coin, whatever order the map yields them in. */
  method SortedRows(m: map<string, Agg>) returns (rows: seq<Row>)
    ensures Ordered(rows) && RowsCover(rows, m.Keys)
    ensures forall r | r in rows :: r.coin in m && r == RowOf(r.coin, m[r.coin])
  {
    rows := [];
    var left := m.Keys;
    while left != {}
      invariant left <= m.Keys
      invariant Ordered(rows) && RowsCover(rows, m.Keys - left)
      invariant forall r | r in rows :: r.coin in m && r == RowOf(r.coin, m[r.coin])
      decreases |left|
    {
      var coin :| coin in left;
      var row := RowOf(coin, m[coin]);
      InsertKeepsOrder(row, rows);
      CoverGrows(rows, m.Keys - left, row);
      assert m.Keys - (left - {coin}) == (m.Keys - left) + {coin};
      rows, left := InsertRow(row, rows), left - {coin};
    }
    assert m.Keys - {} == m.Keys;
  }

  lemma {:induction false} CoverGrows(rows: seq<Row>, coins: set<string>, row: Row)
    requires RowsCover(rows, coins)
    requires forall x :: x in InsertRow(row, rows) <==> x == row || x in rows
    ensures RowsCover(InsertRow(row, rows), coins + {row.coin})
  {
  }

  method ComputePnlSummary(fills: seq<Fill>, funding: seq<Funding>) returns (rows: seq<Row>)
    ensures IsSummary(rows, fills, funding)
    ensures forall r | r in rows ::
              ReadOff(r, Filter(In(FillCoin, r.coin), fills), Filter(In(PaidCoin, r.coin), funding))
  {
    var m := Aggregate(fills, funding);
    rows := SortedRows(m);
    forall r | r in rows
      ensures ReadOff(r, Filter(In(FillCoin, r.coin), fills), Filter(In(PaidCoin, r.coin), funding))
    {
      RowReads(r, fills, funding);
    }
  }

  // ---------------------------------------------------------------------------
  // The columns of a row, read off the fills and payments of its coin
  // ---------------------------------------------------------------------------

  function Realized(fills: seq<Fill>): real {
    if fills == [] then 0.0
    else (if fills[0].closedPnl.Some? then fills[0].closedPnl.value else 0.0) + Realized(fills[1..])
  }

  function Received(payments: seq<Funding>): real {
    if payments == [] then 0.0 else payments[0].amount + Received(payments[1..])
  }

  function Gains(fills: seq<Fill>): nat {
    if fills == [] then 0
    else (if fills[0].closedPnl.Some? && fills[0].closedPnl.value > 0.0 then 1 else 0) + Gains(fills[1..])
  }

  function Losses(fills: seq<Fill>): nat {
    if fills == [] then 0
    else (if fills[0].closedPnl.Some? && fills[0].closedPnl.value < 0.0 then 1 else 0) + Losses(fills[1..])
  }

  ghost predicate ReadOff(r: Row, mine: seq<Fill>, payments: seq<Funding>) {
    && r.closed == Realized(mine) && r.funding == Received(payments) && r.fees == TradeHistory.FeesPaid(mine)
    && r.net == Realized(mine) + Received(payments) - TradeHistory.FeesPaid(mine)
    && r.fillCount == |mine| && r.wins == Gains(mine) && r.losses == Losses(mine)
    && r.tradeCount == Gains(mine) + Losses(mine)
  }

  lemma {:induction false} FillsRead(mine: seq<Fill>)
    ensures Sum(PnlOf, mine) == Realized(mine) && Sum(FeeOf, mine) == TradeHistory.FeesPaid(mine)
    ensures |Filter(Won, mine)| == Gains(mine) && |Filter(Lost, mine)| == Losses(mine)
  {
    if mine != [] { FillsRead(mine[1..]); }
  }

  lemma {:induction false} PaymentsRead(payments: seq<Funding>)
    ensures Sum(AmountOf, payments) == Received(payments)
  {
    if payments != [] { PaymentsRead(payments[1..]); }
  }

  lemma {:induction false} RowReads(r: Row, fills: seq<Fill>, funding: seq<Funding>)
    requires r == RowOf(r.coin, Totals(fills, funding, r.coin))
    ensures ReadOff(r, Filter(In(FillCoin, r.coin), fills), Filter(In(PaidCoin, r.coin), funding))
  {
    FillsRead(Filter(In(FillCoin, r.coin), fills));
    PaymentsRead(Filter(In(PaidCoin, r.coin), funding));
  }

  // ---------------------------------------------------------------------------
  // A summary is unique, and does not depend on the order of its inputs
  // ---------------------------------------------------------------------------

  lemma {:induction false} TotalsPermute(fills: seq<Fill>, fills': seq<Fill>, funding: seq<Funding>,
                                         funding': seq<Funding>, coin: string)
    requires multiset(fills) == multiset(fills') && multiset(funding) == multiset(funding')
    ensures Totals(fills, funding, coin) == Totals(fills', funding', coin)
  {
    var mine, mine' := Filter(In(FillCoin, coin), fills), Filter(In(FillCoin, coin), fills');
    FilterPermutes(In(FillCoin, coin), fills, fills');
    FilterPermutes(In(PaidCoin, coin), funding, funding');
    SumPermutes(AmountOf, Filter(In(PaidCoin, coin), funding), Filter(In(PaidCoin, coin), funding'));
    FillTotalsPermute(mine, mine', Sum(AmountOf, Filter(In(PaidCoin, coin), funding)));
  }

  lemma {:induction false} FillTotalsPermute(mine: seq<Fill>, mine': seq<Fill>, funding: real)
    requires multiset(mine) == multiset(mine')
    ensures FillTotals(mine, funding) == FillTotals(mine', funding)
  {
    SumPermutes(PnlOf, mine, mine');
    SumPermutes(FeeOf, mine, mine');
    SameElements(mine, mine');
    FilterPermutes(Won, mine, mine');
    FilterPermutes(Lost, mine, mine');
    SameElements(Filter(Won, mine), Filter(Won, mine'));
    SameElements(Filter(Lost, mine), Filter(Lost, mine'));
  }

  lemma {:induction false} OrderedUnique(a: seq<Row>, b: seq<Row>)
    requires Ordered(a) && Ordered(b) && forall x :: x in a <==> x in b
    ensures a == b
  {
    assert a != [] ==> a[0] in b;
    assert b != [] ==> b[0] in a;
    if a != [] {
      HeadsAgree(a, b);
      forall x ensures x in a[1..] <==> x in b[1..] {
        BeforeIsIrreflexive(a[0].coin);
        if x in a[1..] { assert x in b && Before(a[0].coin, x.coin); }
        if x in b[1..] { assert x in a && Before(b[0].coin, x.coin); }
      }
      OrderedUnique(a[1..], b[1..]);
      assert a == [a[0]] + a[1..] && b == [b[0]] + b[1..];
    }
  }

  lemma {:induction false} HeadsAgree(a: seq<Row>, b: seq<Row>)
    requires Ordered(a) && Ordered(b) && a != [] && b != [] && a[0] in b && b[0] in a
    ensures a[0] == b[0]
  {
    if a[0] != b[0] {
      assert Before(a[0].coin, b[0].coin) && Before(b[0].coin, a[0].coin);
      BeforeIsTransitive(a[0].coin, b[0].coin, a[0].coin);
      BeforeIsIrreflexive(a[0].coin);
      assert false;
    }
  }

  lemma {:induction false} RowsIncluded(a: seq<Row>, b: seq<Row>, fills: seq<Fill>, fills': seq<Fill>,
                                        funding: seq<Funding>, funding': seq<Funding>)
    requires IsSummary(a, fills, funding) && IsSummary(b, fills', funding')
    requires multiset(fills) == multiset(fills') && multiset(funding) == multiset(funding')
    ensures forall x | x in a :: x in b
  {
    SameElements(fills, fills');
    SameElements(funding, funding');
    assert Coins(fills, funding) == Coins(fills', funding');
    forall x | x in a ensures x in b {
      var y :| y in b && y.coin == x.coin;
      TotalsPermute(fills, fills', funding, funding', x.coin);
    }
  }

  /** Permuting the fills and the funding payments leaves the summary as it is. */
  lemma {:induction false} SummaryIgnoresOrder(a: seq<Row>, b: seq<Row>, fills: seq<Fill>, fills': seq<Fill>,
                                               funding: seq<Funding>, funding': seq<Funding>)
    requires IsSummary(a, fills, funding) && IsSummary(b, fills', funding')
    requires multiset(fills) == multiset(fills') && multiset(funding) == multiset(funding')
    ensures a == b
  {
    RowsIncluded(a, b, fills, fills', funding, funding');
    RowsIncluded(b, a, fills', fills, funding', funding);
    OrderedUnique(a, b);
  }

  // ---------------------------------------------------------------------------
  // Totals over coins
  // ---------------------------------------------------------------------------

  function NetOf(r: Row): real { r.net }

  function FillsOf(r: Row): real { r.fillCount as real }

  function ClosedOf(r: Row): real { r.closed }

  function FundingOf(r: Row): real { r.funding }

  function FeesOf(r: Row): real { r.fees }

  function TradesOf(r: Row): real { r.tradeCount as real }

  function Share<T>(value: T -> real, coinOf: T -> string, s: seq<T>): Row -> real {
    (r: Row) => Sum(value, Filter(In(coinOf, r.coin), s))
  }

  function InRows<T>(coinOf: T -> string, rows: seq<Row>): T -> bool {
    (x: T) => exists r | r in rows :: r.coin == coinOf(x)
  }

  lemma {:induction false} SharesOfRows<T>(value: T -> real, coinOf: T -> string, rows: seq<Row>, s: seq<T>)
    requires Ordered(rows)
    ensures Sum(Share(value, coinOf, s), rows) == Sum(value, Filter(InRows(coinOf, rows), s))
  {
    if rows == [] {
      FilterKeepsNone(InRows(coinOf, rows), s);
    } else {
      SharesOfRows(value, coinOf, rows[1..], s);
      var mine, rest := Filter(In(coinOf, rows[0].coin), s), Filter(InRows(coinOf, rows[1..]), s);
      RowsSplit(coinOf, rows, s);
      SumPermutes(value, Filter(InRows(coinOf, rows), s), mine + rest);
      SumConcat(value, mine, rest);
    }
  }

  lemma {:induction false} RowsSplit<T>(coinOf: T -> string, rows: seq<Row>, s: seq<T>)
    requires Ordered(rows) && rows != []
    ensures multiset(Filter(InRows(coinOf, rows), s)) ==
            multiset(Filter(In(coinOf, rows[0].coin), s) + Filter(InRows(coinOf, rows[1..]), s))
  {
    forall x | x in s
      ensures InRows(coinOf, rows)(x) <==> In(coinOf, rows[0].coin)(x) || InRows(coinOf, rows[1..])(x)
      ensures !(In(coinOf, rows[0].coin)(x) && InRows(coinOf, rows[1..])(x))
    {
      assert rows == [rows[0]] + rows[1..];
      BeforeIsIrreflexive(rows[0].coin);
    }
    FilterUnion(InRows(coinOf, rows), In(coinOf, rows[0].coin), InRows(coinOf, rows[1..]), s);
  }

  /** Summing a coin-wise total over the rows counts every input exactly once. */
  lemma {:induction false} SharesAddUp<T>(value: T -> real, coinOf: T -> string, rows: seq<Row>, s: seq<T>)
    requires Ordered(rows) && forall x | x in s :: exists r | r in rows :: r.coin == coinOf(x)
    ensures Sum(Share(value, coinOf, s), rows) == Sum(value, s)
  {
    SharesOfRows(value, coinOf, rows, s);
    FilterKeepsAll(InRows(coinOf, rows), s);
  }

  function One(f: Fill): real { 1.0 }

  lemma {:induction false} Count(s: seq<Fill>)
    ensures Sum(One, s) == |s| as real
  {
    if s != [] { Count(s[1..]); }
  }

  lemma {:induction false} SumOfNets(closed: Row -> real, paid: Row -> real, fees: Row -> real, rows: seq<Row>)
    requires forall r | r in rows :: r.net == closed(r) + paid(r) - fees(r)
    ensures Sum(NetOf, rows) == Sum(closed, rows) + Sum(paid, rows) - Sum(fees, rows)
  {
    if rows != [] { SumOfNets(closed, paid, fees, rows[1..]); }
  }

  /** Net PnL over all rows is the closed PnL of all fills plus all funding minus all fees. */
  lemma {:induction false} NetsAddUp(rows: seq<Row>, fills: seq<Fill>, funding: seq<Funding>)
    requires IsSummary(rows, fills, funding)
    ensures Sum(NetOf, rows) == Sum(PnlOf, fills) + Sum(AmountOf, funding) - Sum(FeeOf, fills)
  {
    var closed, fees := Share(PnlOf, FillCoin, fills), Share(FeeOf, FillCoin, fills);
    var paid := Share(AmountOf, PaidCoin, funding);
    SumOfNets(closed, paid, fees, rows);
    AllCoinsHaveRows(rows, fills, funding);
    SharesAddUp(PnlOf, FillCoin, rows, fills);
    SharesAddUp(AmountOf, PaidCoin, rows, funding);
    SharesAddUp(FeeOf, FillCoin, rows, fills);
  }

  function Settled(f: Fill): real { if f.closedPnl.Some? && f.closedPnl.value != 0.0 then 1.0 else 0.0 }

  lemma {:induction false} CountSettled(s: seq<Fill>)
    ensures Sum(Settled, s) == (Gains(s) + Losses(s)) as real
  {
    if s != [] { CountSettled(s[1..]); }
  }

  /** Every column adds up over the rows to its total over all fills and payments. */
  lemma {:induction false} ColumnsAddUp(rows: seq<Row>, fills: seq<Fill>, funding: seq<Funding>)
    requires IsSummary(rows, fills, funding)
    ensures Sum(ClosedOf, rows) == Realized(fills)
    ensures Sum(FundingOf, rows) == Received(funding)
    ensures Sum(FeesOf, rows) == TradeHistory.FeesPaid(fills)
    ensures Sum(TradesOf, rows) == (Gains(fills) + Losses(fills)) as real
  {
    AllCoinsHaveRows(rows, fills, funding);
    SharesAddUp(PnlOf, FillCoin, rows, fills);
    SharesAddUp(FeeOf, FillCoin, rows, fills);
    SharesAddUp(AmountOf, PaidCoin, rows, funding);
    SharesAddUp(Settled, FillCoin, rows, fills);
    FillsRead(fills);
    PaymentsRead(funding);
    CountSettled(fills);
    forall r | r in rows
      ensures ClosedOf(r) == Share(PnlOf, FillCoin, fills)(r) && FeesOf(r) == Share(FeeOf, FillCoin, fills)(r)
      ensures FundingOf(r) == Share(AmountOf, PaidCoin, funding)(r)
      ensures TradesOf(r) == Share(Settled, FillCoin, fills)(r)
    {
      FillsRead(Filter(In(FillCoin, r.coin), fills));
      CountSettled(Filter(In(FillCoin, r.coin), fills));
    }
    SumAgrees(ClosedOf, Share(PnlOf, FillCoin, fills), rows);
    SumAgrees(FeesOf, Share(FeeOf, FillCoin, fills), rows);
    SumAgrees(FundingOf, Share(AmountOf, PaidCoin, funding), rows);
    SumAgrees(TradesOf, Share(Settled, FillCoin, fills), rows);
  }

  lemma {:induction false} AllCoinsHaveRows(rows: seq<Row>, fills: seq<Fill>, funding: seq<Funding>)
    requires RowsCover(rows, Coins(fills, funding))
    ensures forall f | f in fills :: exists r | r in rows :: r.coin == FillCoin(f)
    ensures forall p | p in funding :: exists r | r in rows :: r.coin == PaidCoin(p)
  {
    forall f | f in fills ensures exists r | r in rows :: r.coin == FillCoin(f) {
      assert f.coin in Coins(fills, funding);
    }
    forall p | p in funding ensures exists r | r in rows :: r.coin == PaidCoin(p) {
      assert p.coin in Coins(fills, funding);
    }
  }

  /** Fill counts over the rows sum to the number of fills. */
  lemma {:induction false} CountsAddUp(rows: seq<Row>, fills: seq<Fill>, funding: seq<Funding>)
    requires IsSummary(rows, fills, funding)
    ensures Sum(FillsOf, rows) == |fills| as real
  {
    AllCoinsHaveRows(rows, fills, funding);
    SharesAddUp(One, FillCoin, rows, fills);
    Count(fills);
    forall r | r in rows ensures FillsOf(r) == Share(One, FillCoin, fills)(r) {
      Count(Filter(In(FillCoin, r.coin), fills));
    }
    SumAgrees(FillsOf, Share(One, FillCoin, fills), rows);
  }
}
