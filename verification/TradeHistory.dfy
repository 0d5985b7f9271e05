/** Hyperliquid trade history: fills of a coin are grouped into open/close sequences, one trade each. */
module TradeHistory {
  import opened Common

  datatype Fill = Fill(id: nat, coin: string, side: string, price: real, size: real, direction: Option<string>,
                       closedPnl: Option<real>, fee: Option<real>, time: int)

  /** A UUID v5 over the coin and the sorted ids of the fills, kept as what it hashes. */
  datatype TradeId = TradeId(coin: string, fills: multiset<nat>)

  datatype Trade = Trade(id: TradeId, coin: string, side: string, exitPrice: real, size: real, openedAt: int,
                         closedAt: int, realizedPnl: real, fees: real, numFills: int)

  predicate Contains(s: string, part: string) {
    part <= s || (s != [] && Contains(s[1..], part))
  }

  datatype Action = Opens | Closes | Neither

  /** A direction that mentions both counts as an open. */
  function ActionOf(f: Fill): Action {
    var dir := if f.direction.Some? then f.direction.value else "";
    if Contains(dir, "Open") then Opens else if Contains(dir, "Close") then Closes else Neither
  }

  predicate Acts(f: Fill) { ActionOf(f) != Neither }

  predicate IsClose(f: Fill) { ActionOf(f) == Closes }

  function TimeOf(f: Fill): int { f.time }

  function FeeOf(f: Fill): real { if f.fee.Some? then f.fee.value else 0.0 }

  function PnlOf(f: Fill): real { if f.closedPnl.Some? then f.closedPnl.value else 0.0 }

  function SizeOf(f: Fill): real { f.size }

  // ---------------------------------------------------------------------------
  // Groups: the fills of each trade
  // ---------------------------------------------------------------------------

  /** A close ends the sequence of opens before it; without any, it stands alone. */
  function Groups(fills: seq<Fill>, open: seq<Fill>): seq<seq<Fill>>
    decreases |fills|
  {
    if fills == [] then []
    else
      match ActionOf(fills[0])
      case Opens => Groups(fills[1..], open + [fills[0]])
      case Closes => [open + [fills[0]]] + Groups(fills[1..], [])
      case Neither => Groups(fills[1..], open)
  }

  function Leftover(fills: seq<Fill>, open: seq<Fill>): seq<Fill>
    decreases |fills|
  {
    if fills == [] then open
    else
      match ActionOf(fills[0])
      case Opens => Leftover(fills[1..], open + [fills[0]])
      case Closes => Leftover(fills[1..], [])
      case Neither => Leftover(fills[1..], open)
  }

  function Ids(g: seq<Fill>): multiset<nat> { if g == [] then multiset{} else multiset{g[0].id} + Ids(g[1..]) }

  function TradeOf(g: seq<Fill>): Trade
    requires g != []
  {
    var close, opens := g[|g| - 1], g[..|g| - 1];
    Trade(TradeId(close.coin, Ids(g)), close.coin, g[0].side, close.price,
          if opens == [] then close.size else Sum(SizeOf, opens),
          g[0].time, close.time, PnlOf(close), Sum(FeeOf, g), |g|)
  }

  function Trades(groups: seq<seq<Fill>>): seq<Trade>
    requires forall g | g in groups :: g != []
  {
    seq(|groups|, i requires 0 <= i < |groups| => assert groups[i] in groups; TradeOf(groups[i]))
  }

  /** A group is a run of opens ended by the only close in it. */
  ghost predicate OpenThenClose(g: seq<Fill>) {
    g != [] && IsClose(g[|g| - 1]) && forall i | 0 <= i < |g| - 1 :: ActionOf(g[i]) == Opens
  }

  lemma {:induction false} GroupsAreSequences(fills: seq<Fill>, open: seq<Fill>)
    requires forall f | f in open :: ActionOf(f) == Opens
    ensures forall g | g in Groups(fills, open) :: OpenThenClose(g)
    decreases |fills|
  {
    if fills != [] {
      match ActionOf(fills[0])
      case Opens => GroupsAreSequences(fills[1..], open + [fills[0]]);
      case Closes =>
        GroupsAreSequences(fills[1..], []);
        assert OpenThenClose(open + [fills[0]]);
      case Neither => GroupsAreSequences(fills[1..], open);
    }
  }

  /**
   The groups and the leftover opens partition the open and close fills in order: no fill is used
   twice and none is lost.
   */
  lemma {:induction false} GroupsPartition(fills: seq<Fill>, open: seq<Fill>)
    ensures Flatten(Groups(fills, open)) + Leftover(fills, open) == open + Filter(Acts, fills)
    decreases |fills|
  {
    if fills != [] {
      match ActionOf(fills[0])
      case Opens => GroupsPartition(fills[1..], open + [fills[0]]);
      case Closes =>
        GroupsPartition(fills[1..], []);
        FlattenCons(open + [fills[0]], Groups(fills[1..], []));
        Regroup(open, fills[0], Flatten(Groups(fills[1..], [])), Leftover(fills[1..], []), Filter(Acts, fills[1..]));
      case Neither => GroupsPartition(fills[1..], open);
    }
  }

  lemma {:induction false} Regroup(open: seq<Fill>, close: Fill, used: seq<Fill>, left: seq<Fill>, acting: seq<Fill>)
    requires used + left == [] + acting
    ensures (open + [close]) + used + left == open + ([close] + acting)
  {
    assert [] + acting == acting;
    assert (open + [close]) + used + left == open + ([close] + (used + left));
  }

  function FeesOf(t: Trade): real { t.fees }

  function RealizedOf(t: Trade): real { t.realizedPnl }

  function CountOf(t: Trade): real { t.numFills as real }

  predicate Groupwise(groups: seq<seq<Fill>>) { forall g | g in groups :: g != [] }

  /** Fees and fill counts of the trades are those of the fills they use. */
  lemma {:induction false} TradeTotals(groups: seq<seq<Fill>>)
    requires Groupwise(groups)
    ensures Sum(FeesOf, Trades(groups)) == Sum(FeeOf, Flatten(groups))
    ensures Sum(CountOf, Trades(groups)) == |Flatten(groups)| as real
  {
    if groups != [] {
      assert groups[0] in groups;
      assert Groupwise(groups[1..]) by { assert forall g | g in groups[1..] :: g in groups; }
      TradeTotals(groups[1..]);
      assert Trades(groups)[1..] == Trades(groups[1..]);
      SumConcat(FeeOf, groups[0], Flatten(groups[1..]));
    }
  }

  lemma {:induction false} RealizedCons(g: seq<Fill>, groups: seq<seq<Fill>>)
    requires g != [] && Groupwise(groups)
    ensures Groupwise([g] + groups)
    ensures Sum(RealizedOf, Trades([g] + groups)) == PnlOf(g[|g| - 1]) + Sum(RealizedOf, Trades(groups))
  {
    assert Trades([g] + groups)[1..] == Trades(groups);
  }

  /** The realized PnL of the trades is the closed PnL of the close fills, opened or not. */
  lemma {:induction false} RealizedIsClosed(fills: seq<Fill>, open: seq<Fill>)
    requires forall f | f in open :: ActionOf(f) == Opens
    ensures Groupwise(Groups(fills, open))
    ensures Sum(RealizedOf, Trades(Groups(fills, open))) == Sum(PnlOf, Filter(IsClose, fills))
    decreases |fills|
  {
    GroupsAreSequences(fills, open);
    if fills != [] {
      match ActionOf(fills[0])
      case Opens =>
        RealizedIsClosed(fills[1..], open + [fills[0]]);
        assert Filter(IsClose, fills) == Filter(IsClose, fills[1..]);
      case Closes =>
        RealizedIsClosed(fills[1..], []);
        RealizedCons(open + [fills[0]], Groups(fills[1..], []));
      case Neither =>
        RealizedIsClosed(fills[1..], open);
        assert Filter(IsClose, fills) == Filter(IsClose, fills[1..]);
    }
  }

  lemma {:induction false} SegmentSorted(groups: seq<seq<Fill>>, g: seq<Fill>, rest: seq<Fill>)
    requires SortedBy(TimeOf, Flatten(groups) + rest) && g in groups
    ensures SortedBy(TimeOf, g)
  {
    var all := Flatten(groups) + rest;
    if groups[0] == g {
      assert forall i | 0 <= i < |g| :: g[i] == all[i];
    } else {
      var n := |groups[0]|;
      var tail := Flatten(groups[1..]) + rest;
      assert forall i | 0 <= i < |tail| :: tail[i] == all[n + i];
      SegmentSorted(groups[1..], g, rest);
    }
  }

  /** In time-ordered fills no trade closes before it opens. */
  lemma {:induction false} OpenedBeforeClosed(fills: seq<Fill>, g: seq<Fill>)
    requires SortedBy(TimeOf, fills) && g in Groups(fills, [])
    ensures g != [] && TradeOf(g).openedAt <= TradeOf(g).closedAt
  {
    GroupsAreSequences(fills, []);
    GroupsPartition(fills, []);
    FilterKeepsOrder(TimeOf, Acts, fills);
    assert [] + Filter(Acts, fills) == Filter(Acts, fills);
    SegmentSorted(Groups(fills, []), g, Leftover(fills, []));
  }

  // ---------------------------------------------------------------------------
  // One coin
  // ---------------------------------------------------------------------------

  function OfCoin(coin: string): Fill -> bool { (f: Fill) => f.coin == coin }

  function CoinFills(fills: seq<Fill>, coin: string): seq<Fill> { SortBy(TimeOf, Filter(OfCoin(coin), fills)) }

  predicate HasDirection(fills: seq<Fill>) { exists f | f in fills :: Acts(f) }

  predicate HasPnl(f: Fill) { f.closedPnl.Some? }

  predicate Idle(f: Fill) { !Acts(f) }

  predicate Unrealized(f: Fill) { !HasPnl(f) }

  function Singles(fills: seq<Fill>): seq<seq<Fill>> {
    if fills == [] then [] else Singles(fills[..|fills| - 1]) + [[fills[|fills| - 1]]]
  }

  /** Without any direction, every fill with a closed PnL is a trade of its own. */
  function GroupsOf(sorted: seq<Fill>): seq<seq<Fill>> {
    if HasDirection(sorted) then Groups(sorted, []) else Singles(Filter(HasPnl, sorted))
  }

  function UnusedOf(sorted: seq<Fill>): seq<Fill> {
    if HasDirection(sorted) then Leftover(sorted, []) + Filter(Idle, sorted) else Filter(Unrealized, sorted)
  }

  lemma {:induction false} SinglesFlatten(fills: seq<Fill>)
    ensures Flatten(Singles(fills)) == fills && Groupwise(Singles(fills))
  {
    if fills != [] {
      var n := |fills| - 1;
      SinglesFlatten(fills[..n]);
      FlatMapSnoc(Same<Fill>, Singles(fills[..n]), [fills[n]]);
      assert fills == fills[..n] + [fills[n]];
    }
  }

  lemma {:induction false} GroupsOfAreNonEmpty(sorted: seq<Fill>)
    ensures Groupwise(GroupsOf(sorted))
  {
    GroupsAreSequences(sorted, []);
    SinglesFlatten(Filter(HasPnl, sorted));
  }

  /** Every fill of a coin is used by exactly one trade or by none. */
  lemma {:induction false} CoinAccounts(sorted: seq<Fill>)
    ensures multiset(Flatten(GroupsOf(sorted))) + multiset(UnusedOf(sorted)) == multiset(sorted)
  {
    FilterKeepsAll(Anything, sorted);
    if HasDirection(sorted) {
      GroupsPartition(sorted, []);
      FilterUnion(Anything, Acts, Idle, sorted);
      assert multiset(Flatten(Groups(sorted, []))) + multiset(Leftover(sorted, [])) ==
             multiset(Flatten(Groups(sorted, [])) + Leftover(sorted, [])) == multiset([] + Filter(Acts, sorted));
      assert [] + Filter(Acts, sorted) == Filter(Acts, sorted);
    } else {
      SinglesFlatten(Filter(HasPnl, sorted));
      FilterUnion(Anything, HasPnl, Unrealized, sorted);
    }
  }

  predicate Anything(f: Fill) { true }

  lemma {:induction false} GroupsStep(sorted: seq<Fill>, i: nat, open: seq<Fill>)
    requires i < |sorted|
    ensures Groups(sorted[i..], open) ==
            match ActionOf(sorted[i])
            case Opens => Groups(sorted[i + 1..], open + [sorted[i]])
            case Closes => [open + [sorted[i]]] + Groups(sorted[i + 1..], [])
            case Neither => Groups(sorted[i + 1..], open)
  {
    assert sorted[i..][1..] == sorted[i + 1..];
  }

  /** The open/close loop of one coin. */
  method GroupOpensAndCloses(sorted: seq<Fill>) returns (trades: seq<Trade>)
    ensures Groupwise(Groups(sorted, [])) && trades == Trades(Groups(sorted, []))
  {
    GroupsAreSequences(sorted, []);
    trades := [];
    var open: seq<Fill> := [];
    ghost var done: seq<seq<Fill>> := [];
    for i := 0 to |sorted|
      invariant Groupwise(done) && trades == Trades(done)
      invariant Groups(sorted, []) == done + Groups(sorted[i..], open)
    {
      var fill := sorted[i];
      GroupsStep(sorted, i, open);
      match ActionOf(fill) {
        case Opens => open := open + [fill];
        case Closes =>
          var trade: Trade;
          if open != [] {
            trade := Trade(TradeId(fill.coin, Ids(open + [fill])), fill.coin, open[0].side, fill.price,
                           Sum(SizeOf, open), open[0].time, fill.time, PnlOf(fill), Sum(FeeOf, open + [fill]),
                           |open| + 1);
          } else {
            trade := Trade(TradeId(fill.coin, multiset{fill.id}), fill.coin, fill.side, fill.price, fill.size,
                           fill.time, fill.time, PnlOf(fill), FeeOf(fill), 1);
          }
          assert trade == TradeOf(open + [fill]) by { NewTrade(open, fill); }
          TradesSnoc(done, open + [fill]);
          trades := trades + [trade];
          Associate(done, [open + [fill]], Groups(sorted[i + 1..], []));
          done, open := done + [open + [fill]], [];
        case Neither =>
      }
    }
    assert Groups(sorted[|sorted|..], open) == [];
    assert done + [] == done;
  }

  lemma {:induction false} NewTrade(open: seq<Fill>, close: Fill)
    ensures open != [] ==>
              TradeOf(open + [close]) ==
              Trade(TradeId(close.coin, Ids(open + [close])), close.coin, open[0].side, close.price, Sum(SizeOf, open),
                    open[0].time, close.time, PnlOf(close), Sum(FeeOf, open + [close]), |open| + 1)
    ensures open == [] ==>
              TradeOf(open + [close]) ==
              Trade(TradeId(close.coin, multiset{close.id}), close.coin, close.side, close.price, close.size,
                    close.time, close.time, PnlOf(close), FeeOf(close), 1)
  {
    assert (open + [close])[..|open|] == open;
    if open == [] {
      assert open + [close] == [close] && [close][1..] == [];
      assert Ids([close]) == multiset{close.id} + Ids([]) == multiset{close.id};
      assert Sum(FeeOf, [close]) == FeeOf(close) + Sum(FeeOf, []) == FeeOf(close);
    }
  }

  lemma {:induction false} TradesSnoc(groups: seq<seq<Fill>>, g: seq<Fill>)
    requires Groupwise(groups) && g != []
    ensures Groupwise(groups + [g]) && Trades(groups + [g]) == Trades(groups) + [TradeOf(g)]
  {
  }

  lemma {:induction false} KeptSnoc(s: seq<Fill>, f: Fill)
    ensures var kept := Filter(HasPnl, s);
            Singles(Filter(HasPnl, s + [f])) == if HasPnl(f) then Singles(kept) + [[f]] else Singles(kept)
  {
    var kept := Filter(HasPnl, s);
    FilterSnoc(HasPnl, s, f);
    assert (kept + [f])[..|kept|] == kept;
  }

  /** The fallback loop of one coin: standalone trades. */
  method StandaloneTrades(sorted: seq<Fill>) returns (trades: seq<Trade>)
    ensures Groupwise(Singles(Filter(HasPnl, sorted))) && trades == Trades(Singles(Filter(HasPnl, sorted)))
  {
    trades := [];
    ghost var done: seq<seq<Fill>> := [];
    for i := 0 to |sorted|
      invariant done == Singles(Filter(HasPnl, sorted[..i]))
      invariant Groupwise(done) && trades == Trades(done)
    {
      var fill := sorted[i];
      assert sorted[..i + 1] == sorted[..i] + [fill];
      KeptSnoc(sorted[..i], fill);
      if fill.closedPnl.Some? {
        NewTrade([], fill);
        assert [] + [fill] == [fill];
        TradesSnoc(done, [fill]);
        trades := trades + [Trade(TradeId(fill.coin, multiset{fill.id}), fill.coin, fill.side, fill.price, fill.size,
                                  fill.time, fill.time, PnlOf(fill), FeeOf(fill), 1)];
        done := done + [[fill]];
      }
    }
    assert sorted[..|sorted|] == sorted;
  }

  method TradesOfCoin(mine: seq<Fill>) returns (trades: seq<Trade>)
    ensures trades == TradesFor(mine)
  {
    var sorted := SortBy(TimeOf, mine);
    if HasDirection(sorted) {
      trades := GroupOpensAndCloses(sorted);
    } else {
      trades := StandaloneTrades(sorted);
    }
  }

  // ---------------------------------------------------------------------------
  // All coins
  // ---------------------------------------------------------------------------

  function TradesFor(mine: seq<Fill>): seq<Trade> {
    var sorted := SortBy(TimeOf, mine);
    GroupsOfAreNonEmpty(sorted); Trades(GroupsOf(sorted))
  }

  function CoinTrades(fills: seq<Fill>): string -> seq<Trade> {
    (coin: string) => TradesFor(Filter(OfCoin(coin), fills))
  }

  function UsedBy(fills: seq<Fill>): string -> seq<Fill> { (coin: string) => Flatten(GroupsOf(CoinFills(fills, coin))) }

  function UnusedBy(fills: seq<Fill>): string -> seq<Fill> { (coin: string) => UnusedOf(CoinFills(fills, coin)) }

  function ClosedAt(t: Trade): int { t.closedAt }

  ghost predicate NoRepeats(coins: seq<string>) { forall i, j | 0 <= i < j < |coins| :: coins[i] != coins[j] }

  function CoinsOf(fills: seq<Fill>): set<string> { set f | f in fills :: f.coin }

  /** `coins` lists the fills' coins once each, in the order the hash map yields them. */
  ghost predicate ListsCoins(coins: seq<string>, fills: seq<Fill>) {
    NoRepeats(coins) && forall c :: c in coins <==> c in CoinsOf(fills)
  }

  ghost predicate GroupedByCoin(m: map<string, seq<Fill>>, fills: seq<Fill>) {
    m.Keys == CoinsOf(fills) && HoldsFills(m, fills)
  }

  ghost predicate HoldsFills(m: map<string, seq<Fill>>, fills: seq<Fill>) {
    forall c | c in m :: m[c] == Filter(OfCoin(c), fills)
  }

  function Pushed(m: map<string, seq<Fill>>, f: Fill): map<string, seq<Fill>> {
    m[f.coin := (if f.coin in m then m[f.coin] else []) + [f]]
  }

  lemma {:induction false} GroupedSnoc(m: map<string, seq<Fill>>, fills: seq<Fill>, f: Fill)
    requires GroupedByCoin(m, fills)
    ensures GroupedByCoin(Pushed(m, f), fills + [f])
  {
    CoinsOfSnoc(fills, f);
    assert HoldsFills(Pushed(m, f), fills + [f]) by { HoldsSnoc(m, fills, f); }
  }

  lemma {:induction false} HoldsSnoc(m: map<string, seq<Fill>>, fills: seq<Fill>, f: Fill)
    requires GroupedByCoin(m, fills)
    ensures HoldsFills(Pushed(m, f), fills + [f])
  {
    if f.coin !in m { NoFillsOf(fills, f.coin); }
    forall c | c in Pushed(m, f) ensures Pushed(m, f)[c] == Filter(OfCoin(c), fills + [f]) {
      FilterSnoc(OfCoin(c), fills, f);
    }
  }

  lemma {:induction false} CoinsOfSnoc(fills: seq<Fill>, f: Fill)
    ensures CoinsOf(fills + [f]) == CoinsOf(fills) + {f.coin}
  {
  }

  lemma {:induction false} NoFillsOf(fills: seq<Fill>, coin: string)
    requires coin !in CoinsOf(fills)
    ensures Filter(OfCoin(coin), fills) == []
  {
    forall f | f in fills ensures f.coin != coin { assert f.coin in CoinsOf(fills); }
    FilterKeepsNone(OfCoin(coin), fills);
  }

  method GroupByCoin(fills: seq<Fill>) returns (m: map<string, seq<Fill>>)
    ensures GroupedByCoin(m, fills)
  {
    m := map[];
    for i := 0 to |fills|
      invariant GroupedByCoin(m, fills[..i])
    {
      assert fills[..i + 1] == fills[..i] + [fills[i]];
      GroupedSnoc(m, fills[..i], fills[i]);
      m := Pushed(m, fills[i]);
    }
    assert fills[..|fills|] == fills;
  }

  ghost predicate TradesIn(per: string -> seq<Trade>, m: map<string, seq<Fill>>, coins: seq<string>) {
    forall c | c in coins :: c in m && per(c) == TradesFor(m[c])
  }

  method TradesOfCoins(ghost per: string -> seq<Trade>, m: map<string, seq<Fill>>, coins: seq<string>)
      returns (trades: seq<Trade>)
    requires TradesIn(per, m, coins)
    ensures trades == FlatMap(per, coins)
  {
    trades := [];
    var rest := coins;
    while rest != []
      invariant TradesIn(per, m, rest)
      invariant FlatMap(per, coins) == trades + FlatMap(per, rest)
      decreases |rest|
    {
      var more := TradesOfCoin(m[rest[0]]);
      trades, rest := trades + more, rest[1..];
    }
  }

  method BuildTradeHistory(fills: seq<Fill>, coins: seq<string>) returns (trades: seq<Trade>)
    requires ListsCoins(coins, fills)
    ensures forall i, j | 0 <= i < j < |trades| :: trades[i].closedAt <= trades[j].closedAt
    ensures multiset(trades) == multiset(FlatMap(CoinTrades(fills), coins))
    ensures forall t | t in trades :: Grounded(t, fills, coins)
  {
    var m := GroupByCoin(fills);
    trades := TradesOfCoins(CoinTrades(fills), m, coins);
    SortBySorts(ClosedAt, trades);
    trades := SortBy(ClosedAt, trades);
    forall t | t in trades ensures Grounded(t, fills, coins) { TradeIsGrounded(t, fills, coins); }
  }

  // ---------------------------------------------------------------------------
  // What the trades say, on the text and the numbers of the fills
  // ---------------------------------------------------------------------------

  function DirectionOf(f: Fill): string { if f.direction.Some? then f.direction.value else "" }

  predicate WordAt(text: string, word: string, i: int) {
    0 <= i <= |text| - |word| && text[i..i + |word|] == word
  }

  ghost predicate Mentions(text: string, word: string) { exists i :: WordAt(text, word, i) }

  ghost predicate MentionsOpen(f: Fill) { Mentions(DirectionOf(f), "Open") }

  ghost predicate MentionsClose(f: Fill) { Mentions(DirectionOf(f), "Close") }

  lemma {:induction false} WordStarts(text: string, word: string)
    ensures WordAt(text, word, 0) <==> word <= text
  {
    if |word| <= |text| { assert text[0..|word|] == text[..|word|]; }
  }

  lemma {:induction false} WordShifts(text: string, word: string, i: int)
    requires text != [] && 0 < i
    ensures WordAt(text, word, i) <==> WordAt(text[1..], word, i - 1)
  {
    if i <= |text| - |word| {
      var here, there := text[i..i + |word|], text[1..][i - 1..i - 1 + |word|];
      assert forall j | 0 <= j < |word| :: here[j] == text[i + j] && there[j] == text[i + j];
      assert here == there;
    }
  }

  lemma {:induction false} ContainsIff(text: string, word: string)
    requires word != []
    ensures Contains(text, word) <==> Mentions(text, word)
  {
    WordStarts(text, word);
    if !(word <= text) && text != [] {
      ContainsIff(text[1..], word);
      if i :| WordAt(text[1..], word, i) { WordShifts(text, word, i + 1); }
      if i :| WordAt(text, word, i) { WordShifts(text, word, i); }
    }
  }

  lemma {:induction false} ActionByText(f: Fill)
    ensures ActionOf(f) == Opens <==> MentionsOpen(f)
    ensures ActionOf(f) == Closes <==> MentionsClose(f) && !MentionsOpen(f)
  {
    ContainsIff(DirectionOf(f), "Open");
    ContainsIff(DirectionOf(f), "Close");
  }

  ghost predicate HasText(fills: seq<Fill>) { exists f | f in fills :: MentionsOpen(f) || MentionsClose(f) }

  /**
   The fills of one trade. With directions: any number that mention Open, and last one that mentions
   Close and not Open. Without: a single fill with a closed PnL.
   */
  ghost predicate GroupByText(sorted: seq<Fill>, g: seq<Fill>) {
    if HasText(sorted) then
      && g != [] && MentionsClose(g[|g| - 1]) && !MentionsOpen(g[|g| - 1])
      && forall i | 0 <= i < |g| - 1 :: MentionsOpen(g[i])
    else |g| == 1 && g[0].closedPnl.Some?
  }

  lemma {:induction false} TextIsDirection(sorted: seq<Fill>)
    ensures HasText(sorted) <==> HasDirection(sorted)
  {
    forall f | f in sorted ensures Acts(f) <==> MentionsOpen(f) || MentionsClose(f) { ActionByText(f); }
  }

  lemma {:induction false} SinglesContents(fills: seq<Fill>)
    ensures forall g :: g in Singles(fills) <==> |g| == 1 && g[0] in fills
  {
    if fills != [] {
      var n := |fills| - 1;
      SinglesContents(fills[..n]);
      assert fills == fills[..n] + [fills[n]];
      assert forall g: seq<Fill> :: |g| == 1 && g[0] == fills[n] ==> g == [fills[n]];
    }
  }

  /** Groups and leftovers of a coin, and the PnL they realize, read off the direction texts. */
  lemma {:induction false} CoinByText(sorted: seq<Fill>)
    ensures forall g | g in GroupsOf(sorted) :: GroupByText(sorted, g)
    ensures !HasText(sorted) ==> forall f | f in sorted && f.closedPnl.Some? :: [f] in GroupsOf(sorted)
    ensures HasText(sorted) ==> forall f | f in Leftover(sorted, []) :: MentionsOpen(f)
    ensures Groupwise(GroupsOf(sorted))
    ensures HasText(sorted) ==> Sum(RealizedOf, Trades(GroupsOf(sorted))) == ClosedPnl(sorted)
  {
    TextIsDirection(sorted);
    GroupsOfAreNonEmpty(sorted);
    if HasText(sorted) {
      GroupsAreSequences(sorted, []);
      forall g | g in GroupsOf(sorted) ensures GroupByText(sorted, g) {
        forall i | 0 <= i < |g| { ActionByText(g[i]); }
      }
      LeftoversOpen(sorted, []);
      forall f | f in Leftover(sorted, []) ensures MentionsOpen(f) { ActionByText(f); }
      RealizedIsClosed(sorted, []);
      ClosedPnlIs(sorted);
    } else {
      SinglesContents(Filter(HasPnl, sorted));
      FilterContents(HasPnl, sorted);
    }
  }

  lemma {:induction false} LeftoversOpen(fills: seq<Fill>, open: seq<Fill>)
    requires forall f | f in open :: ActionOf(f) == Opens
    ensures forall f | f in Leftover(fills, open) :: ActionOf(f) == Opens
    decreases |fills|
  {
    if fills != [] {
      match ActionOf(fills[0])
      case Opens => LeftoversOpen(fills[1..], open + [fills[0]]);
      case Closes => LeftoversOpen(fills[1..], []);
      case Neither => LeftoversOpen(fills[1..], open);
    }
  }

  /** The closed PnL of the fills that mention Close and not Open. */
  ghost function ClosedPnl(fills: seq<Fill>): real {
    if fills == [] then 0.0
    else
      var f := fills[0];
      (if MentionsClose(f) && !MentionsOpen(f) && f.closedPnl.Some? then f.closedPnl.value else 0.0)
      + ClosedPnl(fills[1..])
  }

  lemma {:induction false} ClosedPnlIs(fills: seq<Fill>)
    ensures Sum(PnlOf, Filter(IsClose, fills)) == ClosedPnl(fills)
  {
    if fills != [] {
      ClosedPnlIs(fills[1..]);
      ActionByText(fills[0]);
      SumConcat(PnlOf, if IsClose(fills[0]) then [fills[0]] else [], Filter(IsClose, fills[1..]));
      assert Sum(PnlOf, [fills[0]]) == PnlOf(fills[0]);
    }
  }

  function FeesPaid(g: seq<Fill>): real {
    if g == [] then 0.0 else (if g[0].fee.Some? then g[0].fee.value else 0.0) + FeesPaid(g[1..])
  }

  function SizeOpened(g: seq<Fill>): real { if g == [] then 0.0 else g[0].size + SizeOpened(g[1..]) }

  /** A trade opens at its first fill, closes at its last, and has the size of what opened it. */
  ghost predicate ReadOff(t: Trade, g: seq<Fill>) {
    && g != []
    && var first, close := g[0], g[|g| - 1];
    && t.coin == close.coin && t.side == first.side && t.exitPrice == close.price
    && t.size == (if |g| == 1 then close.size else SizeOpened(g[..|g| - 1]))
    && t.openedAt == first.time && t.closedAt == close.time
    && t.realizedPnl == (if close.closedPnl.Some? then close.closedPnl.value else 0.0)
    && t.fees == FeesPaid(g) && t.numFills == |g|
    && t.id == TradeId(close.coin, multiset(seq(|g|, i requires 0 <= i < |g| => g[i].id)))
  }

  lemma {:induction false} SumsAre(g: seq<Fill>)
    ensures Sum(FeeOf, g) == FeesPaid(g) && Sum(SizeOf, g) == SizeOpened(g)
  {
    if g != [] { SumsAre(g[1..]); }
  }

  lemma {:induction false} IdsAreAll(g: seq<Fill>)
    ensures Ids(g) == multiset(seq(|g|, i requires 0 <= i < |g| => g[i].id))
  {
    if g != [] {
      IdsAreAll(g[1..]);
      var ids, rest := seq(|g|, i requires 0 <= i < |g| => g[i].id),
                       seq(|g| - 1, i requires 0 <= i < |g| - 1 => g[1..][i].id);
      assert ids == [g[0].id] + rest;
    }
  }

  lemma {:induction false} TradeReads(g: seq<Fill>)
    requires g != []
    ensures ReadOff(TradeOf(g), g)
  {
    SumsAre(g);
    SumsAre(g[..|g| - 1]);
    IdsAreAll(g);
  }

  /** The trade is read off the fills of one coin that its directions, or their absence, put together. */
  ghost predicate Grounded(t: Trade, fills: seq<Fill>, coins: seq<string>) {
    exists coin, g | coin in coins && g in GroupsOf(CoinFills(fills, coin)) ::
      ReadOff(t, g) && GroupByText(CoinFills(fills, coin), g)
  }

  lemma {:induction false} TradeIsGrounded(t: Trade, fills: seq<Fill>, coins: seq<string>)
    requires t in FlatMap(CoinTrades(fills), coins)
    ensures Grounded(t, fills, coins)
  {
    InFlatMap(CoinTrades(fills), coins, t);
    var coin :| coin in coins && t in CoinTrades(fills)(coin);
    var ts := CoinTrades(fills)(coin);
    var i :| 0 <= i < |ts| && ts[i] == t;
    TradesByGroup(fills, coin);
    GroundedAt(fills, coins, coin, i);
  }

  lemma {:induction false} TradesByGroup(fills: seq<Fill>, coin: string)
    ensures var ts, groups := CoinTrades(fills)(coin), GroupsOf(CoinFills(fills, coin));
            |ts| == |groups| && forall i | 0 <= i < |ts| :: groups[i] != [] && ts[i] == TradeOf(groups[i])
  {
    var groups := GroupsOf(CoinFills(fills, coin));
    GroupsOfAreNonEmpty(CoinFills(fills, coin));
    TradesAre(groups);
    assert CoinTrades(fills)(coin) == Trades(groups);
  }

  lemma {:induction false} TradesAre(groups: seq<seq<Fill>>)
    requires Groupwise(groups)
    ensures |Trades(groups)| == |groups|
    ensures forall i | 0 <= i < |groups| :: groups[i] != [] && Trades(groups)[i] == TradeOf(groups[i])
  {
    forall i | 0 <= i < |groups| ensures groups[i] != [] { assert groups[i] in groups; }
  }

  lemma {:induction false} GroundedAt(fills: seq<Fill>, coins: seq<string>, coin: string, i: nat)
    requires coin in coins && i < |GroupsOf(CoinFills(fills, coin))|
    ensures var g := GroupsOf(CoinFills(fills, coin))[i]; g != [] && Grounded(TradeOf(g), fills, coins)
  {
    var g := GroupsOf(CoinFills(fills, coin))[i];
    assert g in GroupsOf(CoinFills(fills, coin));
    CoinByText(CoinFills(fills, coin));
    TradeReads(g);
  }

  function InCoins(coins: seq<string>): Fill -> bool { (f: Fill) => f.coin in coins }

  /** Used and unused fills of the listed coins make up those coins' fills. */
  lemma {:induction false} CoinsAccount(fills: seq<Fill>, coins: seq<string>)
    requires NoRepeats(coins)
    ensures multiset(FlatMap(UsedBy(fills), coins)) + multiset(FlatMap(UnusedBy(fills), coins)) ==
            multiset(Filter(InCoins(coins), fills))
  {
    if coins == [] {
      NoCoins(fills);
    } else {
      CoinsAccount(fills, coins[1..]);
      CoinUnion(fills, coins);
      SortBySorts(TimeOf, Filter(OfCoin(coins[0]), fills));
      CoinAccounts(CoinFills(fills, coins[0]));
      FlatMapHead(UsedBy(fills), coins);
      FlatMapHead(UnusedBy(fills), coins);
    }
  }

  lemma {:induction false} FlatMapHead(f: string -> seq<Fill>, coins: seq<string>)
    requires coins != []
    ensures multiset(FlatMap(f, coins)) == multiset(f(coins[0])) + multiset(FlatMap(f, coins[1..]))
  {
  }

  lemma {:induction false} CoinUnion(fills: seq<Fill>, coins: seq<string>)
    requires coins != [] && NoRepeats(coins)
    ensures multiset(Filter(InCoins(coins), fills)) ==
            multiset(Filter(OfCoin(coins[0]), fills)) + multiset(Filter(InCoins(coins[1..]), fills))
  {
    forall f | f in fills
      ensures InCoins(coins)(f) <==> OfCoin(coins[0])(f) || InCoins(coins[1..])(f)
      ensures !(OfCoin(coins[0])(f) && InCoins(coins[1..])(f))
    {
      assert coins == [coins[0]] + coins[1..];
    }
    FilterUnion(InCoins(coins), OfCoin(coins[0]), InCoins(coins[1..]), fills);
  }

  lemma {:induction false} NoCoins(fills: seq<Fill>)
    ensures Filter(InCoins([]), fills) == []
  {
    if fills != [] { NoCoins(fills[1..]); }
  }

  /** Over the whole history every fill is in exactly one trade or in none. */
  lemma {:induction false} HistoryAccounts(fills: seq<Fill>, coins: seq<string>)
    requires ListsCoins(coins, fills)
    ensures multiset(FlatMap(UsedBy(fills), coins)) + multiset(FlatMap(UnusedBy(fills), coins)) == multiset(fills)
  {
    CoinsAccount(fills, coins);
    forall f | f in fills ensures InCoins(coins)(f) { assert f.coin in CoinsOf(fills); }
    FilterKeepsAll(InCoins(coins), fills);
  }

  /** Fees and fill counts over the whole history are those of the fills that its trades use. */
  lemma {:induction false} HistoryTotals(fills: seq<Fill>, coins: seq<string>, trades: seq<Trade>)
    requires multiset(trades) == multiset(FlatMap(CoinTrades(fills), coins))
    ensures Sum(FeesOf, trades) == Sum(FeeOf, FlatMap(UsedBy(fills), coins))
    ensures Sum(CountOf, trades) == |FlatMap(UsedBy(fills), coins)| as real
  {
    SumPermutes(FeesOf, trades, FlatMap(CoinTrades(fills), coins));
    SumPermutes(CountOf, trades, FlatMap(CoinTrades(fills), coins));
    CoinwiseTotals(fills, coins);
  }

  lemma {:induction false} CoinwiseTotals(fills: seq<Fill>, coins: seq<string>)
    ensures Sum(FeesOf, FlatMap(CoinTrades(fills), coins)) == Sum(FeeOf, FlatMap(UsedBy(fills), coins))
    ensures Sum(CountOf, FlatMap(CoinTrades(fills), coins)) == |FlatMap(UsedBy(fills), coins)| as real
  {
    if coins != [] {
      CoinwiseTotals(fills, coins[1..]);
      GroupsOfAreNonEmpty(CoinFills(fills, coins[0]));
      TradeTotals(GroupsOf(CoinFills(fills, coins[0])));
      SumConcat(FeesOf, CoinTrades(fills)(coins[0]), FlatMap(CoinTrades(fills), coins[1..]));
      SumConcat(CountOf, CoinTrades(fills)(coins[0]), FlatMap(CoinTrades(fills), coins[1..]));
      SumConcat(FeeOf, UsedBy(fills)(coins[0]), FlatMap(UsedBy(fills), coins[1..]));
    }
  }

  /**
   Conservation for a coin with direction info: fill counts, fees and realized PnL of the trades,
   together with the opens still waiting, are exactly those of its open and close fills.
   */
  lemma {:induction false} CoinConservation(sorted: seq<Fill>)
    requires SortedBy(TimeOf, sorted) && HasDirection(sorted)
    ensures Groupwise(Groups(sorted, []))
    ensures var trades, left := Trades(Groups(sorted, [])), Leftover(sorted, []);
            && Sum(CountOf, trades) + |left| as real == |Filter(Acts, sorted)| as real
            && Sum(FeesOf, trades) + Sum(FeeOf, left) == Sum(FeeOf, Filter(Acts, sorted))
            && Sum(RealizedOf, trades) == Sum(PnlOf, Filter(IsClose, sorted))
            && forall t | t in trades :: t.openedAt <= t.closedAt
  {
    RealizedIsClosed(sorted, []);
    UsedAndLeft(Groups(sorted, []), Leftover(sorted, []), sorted);
    InOrder(sorted);
  }

  lemma {:induction false} UsedAndLeft(groups: seq<seq<Fill>>, left: seq<Fill>, sorted: seq<Fill>)
    requires Groupwise(groups) && groups == Groups(sorted, []) && left == Leftover(sorted, [])
    ensures Sum(CountOf, Trades(groups)) + |left| as real == |Filter(Acts, sorted)| as real
    ensures Sum(FeesOf, Trades(groups)) + Sum(FeeOf, left) == Sum(FeeOf, Filter(Acts, sorted))
  {
    TradeTotals(groups);
    GroupsPartition(sorted, []);
    assert Flatten(groups) + left == Filter(Acts, sorted);
    SumConcat(FeeOf, Flatten(groups), left);
  }

  lemma {:induction false} InOrder(sorted: seq<Fill>)
    requires SortedBy(TimeOf, sorted) && Groupwise(Groups(sorted, []))
    ensures forall t | t in Trades(Groups(sorted, [])) :: t.openedAt <= t.closedAt
  {
    var groups := Groups(sorted, []);
    forall t | t in Trades(groups) ensures t.openedAt <= t.closedAt {
      var i :| 0 <= i < |groups| && t == Trades(groups)[i];
      OpenedBeforeClosed(sorted, groups[i]);
    }
  }

  // ---------------------------------------------------------------------------
  // Trade ids
  // ---------------------------------------------------------------------------

  function IdOf(f: Fill): int { f.id }

  lemma {:induction false} IdsAre(g: seq<Fill>, id: nat)
    ensures id in Ids(g) <==> exists f | f in g :: f.id == id
  {
    if g != [] {
      IdsAre(g[1..], id);
      assert g == [g[0]] + g[1..];
    }
  }

  lemma {:induction false} FlattenContains(groups: seq<seq<Fill>>, g: seq<Fill>, f: Fill)
    requires g in groups && f in g
    ensures f in Flatten(groups)
  {
    if groups[0] != g {
      assert groups == [groups[0]] + groups[1..];
      FlattenContains(groups[1..], g, f);
    }
  }

  lemma {:induction false} HeadIdUnused(groups: seq<seq<Fill>>, g: seq<Fill>)
    requires Groupwise(groups) && DistinctBy(IdOf, Flatten(groups)) && groups != [] && groups[0] != []
    requires g in groups[1..]
    ensures groups[0][0].id !in Ids(g)
  {
    var first, rest := groups[0], Flatten(groups[1..]);
    forall f | f in g ensures f.id != first[0].id {
      FlattenContains(groups[1..], g, f);
      var k :| 0 <= k < |rest| && rest[k] == f;
      assert (first + rest)[0] == first[0] && (first + rest)[|first| + k] == f;
    }
    IdsAre(g, first[0].id);
  }

  /** Groups whose fills have distinct ids give trades with distinct ids. */
  lemma {:induction false} TradeIdsDistinct(groups: seq<seq<Fill>>, i: nat, j: nat)
    requires Groupwise(groups) && DistinctBy(IdOf, Flatten(groups)) && i < j < |groups|
    ensures groups[i] != [] && groups[j] != [] && TradeOf(groups[i]).id != TradeOf(groups[j]).id
  {
    assert groups[i] in groups && groups[j] in groups;
    if i == 0 {
      assert groups[j] == groups[1..][j - 1];
      HeadIdUnused(groups, groups[j]);
      IdsAre(groups[0], groups[0][0].id);
    } else {
      TailDistinct(groups);
      TradeIdsDistinct(groups[1..], i - 1, j - 1);
    }
  }

  lemma {:induction false} TailDistinct(groups: seq<seq<Fill>>)
    requires groups != [] && Groupwise(groups) && DistinctBy(IdOf, Flatten(groups))
    ensures Groupwise(groups[1..]) && DistinctBy(IdOf, Flatten(groups[1..]))
  {
    var first, rest := groups[0], Flatten(groups[1..]);
    assert forall k | 0 <= k < |rest| :: rest[k] == (first + rest)[|first| + k];
    assert forall g | g in groups[1..] :: g in groups;
  }

  lemma {:induction false} UsedIdsDistinct(fills: seq<Fill>, coin: string)
    requires DistinctBy(IdOf, fills)
    ensures DistinctBy(IdOf, UsedBy(fills)(coin))
    ensures forall f | f in UsedBy(fills)(coin) :: f.coin == coin
  {
    var mine, sorted := Filter(OfCoin(coin), fills), CoinFills(fills, coin);
    var used, all := UsedBy(fills)(coin), UsedBy(fills)(coin) + UnusedBy(fills)(coin);
    FilterKeepsDistinct(IdOf, OfCoin(coin), fills);
    FilterContents(OfCoin(coin), fills);
    SortBySorts(TimeOf, mine);
    CoinAccounts(sorted);
    assert multiset(all) == multiset(mine);
    SameElements(all, mine);
    forall i, j | 0 <= i < j < |used| ensures IdOf(used[i]) != IdOf(used[j]) {
      assert used[i] == all[i] && used[j] == all[j];
      DistinctKeysPermute(IdOf, mine, all, i, j);
    }
    forall f | f in used ensures f.coin == coin { assert f in all; }
  }

  function GroupIn(fills: seq<Fill>, coin: string, i: nat): seq<Fill>
    requires i < |GroupsOf(CoinFills(fills, coin))|
  {
    GroupsOf(CoinFills(fills, coin))[i]
  }

  lemma {:induction false} TradeCoin(fills: seq<Fill>, coin: string, i: nat)
    requires DistinctBy(IdOf, fills) && i < |GroupsOf(CoinFills(fills, coin))|
    ensures GroupIn(fills, coin, i) != [] && TradeOf(GroupIn(fills, coin, i)).coin == coin
    ensures TradeOf(GroupIn(fills, coin, i)).id.coin == coin
  {
    var groups := GroupsOf(CoinFills(fills, coin));
    var g := groups[i];
    GroupsOfAreNonEmpty(CoinFills(fills, coin));
    UsedIdsDistinct(fills, coin);
    assert g in groups;
    FlattenContains(groups, g, g[|g| - 1]);
  }

  /** Over the whole history, of any coins, two trades never share an id: saving one does not overwrite another. */
  lemma {:induction false} HistoryIdsDistinct(fills: seq<Fill>, coin: string, i: nat, other: string, j: nat)
    requires DistinctBy(IdOf, fills) && (coin != other || i != j)
    requires i < |GroupsOf(CoinFills(fills, coin))| && j < |GroupsOf(CoinFills(fills, other))|
    ensures GroupIn(fills, coin, i) != [] && GroupIn(fills, other, j) != []
    ensures TradeOf(GroupIn(fills, coin, i)).id != TradeOf(GroupIn(fills, other, j)).id
  {
    TradeCoin(fills, coin, i);
    TradeCoin(fills, other, j);
    if coin == other {
      UsedIdsDistinct(fills, coin);
      GroupsOfAreNonEmpty(CoinFills(fills, coin));
      if i < j {
        TradeIdsDistinct(GroupsOf(CoinFills(fills, coin)), i, j);
      } else {
        TradeIdsDistinct(GroupsOf(CoinFills(fills, coin)), j, i);
      }
    }
  }
}
