/** Markets, all of them in good order, in which the code falls short of its comments or assertions. */
module Shortfalls {
  import opened Wrappers
  import opened Constants
  import opened Prices
  import opened Sums
  import opened MarketState
  import opened MarketFill
  import opened Sound
  import opened Ranking
  import opened MarginCalls
  import opened MarginLoop
  import opened CheckCalls
  import opened ForceSettlement
  import opened ClearSettlements
  import opened LeastCollateral
  import opened Operations
  import opened AssetOperations
  import opened AssetCreation
  import opened MarketRun
  import U = UpdateCall

  const USD: Asset := 1

  lemma SumOne<K, V>(m: map<K, V>, w: (K, V) -> int, k: K)
    requires m.Keys == {k}
    ensures SumBy(m, w) == w(k, m[k])
  {
    SumTake(m, w, k);
    assert m - {k} == map[];
  }

  lemma SumTwo<K, V>(m: map<K, V>, w: (K, V) -> int, k: K, j: K)
    requires m.Keys == {k, j} && k != j
    ensures SumBy(m, w) == w(k, m[k]) + w(j, m[j])
  {
    SumTake(m, w, k);
    SumOne(m - {k}, w, j);
  }

  // ----- a bid is stepped over ------------------------------------------------------------------------

  /** A market-issued asset backed by core. */
  function Dollar(supply: int, feed: Option<Feed>, settlement: Option<Price>, fund: nat): AssetData {
    AssetData(supply, 0, 0, 0, 0, Some(BitAsset(CORE, feed, false, settlement, fund, 0, HUNDRED_PERCENT, 0)))
  }

  function Core(supply: int): AssetData {
    AssetData(supply, 0, 0, 0, 0, None)
  }

  function InCore(price: Price, squeeze: Price): Option<Feed> {
    Some(Feed(price, CORE, squeeze, 1750, 1500))
  }

  function Bid(seller: Account, amount: nat): LimitOrder {
    LimitOrder(seller, amount, USD, CORE, Price(1, 1), 0)
  }

  function Short(who: Account, collateral: nat, debt: nat): CallOrder {
    CallOrder(who, collateral, debt, CORE, USD, Price(6, 7))
  }

  /** Two positions that may be called, and two bids at one for one; the second bid can serve both. */
  function TwoBids(x: Account, y: Account): Market {
    Market(map[(x, USD) := 6], map[0 := Bid(x, 4), 1 := Bid(y, 10)], map[0 := Short(x, 15, 10), 1 := Short(y, 15, 10)], map[],
           map[CORE := Core(30), USD := Dollar(20, InCore(Price(1, 1), Price(2, 3)), None, 0)], map[], Due(CORE, 0), 0)
  }

  /** After the first bid was used up. */
  function OneUsed(x: Account, y: Account): Market {
    Market(map[(x, USD) := 6, (x, CORE) := 4], map[1 := Bid(y, 10)], map[0 := Short(x, 11, 6), 1 := Short(y, 15, 10)], map[],
           map[CORE := Core(30), USD := Dollar(16, InCore(Price(1, 1), Price(2, 3)), None, 0)], map[], Due(CORE, 0), 0)
  }

  /** After the first position was closed. */
  function OneClosed(x: Account, y: Account): Market {
    Market(map[(x, USD) := 6, (x, CORE) := 9, (y, CORE) := 6], map[1 := Bid(y, 4)], map[1 := Short(y, 15, 10)], map[],
           map[CORE := Core(30), USD := Dollar(10, InCore(Price(1, 1), Price(2, 3)), None, 0)], map[], Due(CORE, 0), 0)
  }

  lemma TwoBidsBalances(x: Account, y: Account, a: Asset)
    ensures SumBy(TwoBids(x, y).balances, BalanceIn(a)) == If(a == USD, 6)
  {
    SumOne<(Account, Asset), nat>(TwoBids(x, y).balances, BalanceIn(a), (x, USD));
  }

  lemma TwoBidsOrders(x: Account, y: Account, a: Asset)
    ensures SumBy(TwoBids(x, y).orders, SaleIn(a)) == If(a == USD, 14)
  {
    SumTwo(TwoBids(x, y).orders, SaleIn(a), 0, 1);
  }

  lemma TwoBidsCalls(x: Account, y: Account, a: Asset)
    ensures SumBy(TwoBids(x, y).calls, CollateralIn(a)) == If(a == CORE, 30)
    ensures SumBy(TwoBids(x, y).calls, DebtIn(a)) == If(a == USD, 20)
  {
    SumTwo(TwoBids(x, y).calls, CollateralIn(a), 0, 1);
    SumTwo(TwoBids(x, y).calls, DebtIn(a), 0, 1);
  }

  lemma TwoBidsSums(x: Account, y: Account, a: Asset)
    ensures var m := TwoBids(x, y);
      Books(m, a) && Debts(m, a) == If(a == USD, 20)
  {
    TwoBidsBalances(x, y, a);
    TwoBidsOrders(x, y, a);
    TwoBidsCalls(x, y, a);
    SumTwo(TwoBids(x, y).assets, PoolsIn(a), CORE, USD);
  }

  lemma TwoBidsHealthy(x: Account, y: Account)
    requires x != y
    ensures Healthy(TwoBids(x, y)) && Idle(TwoBids(x, y))
  {
    var m := TwoBids(x, y);
    assert AssetOk(m, CORE) && AssetOk(m, USD);
    forall a ensures Books(m, a) { TwoBidsSums(x, y, a); }
  }

  lemma FirstIs(prices: map<Id, Price>, i: Id)
    requires Rankable(prices) && IsFirst(prices, i)
    ensures First(prices) == i
  {
    FirstUnique(prices, i, First(prices));
  }

  /** What a turn does when position i is called first, is no swan, and bid j is the first in view. */
  lemma TurnIs(m: Market, passed: set<Id>, i: Id, j: Id, called: bool)
    requires WellFormed(m) && Live(m, USD) && Unsettled(m, USD) && Bit(m, USD).value.feed == InCore(Price(1, 1), Price(2, 3))
    requires Bit(m, USD).value.backing == CORE && IsFirst(Positions(m, USD), i) && IsFirst(InView(m, USD, passed), j)
    requires i in m.calls && m.calls[i].callPrice == Price(6, 7) && m.calls[i].debt < m.calls[i].collateral
    requires j in m.orders && m.orders[j].price == Price(1, 1)
    ensures TakeTurn(m, USD, passed, called, true) == Go(i, j)
  {
    PositionsRankable(m, USD);
    InViewRankable(m, USD, passed);
    FirstIs(Positions(m, USD), i);
    FirstIs(InView(m, USD, passed), j);
    assert !SwanAt(m, USD);
  }

  /** Four are bought for four: what the position and the supply come to, and what is left to be paid out. */
  function FirstPaidOff(x: Account, y: Account): Market {
    TwoBids(x, y).(calls := OneUsed(x, y).calls, assets := OneUsed(x, y).assets)
  }

  lemma FirstPays(x: Account, y: Account)
    requires x != y
    ensures Callable(TwoBids(x, y), 0, 0) && Deal(TwoBids(x, y), 0, 0) == (4, 4)
    ensures PaidOff(TwoBids(x, y), 0, 0) == FirstPaidOff(x, y)
  {
    var m := TwoBids(x, y);
    PaidOffFrame(m, 0, 0);
    assert PaidOff(m, 0, 0).calls == OneUsed(x, y).calls;
    assert PaidOff(m, 0, 0).assets == OneUsed(x, y).assets;
  }

  lemma FirstFilled(x: Account, y: Account)
    requires x != y
    ensures var m := FirstPaidOff(x, y); Fees(m, CORE) && FillLimit(m, 0, 4, 4, true) == (OneUsed(x, y), true)
  {
    var m := FirstPaidOff(x, y);
    assert PaySeller(m, Bid(x, 4), 4).balances == OneUsed(x, y).balances;
    assert m.orders - {0} == OneUsed(x, y).orders;
  }

  lemma FirstCall(x: Account, y: Account)
    requires x != y
    ensures Callable(TwoBids(x, y), 0, 0) && Execute(TwoBids(x, y), 0, 0) == OneUsed(x, y)
  {
    FirstPays(x, y);
    FirstFilled(x, y);
  }

  /** Six are bought for six, and the position is closed. */
  function SecondPaidOff(x: Account, y: Account): Market {
    OneUsed(x, y).(balances := map[(x, USD) := 6, (x, CORE) := 9], calls := OneClosed(x, y).calls, assets := OneClosed(x, y).assets)
  }

  lemma SecondPays(x: Account, y: Account)
    requires x != y
    ensures Callable(OneUsed(x, y), 0, 1) && Deal(OneUsed(x, y), 0, 1) == (6, 6)
    ensures PaidOff(OneUsed(x, y), 0, 1) == SecondPaidOff(x, y)
  {
    var m := OneUsed(x, y);
    PaidOffFrame(m, 0, 1);
    assert m.calls - {0} == OneClosed(x, y).calls;
    assert PaidOff(m, 0, 1).assets == OneClosed(x, y).assets;
    assert PaidOff(m, 0, 1).balances == SecondPaidOff(x, y).balances;
  }

  lemma SecondFilled(x: Account, y: Account)
    requires x != y
    ensures var m := SecondPaidOff(x, y); Fees(m, CORE) && FillLimit(m, 1, 6, 6, true) == (OneClosed(x, y), false)
  {
    var m := SecondPaidOff(x, y);
    assert PaySeller(m, Bid(y, 10), 6).balances == OneClosed(x, y).balances;
    assert m.orders[1 := Bid(y, 4)] == OneClosed(x, y).orders;
    assert !Dust(Bid(y, 4));
  }

  lemma SecondCall(x: Account, y: Account)
    requires x != y
    ensures Callable(OneUsed(x, y), 0, 1) && Execute(OneUsed(x, y), 0, 1) == OneClosed(x, y)
  {
    SecondPays(x, y);
    SecondFilled(x, y);
  }

  /** No bid is in view any more. */
  lemma LastTurnEnds(x: Account, y: Account)
    requires x != y
    requires WellFormed(OneClosed(x, y))
    ensures TakeTurn(OneClosed(x, y), USD, {0, 1}, true, true) == Halt(Some((OneClosed(x, y), true)))
  {
    var m := OneClosed(x, y);
    assert InView(m, USD, {0, 1}) == map[];
    PositionsRankable(m, USD);
    FirstIs(Positions(m, USD), 1);
    assert !SwanAt(m, USD);
  }

  lemma OneUsedKept(x: Account, y: Account)
    requires x != y
    ensures WellFormed(OneUsed(x, y)) && Live(OneUsed(x, y), USD)
  {
    TwoBidsHealthy(x, y);
    FirstCall(x, y);
    ExecuteKeeps(TwoBids(x, y), 0, 0);
  }

  lemma OneClosedKept(x: Account, y: Account)
    requires x != y
    ensures WellFormed(OneClosed(x, y)) && Live(OneClosed(x, y), USD)
  {
    OneUsedKept(x, y);
    SecondCall(x, y);
    ExecuteKeeps(OneUsed(x, y), 0, 1);
  }

  /** One more turn of the loop. */
  lemma TurnGoes(m: Market, m': Market, passed: set<Id>, passed': set<Id>, i: Id, j: Id, stale: bool, called: bool)
    requires WellFormed(m) && WellFormed(m') && Live(m, USD) && Live(m', USD) && TakeTurn(m, USD, passed, called, true) == Go(i, j)
    requires Callable(m, i, j) && Execute(m, i, j) == m' && UsedUp(m, i, j, stale) && passed' == passed + {j}
    ensures CallLoop(m, USD, passed, stale, called, true) == CallLoop(m', USD, passed', true, true, true)
  {}

  lemma TwoBidsKept(x: Account, y: Account)
    requires x != y
    ensures WellFormed(TwoBids(x, y)) && Live(TwoBids(x, y), USD)
  {
    TwoBidsHealthy(x, y);
  }

  lemma FirstTakes(x: Account, y: Account)
    requires WellFormed(TwoBids(x, y)) && Live(TwoBids(x, y), USD)
    ensures TakeTurn(TwoBids(x, y), USD, {}, false, true) == Go(0, 0)
  {
    TurnIs(TwoBids(x, y), {}, 0, 0, false);
  }

  lemma SecondTakes(x: Account, y: Account)
    requires WellFormed(OneUsed(x, y)) && Live(OneUsed(x, y), USD)
    ensures TakeTurn(OneUsed(x, y), USD, {0}, true, true) == Go(0, 1)
  {
    TurnIs(OneUsed(x, y), {0}, 0, 1, true);
  }

  lemma FirstTurn(x: Account, y: Account)
    requires x != y
    ensures WellFormed(TwoBids(x, y)) && WellFormed(OneUsed(x, y)) && Live(TwoBids(x, y), USD) && Live(OneUsed(x, y), USD)
    ensures CallLoop(TwoBids(x, y), USD, {}, false, false, true) == CallLoop(OneUsed(x, y), USD, {0}, true, true, true)
  {
    TwoBidsKept(x, y);
    OneUsedKept(x, y);
    FirstCall(x, y);
    FirstTakes(x, y);
    assert UsedUp(TwoBids(x, y), 0, 0, false);
    TurnGoes(TwoBids(x, y), OneUsed(x, y), {}, {0}, 0, 0, false, false);
  }

  lemma SecondTurn(x: Account, y: Account)
    requires x != y
    ensures WellFormed(OneUsed(x, y)) && WellFormed(OneClosed(x, y)) && Live(OneUsed(x, y), USD) && Live(OneClosed(x, y), USD)
    ensures CallLoop(OneUsed(x, y), USD, {0}, true, true, true) == CallLoop(OneClosed(x, y), USD, {0, 1}, true, true, true)
  {
    OneUsedKept(x, y);
    OneClosedKept(x, y);
    SecondCall(x, y);
    SecondTakes(x, y);
    assert {0} + {1} == {0, 1};
    TurnGoes(OneUsed(x, y), OneClosed(x, y), {0}, {0, 1}, 0, 1, true, true);
  }

  lemma ThirdTurn(x: Account, y: Account)
    requires x != y
    ensures WellFormed(OneClosed(x, y)) && Live(OneClosed(x, y), USD)
    ensures CallLoop(OneClosed(x, y), USD, {0, 1}, true, true, true) == Some((OneClosed(x, y), true))
  {
    OneClosedKept(x, y);
    LastTurnEnds(x, y);
  }

  lemma NoSwanAtFirst(x: Account, y: Account)
    requires x != y
    ensures WellFormed(TwoBids(x, y)) && CheckSwan(TwoBids(x, y), USD, true) == Some((TwoBids(x, y), false))
  {
    TwoBidsHealthy(x, y);
    PositionsRankable(TwoBids(x, y), USD);
    FirstIs(Positions(TwoBids(x, y), USD), 0);
  }

  lemma FirstInView(x: Account, y: Account)
    ensures Live(TwoBids(x, y), USD) && !Bit(TwoBids(x, y), USD).value.prediction && 0 in InView(TwoBids(x, y), USD, {})
  {}

  lemma RunIsLoop(m: Market, a: Asset, j: Id)
    requires WellFormed(m) && Live(m, a) && !Bit(m, a).value.prediction && CheckSwan(m, a, true) == Some((m, false))
    requires j in InView(m, a, {})
    ensures CheckCallOrders(m, a, true) == CallLoop(m, a, {}, false, false, true)
  {}

  lemma LoopLeads(x: Account, y: Account)
    requires x != y
    ensures WellFormed(TwoBids(x, y)) && Live(TwoBids(x, y), USD)
    ensures CallLoop(TwoBids(x, y), USD, {}, false, false, true) == Some((OneClosed(x, y), true))
  {
    FirstTurn(x, y);
    SecondTurn(x, y);
    ThirdTurn(x, y);
  }

  lemma NextRunCalls(x: Account, y: Account)
    requires x != y
    ensures WellFormed(OneClosed(x, y)) && Live(OneClosed(x, y), USD) && TakeTurn(OneClosed(x, y), USD, {}, false, true) == Go(1, 1)
  {
    OneClosedKept(x, y);
    TurnIs(OneClosed(x, y), {}, 1, 1, false);
  }

  lemma RunLeads(x: Account, y: Account)
    requires x != y && WellFormed(TwoBids(x, y))
    ensures CheckCallOrders(TwoBids(x, y), USD, true) == Some((OneClosed(x, y), true))
  {
    NoSwanAtFirst(x, y);
    LoopLeads(x, y);
    FirstInView(x, y);
    RunIsLoop(TwoBids(x, y), USD, 0);
  }

  /** The run calls the first position against both bids, and then ends, although it could call the second
      position against the second bid; the next run does. */
  lemma BidSteppedOver(x: Account, y: Account)
    requires x != y
    ensures var m, m' := TwoBids(x, y), OneClosed(x, y);
      && Healthy(m) && WellFormed(m') && Live(m', USD)
      && CheckCallOrders(m, USD, true) == Some((m', true)) && TakeTurn(m', USD, {}, false, true) == Go(1, 1)
  {
    TwoBidsHealthy(x, y);
    RunLeads(x, y);
    NextRunCalls(x, y);
  }

  // ----- a swan is overlooked -----------------------------------------------------------------------------

  /** The two positions as the first call above leaves them, without bids and at a lower feed. */
  function Drifted(x: Account, y: Account): Market {
    Market(map[(x, USD) := 16, (x, CORE) := 4], map[], map[0 := Short(x, 11, 6), 1 := Short(y, 15, 10)], map[],
           map[CORE := Core(30), USD := Dollar(16, InCore(Price(6, 10), Price(2, 5)), None, 0)], map[], Due(CORE, 0), 0)
  }

  lemma DriftedSums(x: Account, y: Account, a: Asset)
    ensures Books(Drifted(x, y), a)
  {
    var m := Drifted(x, y);
    SumTwo<(Account, Asset), nat>(m.balances, BalanceIn(a), (x, USD), (x, CORE));
    SumTwo(m.calls, CollateralIn(a), 0, 1);
    SumTwo(m.calls, DebtIn(a), 0, 1);
    SumTwo(m.assets, PoolsIn(a), CORE, USD);
  }

  lemma DriftedHealthy(x: Account, y: Account)
    ensures Healthy(Drifted(x, y)) && Idle(Drifted(x, y))
  {
    var m := Drifted(x, y);
    assert AssetOk(m, CORE) && AssetOk(m, USD);
    forall a ensures Books(m, a) { DriftedSums(x, y, a); }
  }

  /** The second position has 15 of collateral for a debt of 10, which the feed has reached. The first has the
      same call price, but 11 for 6, and it is the one that the check looks at. */
  lemma SwanOverlooked(x: Account, y: Account)
    ensures var m := Drifted(x, y);
      && Healthy(m) && Idle(m) && m.calls == OneUsed(x, y).calls
      && CheckSwan(m, USD, true) == Some((m, false)) && SwanMeant(m, USD) && 1 in Positions(m, USD) && !FirstIsLeast(m, USD)
  {
    var m := Drifted(x, y);
    DriftedHealthy(x, y);
    PositionsRankable(m, USD);
    FirstIs(Positions(m, USD), 0);
    assert Bids(m, USD, CORE) == map[];
    assert ReachesBoth(m, USD, m.calls[1]);
    assert !AtLeast(SwanPrice(m.calls[0]), SwanPrice(m.calls[1]));
  }

  // ----- a position is left without collateral -----------------------------------------------------------

  /** One position that may be called, and a bid that is smaller than the debt but costs all its collateral. */
  function DearBid(x: Account): Market {
    Market(map[(x, USD) := 4], map[0 := LimitOrder(x, 15, USD, CORE, Price(15, 1), 0)],
           map[0 := CallOrder(x, 1, 19, CORE, USD, Price(1, 33))], map[],
           map[CORE := Core(1), USD := Dollar(19, InCore(Price(20, 1), Price(40, 3)), None, 0)], map[], Due(CORE, 0), 0)
  }

  lemma DearBidSums(x: Account, a: Asset)
    ensures Books(DearBid(x), a)
  {
    var m := DearBid(x);
    SumOne<(Account, Asset), nat>(m.balances, BalanceIn(a), (x, USD));
    SumOne(m.orders, SaleIn(a), 0);
    SumOne(m.calls, CollateralIn(a), 0);
    SumOne(m.calls, DebtIn(a), 0);
    SumTwo(m.assets, PoolsIn(a), CORE, USD);
  }

  lemma DearBidHealthy(x: Account)
    ensures Healthy(DearBid(x))
  {
    var m := DearBid(x);
    assert AssetOk(m, CORE) && AssetOk(m, USD);
    forall a ensures Books(m, a) { DearBidSums(x, a); }
  }

  lemma DearBidTurn(x: Account)
    requires WellFormed(DearBid(x))
    ensures TakeTurn(DearBid(x), USD, {}, false, true) == Go(0, 0)
  {
    var m := DearBid(x);
    PositionsRankable(m, USD);
    InViewRankable(m, USD, {});
    FirstIs(Positions(m, USD), 0);
    FirstIs(InView(m, USD, {}), 0);
    assert !SwanAt(m, USD);
  }

  /** The run of margin calls takes this turn, and its next one is a swan. */
  lemma LeavesBare(x: Account)
    ensures Healthy(DearBid(x)) && TakeTurn(DearBid(x), USD, {}, false, true) == Go(0, 0) && Callable(DearBid(x), 0, 0)
    ensures var m' := Execute(DearBid(x), 0, 0); 0 in m'.calls && m'.calls[0].collateral == 0 && m'.calls[0].debt == 4
  {
    DearBidHealthy(x);
    DearBidTurn(x);
    ExecuteFrame(DearBid(x), 0, 0);
  }

  // ----- a position is not found -------------------------------------------------------------------------

  /** One position that owes more than there can be of anything for each unit of its collateral, and a request
      for a single unit. */
  function HugeDebt(): Market {
    Market(map[(7, USD) := 2 * MAX_SHARES - 1], map[], map[0 := CallOrder(7, 1, 2 * MAX_SHARES, CORE, USD, Price(1, 875_000_000_000_001))],
           map[0 := Settlement(7, 1, USD, 0)],
           map[CORE := Core(1), USD := Dollar(2 * MAX_SHARES, InCore(Price(4 * MAX_SHARES, 1), Price(1, 1)), None, 0)], map[], Due(CORE, 0), 0)
  }

  lemma HugeDebtSums(a: Asset)
    ensures Books(HugeDebt(), a)
  {
    var m := HugeDebt();
    SumOne<(Account, Asset), nat>(m.balances, BalanceIn(a), (7, USD));
    SumOne(m.calls, CollateralIn(a), 0);
    SumOne(m.calls, DebtIn(a), 0);
    SumOne(m.settles, SettleIn(a), 0);
    SumTwo(m.assets, PoolsIn(a), CORE, USD);
  }

  lemma HugeDebtHealthy()
    ensures Healthy(HugeDebt())
  {
    var m := HugeDebt();
    assert AssetOk(m, CORE) && AssetOk(m, USD);
    forall a ensures Books(m, a) { HugeDebtSums(a); }
  }

  lemma HugeDebtBlocks()
    requires Healthy(HugeDebt())
    ensures var m := HugeDebt(); !Full(m, USD) && Settleable(m, 0) && SettleOne(m, 0).None?
  {
    var m := HugeDebt();
    assert ByCollateral(m, USD) == map[];
    SettleOneDeals(m, 0);
    NoPositionOutruns(m, USD, SettlePrice(m, 0), 1);
  }

  /** There is a position, but the search does not find it, and the run throws. */
  lemma PositionNotFound()
    ensures Healthy(HugeDebt()) && ClearFrom(HugeDebt(), 0, CORE).None?
  {
    HugeDebtHealthy();
    HugeDebtBlocks();
    assert 0 in From(HugeDebt(), CORE);
    FirstBlocks(HugeDebt(), 0);
  }

  lemma FirstBlocks(m: Market, k: Id)
    requires Sound.Sound(m) && m.settles.Keys == {k} && k in From(m, CORE) && Bit(m, m.settles[k].asset).Some?
    requires Consider(m, k, 0).Settle? && SettleOne(m, k).None?
    ensures ClearFrom(m, 0, CORE).None?
  {
    assert NextRequest(m, From(m, CORE)) == k;
    assert ClearTurn(m, 0, CORE).None?;
  }

  // ----- a holder is not paid ----------------------------------------------------------------------------

  /** A globally settled asset without a feed. */
  function NoFeedLeft(): Market {
    Market(map[(7, USD) := 2], map[], map[], map[],
           map[CORE := Core(2), USD := Dollar(2, None, Some(Price(2, 2)), 2)], map[], Due(CORE, 0), 0)
  }

  lemma NoFeedLeftSums(a: Asset)
    ensures Books(NoFeedLeft(), a)
  {
    var m := NoFeedLeft();
    SumOne<(Account, Asset), nat>(m.balances, BalanceIn(a), (7, USD));
    SumTwo(m.assets, PoolsIn(a), CORE, USD);
  }

  /** The fund would pay, but the holder is refused. */
  lemma HolderRefused(date: nat)
    ensures Healthy(NoFeedLeft()) && Redeem(NoFeedLeft(), 7, USD, 2).Some?
    ensures AssetOperations.Settle(NoFeedLeft(), 7, USD, 2, date, true).None?
  {
    var m := NoFeedLeft();
    assert AssetOk(m, CORE) && AssetOk(m, USD);
    forall a ensures Books(m, a) { NoFeedLeftSums(a); }
  }

  // ----- a block cannot be produced ----------------------------------------------------------------------

  const GOLD: Asset := 1
  const EURO: Asset := 2

  function Free(w: Account): Fee {
    Fee(w, CORE, 0, 0)
  }

  /** The euro's feed is in gold, which backs it when the feed is published. */
  function InGold(): Option<Feed> {
    Some(Feed(Price(1, 1), GOLD, Price(2, 3), 1750, 1500))
  }

  function Euro(supply: int, backing: Asset, feed: Option<Feed>): AssetData {
    AssetData(supply, 0, 0, 0, 0, Some(BitAsset(backing, feed, false, None, 0, 0, HUNDRED_PERCENT, 0)))
  }

  function Stage(balances: map<(Account, Asset), nat>, calls: map<Id, CallOrder>, settles: map<Id, Settlement>, euro: AssetData): Market {
    Market(balances, map[], calls, settles, map[CORE := Core(4), GOLD := Core(0), EURO := euro], map[], Due(CORE, 0), 0)
  }

  /** Gold and euros are created; the euro gets a feed; core comes to back it; somebody borrows two euros
      against four core, and asks for the settlement of one. */
  function Steps(w: Account): seq<Event> {
    [Operation(Free(w), NewAsset(Plan(0, 0, None))),
     Operation(Free(w), NewAsset(Plan(0, 0, Some(BitPlan(GOLD, false, 0, HUNDRED_PERCENT))))),
     Operation(Free(w), Publish(EURO, InGold())),
     Operation(Free(w), Options(EURO, CORE, 0, HUNDRED_PERCENT, Kept)),
     Operation(Free(w), Update(U.Amendment(w, EURO, 2, 4, Price(8, 7)))),
     Operation(Free(w), Op.Settle(w, EURO, 1, 0, true))]
  }

  function Stages(w: Account, i: nat): Market {
    var rich, poor := map[(w, CORE) := 4], map[(w, CORE) := 0, (w, EURO) := 2];
    var short := map[0 := CallOrder(w, 4, 2, CORE, EURO, Price(8, 7))];
    if i == 0 then Market(rich, map[], map[], map[], map[CORE := Core(4)], map[], Due(CORE, 0), 0)
    else if i == 1 then Market(rich, map[], map[], map[], map[CORE := Core(4), GOLD := Core(0)], map[], Due(CORE, 0), 0)
    else if i == 2 then Stage(rich, map[], map[], Euro(0, GOLD, None))
    else if i == 3 then Stage(rich, map[], map[], Euro(0, GOLD, InGold()))
    else if i == 4 then Stage(rich, map[], map[], Euro(0, CORE, InGold()))
    else if i == 5 then Stage(poor, short, map[], Euro(2, CORE, InGold()))
    else Stage(map[(w, CORE) := 0, (w, EURO) := 1], short, map[0 := Settlement(w, 1, EURO, 0)], Euro(2, CORE, InGold()))
  }

  lemma StartsAtGenesis(w: Account)
    ensures Stages(w, 0) == Genesis(map[(w, CORE) := 4]) && Healthy(Stages(w, 0)) && Idle(Stages(w, 0))
  {
    SumOne<(Account, Asset), nat>(map[(w, CORE) := 4], BalanceIn(CORE), (w, CORE));
    GenesisHealthy(map[(w, CORE) := 4]);
  }

  /** A fee of nothing changes nothing. */
  lemma FreeBooked(m: Market, w: Account)
    requires CORE in m.assets && m.due == Due(CORE, 0)
    ensures Payable(m, Free(w)) && Book(m, Free(w)) == m && TakeFee(m, w) == Some(m)
  {}

  lemma NewId(ids: set<Id>, id: Id)
    requires id in ids && forall i :: i in ids ==> i <= id
    ensures Later(ids) == id + 1
  {}

  lemma GoldCreated(w: Account)
    requires Healthy(Stages(w, 0)) && Idle(Stages(w, 0))
    ensures Result(Stages(w, 0), Steps(w)[0]) == Some(Stages(w, 1))
  {
    FreeBooked(Stages(w, 0), w);
    NewId(Stages(w, 0).assets.Keys, CORE);
    FreeBooked(Stages(w, 1), w);
  }

  lemma EuroCreated(w: Account)
    requires Healthy(Stages(w, 1)) && Idle(Stages(w, 1))
    ensures Result(Stages(w, 1), Steps(w)[1]) == Some(Stages(w, 2))
  {
    FreeBooked(Stages(w, 1), w);
    NewId(Stages(w, 1).assets.Keys, GOLD);
    FreeBooked(Stages(w, 2), w);
  }

  lemma FeedPublished(w: Account)
    requires Healthy(Stages(w, 2)) && Idle(Stages(w, 2))
    ensures Result(Stages(w, 2), Steps(w)[2]) == Some(Stages(w, 3))
  {
    var m := Stages(w, 2);
    FreeBooked(m, w);
    var m1 := WithBit(m, EURO, Bit(m, EURO).value.(feed := InGold()));
    assert m1 == Stages(w, 3);
    TermsSound(m, EURO, m1.assets[EURO]);
    assert Positions(m1, EURO) == map[] && InView(m1, EURO, {}) == map[];
    FreeBooked(Stages(w, 3), w);
  }

  lemma BackingChanged(w: Account)
    requires Healthy(Stages(w, 3)) && Idle(Stages(w, 3))
    ensures Result(Stages(w, 3), Steps(w)[3]) == Some(Stages(w, 4))
  {
    FreeBooked(Stages(w, 3), w);
    var m := WithBit(Stages(w, 3), EURO, Bit(Stages(w, 3), EURO).value.(backing := CORE));
    assert m.assets == Stages(w, 4).assets;
    FreeBooked(Stages(w, 4), w);
  }

  lemma EurosBorrowed(w: Account)
    requires Healthy(Stages(w, 4)) && Idle(Stages(w, 4))
    ensures Result(Stages(w, 4), Steps(w)[4]) == Some(Stages(w, 5))
  {
    var m, x := Stages(w, 4), U.Amendment(w, EURO, 2, 4, Price(8, 7));
    FreeBooked(m, w);
    EurosExchanged(w);
    U.AppliedSound(m, x);
    NotCalled(w);
    FreeBooked(Stages(w, 5), w);
  }

  lemma EurosExchanged(w: Account)
    ensures var m, x := Stages(w, 4), U.Amendment(w, EURO, 2, 4, Price(8, 7));
      && U.Open(m, x) && U.Exchange(m, x).Some? && U.Position(U.Exchange(m, x).value, x) == 0 && U.Applied(m, x) == Some(Stages(w, 5))
  {
    var m, x := Stages(w, 4), U.Amendment(w, EURO, 2, 4, Price(8, 7));
    var m1 := U.Exchange(m, x).value;
    assert m1.balances == Stages(w, 5).balances && m1.assets == Stages(w, 5).assets && m1.calls == map[];
    assert U.His(m1, x) == {};
    assert Later(m1.calls.Keys) == 0;
  }

  /** The position is above any feed in gold. */
  lemma NotCalled(w: Account)
    requires WellFormed(Stages(w, 5))
    ensures U.Checked(Stages(w, 5), U.Amendment(w, EURO, 2, 4, Price(8, 7)), 0) == Some(Stages(w, 5))
  {}

  lemma SettlementAsked(w: Account)
    requires Healthy(Stages(w, 5)) && Idle(Stages(w, 5))
    ensures Result(Stages(w, 5), Steps(w)[5]) == Some(Stages(w, 6))
  {
    var m := Stages(w, 5);
    FreeBooked(m, w);
    assert Later(m.settles.Keys) == 0;
    assert Debit(m, w, EURO, 1).balances == Stages(w, 6).balances;
    assert Request(m, w, EURO, 1, 0) == Stages(w, 6);
    FreeBooked(Stages(w, 6), w);
  }

  lemma StageFollows(w: Account, i: nat)
    requires i < 6 && Healthy(Stages(w, i)) && Idle(Stages(w, i))
    ensures Step(Stages(w, i), Steps(w)[i]) == Stages(w, i + 1)
    ensures Healthy(Stages(w, i + 1)) && Idle(Stages(w, i + 1))
  {
    StepKeeps(Stages(w, i), Steps(w)[i]);
    if i == 0 { GoldCreated(w); } else if i == 1 { EuroCreated(w); } else if i == 2 { FeedPublished(w); }
    else if i == 3 { BackingChanged(w); } else if i == 4 { EurosBorrowed(w); } else { SettlementAsked(w); }
  }

  lemma {:induction false} RunFollows(w: Account, i: nat)
    requires i <= 6 && Healthy(Stages(w, i)) && Idle(Stages(w, i))
    ensures Run(Stages(w, i), Steps(w)[i..]) == Stages(w, 6) && Healthy(Stages(w, 6)) && Idle(Stages(w, 6))
    decreases 6 - i
  {
    if i < 6 {
      StageFollows(w, i);
      RunFollows(w, i + 1);
      assert Steps(w)[i..][1..] == Steps(w)[i + 1..];
    }
  }

  lemma LastStageStuck(w: Account)
    ensures Stuck(Stages(w, 6), 0, 0)
  {}

  lemma WholeRun(w: Account)
    ensures Healthy(Genesis(map[(w, CORE) := 4])) && Idle(Genesis(map[(w, CORE) := 4]))
    ensures Run(Genesis(map[(w, CORE) := 4]), Steps(w)) == Stages(w, 6) && Healthy(Stages(w, 6)) && Idle(Stages(w, 6))
  {
    StartsAtGenesis(w);
    RunFollows(w, 0);
    assert Steps(w)[0..] == Steps(w);
  }

  lemma StuckThrows(m: Market)
    requires Healthy(m) && Idle(m) && Stuck(m, 0, 0)
    ensures Result(m, Clear(0)).None?
  {
    ClearKeeps(m, 0);
  }

  /** From the first block on, a run of six operations after which the settlement run throws, and so no block
      can be produced. */
  lemma BackingChangeBlocks(w: Account)
    ensures Healthy(Genesis(map[(w, CORE) := 4])) && Idle(Genesis(map[(w, CORE) := 4]))
    ensures var m := Run(Genesis(map[(w, CORE) := 4]), Steps(w));
      Healthy(m) && Idle(m) && Stuck(m, 0, 0) && Result(m, Clear(0)).None?
  {
    WholeRun(w);
    LastStageStuck(w);
    StuckThrows(Stages(w, 6));
  }

  // ----- core comes from nothing ---------------------------------------------------------------------------

  function OneCore(w: Account): Market {
    Market(map[(w, CORE) := 1], map[], map[], map[], map[CORE := Core(1)], map[], Due(CORE, 0), 0)
  }

  lemma OneCoreIsGenesis(w: Account)
    ensures OneCore(w) == Genesis(map[(w, CORE) := 1]) && Healthy(OneCore(w)) && Idle(OneCore(w)) && InHands(OneCore(w), CORE) == 1
  {
    GenesisHealthy(map[(w, CORE) := 1]);
    SumOne<(Account, Asset), nat>(map[(w, CORE) := 1], BalanceIn(CORE), (w, CORE));
    assert Books(OneCore(w), CORE);
  }

  lemma OddFeePaid(w: Account, p: Plan)
    requires Healthy(OneCore(w)) && Idle(OneCore(w)) && PlanOk(OneCore(w), p)
    ensures CreateAsset(OneCore(w), Fee(w, CORE, 1, 1), p).Some? && Supply(CreateAsset(OneCore(w), Fee(w, CORE, 1, 1), p).value, CORE) == 1
  {
    var m, f := OneCore(w), Fee(w, CORE, 1, 1);
    assert Halved(f) == f;
    ConvertFrame(m, f);
    NewId(m.assets.Keys, CORE);
    assert WithNew(m, f, p).balances == m.balances && WithNew(m, f, p).due == Due(CORE, 1);
  }

  /** With a single unit of core in the world, somebody creates an asset for a fee of one: afterwards there are
      two units of it, one of them in the new asset's pool and one among the pending fees. */
  lemma OddFeeMints(w: Account)
    ensures var m := Genesis(map[(w, CORE) := 1]);
      && Healthy(m) && Idle(m) && InHands(m, CORE) == 1
      && var m' := Step(m, Operation(Fee(w, CORE, 1, 1), NewAsset(Plan(0, 0, None))));
         InHands(m', CORE) == 2 && Supply(m', CORE) == 1
  {
    OneCoreIsGenesis(w);
    OddFeePaid(w, Plan(0, 0, None));
    CreationConservesIff(OneCore(w), Fee(w, CORE, 1, 1), Plan(0, 0, None));
  }
}
