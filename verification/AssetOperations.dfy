/** Settling a market-issued asset, and what issuers and holders do with assets. */
module AssetOperations {
  import opened Wrappers
  import opened Arithmetic
  import opened Constants
  import opened Prices
  import opened Sums
  import opened MarketState
  import opened MarketFill
  import opened Sound
  import opened MarginCalls
  import opened CheckCalls
  import opened ForceSettlement
  import opened Coverage
  import opened Operations

  // ----- settlement by a holder --------------------------------------------------------------------

  /** Prediction markets only after global settlement; other assets only while they have a feed. */
  predicate CanSettle(m: Market, a: Asset, enabled: bool) {
    Bit(m, a).Some?
    && (enabled || Settled(m, a))
    && (if Bit(m, a).value.prediction then Settled(m, a) else Bit(m, a).value.feed.Some?)
  }

  /** What x units are worth at the settlement price. */
  function Share(m: Market, a: Asset, x: nat): nat
    requires Settled(m, a) && Bit(m, a).value.settlement.value.base > 0
  {
    ToQuote(x, Bit(m, a).value.settlement.value)
  }

  function WithBit(m: Market, a: Asset, b: BitAsset): Market
    requires a in m.assets
  {
    WithAsset(m, a, m.assets[a].(bit := Some(b)))
  }

  /** Paid out of the fund at once; the units settled leave circulation. */
  function Redeem(m: Market, who: Account, a: Asset, x: nat): Option<Market>
    requires Settled(m, a) && Bit(m, a).value.settlement.value.base > 0 && x <= Balance(m, who, a)
  {
    var worth := Share(m, a, x);
    if worth > Bit(m, a).value.fund then None else Some(FromFund(Debit(m, who, a, x), who, a, worth, x))
  }

  function FromFund(m: Market, who: Account, a: Asset, worth: nat, x: nat): Market
    requires Bit(m, a).Some? && worth <= Bit(m, a).value.fund
  {
    var b := Bit(m, a).value;
    var m1 := Credit(WithBit(m, a, b.(fund := b.fund - worth)), who, b.backing, worth);
    WithSupply(m1, a, m1.assets[a].supply - x)
  }

  /** A request to be served when it is due. */
  ghost function Request(m: Market, who: Account, a: Asset, x: nat, date: nat): Market
    requires x <= Balance(m, who, a)
  {
    WithSettle(Debit(m, who, a, x), Later(m.settles.Keys), Settlement(who, x, a, date))
  }

  ghost function Settle(m: Market, who: Account, a: Asset, x: nat, date: nat, enabled: bool): Option<Market>
    requires WellFormed(m)
  {
    assert a in m.assets ==> AssetOk(m, a);
    if !CanSettle(m, a, enabled) || x > Balance(m, who, a) then None
    else if Settled(m, a) then Redeem(m, who, a, x)
    else Some(Request(m, who, a, x, date))
  }

  /** A fee that has been booked is among the accumulated or pending fees, and not yet taken. */
  ghost predicate Booked(m: Market) {
    m.due.amount <= (if m.due.asset == CORE then SumBy(m.pending, PendingIn(CORE)) else SumBy(m.assets, PoolsIn(m.due.asset)))
  }

  lemma BalanceWithin(m: Market, who: Account, a: Asset)
    requires a != CORE && Conserved(m, a) && Booked(m)
    ensures Balance(m, who, a) <= Supply(m, a)
  {
    HeldParts(m, a);
    if (who, a) in m.balances {
      SumAtLeast<(Account, Asset), nat>(m.balances, BalanceIn(a), (who, a));
    }
  }

  lemma ScaleDown(x: nat, supply: int, fund: nat, base: nat, quote: nat)
    requires base > 0 && x <= supply && fund * base >= supply * quote
    ensures x * quote / base <= fund
    ensures (fund - x * quote / base) * base >= (supply - x) * quote
  {
    MulLess(x, supply, quote);
    FloorIff(x * quote, base, x * quote / base);
    if x * quote / base > fund { MulLess(fund + 1, x * quote / base, base); }
    assert (supply - x) * quote == supply * quote - x * quote;
    assert (fund - x * quote / base) * base == fund * base - (x * quote / base) * base;
  }

  /** The fund never runs short: whatever anybody holds can be redeemed in full. */
  lemma FundSuffices(m: Market, who: Account, a: Asset, x: nat)
    requires Sound.Sound(m) && Booked(m) && Settled(m, a) && x <= Balance(m, who, a)
    ensures Bit(m, a).value.settlement.value.base > 0
    ensures Redeem(m, who, a, x).Some?
  {
    assert AssetOk(m, a) && Books(m, a);
    BalanceWithin(m, who, a);
    var b := Bit(m, a).value;
    ScaleDown(x, Supply(m, a), b.fund, b.settlement.value.base, b.settlement.value.quote);
  }

  /** A holder of a globally settled asset is paid if and only if the asset is a prediction market or
      still has a feed; and since feeds end after settlement, that is not for ever. */
  lemma PaidIff(m: Market, who: Account, a: Asset, x: nat, date: nat, enabled: bool)
    requires Sound.Sound(m) && Booked(m) && Settled(m, a) && x <= Balance(m, who, a)
    ensures Settle(m, who, a, x, date, enabled).Some? <==> Bit(m, a).value.prediction || Bit(m, a).value.feed.Some?
  {
    FundSuffices(m, who, a, x);
  }

  lemma RedeemHeld(m: Market, who: Account, a: Asset, x: nat, y: Asset)
    requires WellFormed(m) && Settled(m, a) && Bit(m, a).value.settlement.value.base > 0 && x <= Balance(m, who, a)
    requires Redeem(m, who, a, x).Some?
    ensures var m' := Redeem(m, who, a, x).value;
      Held(m', y) == Held(m, y) - If(y == a, x) && Debts(m', y) == Debts(m, y)
  {
    assert AssetOk(m, a);
    DebitFrame(m, who, a, x);
    DebitHeld(m, who, a, x, y);
    FromFundHeld(Debit(m, who, a, x), who, a, Share(m, a, x), x, y);
  }

  /** What leaves the fund is in the holder's balance. */
  lemma FromFundHeld(m: Market, who: Account, a: Asset, worth: nat, x: nat, y: Asset)
    requires Bit(m, a).Some? && worth <= Bit(m, a).value.fund && Bit(m, a).value.backing != a
    ensures var m' := FromFund(m, who, a, worth, x);
      Held(m', y) == Held(m, y) && Debts(m', y) == Debts(m, y)
  {
    var b := Bit(m, a).value;
    var m1 := WithBit(m, a, b.(fund := b.fund - worth));
    WithAssetHeld(m, a, m1.assets[a], y);
    CreditMoves(m1, who, b.backing, worth, y);
    var m2 := Credit(m1, who, b.backing, worth);
    WithSupplyHeld(m2, a, m2.assets[a].supply - x, y);
  }

  lemma RedeemFrame(m: Market, who: Account, a: Asset, x: nat)
    requires Settled(m, a) && Bit(m, a).value.settlement.value.base > 0 && x <= Balance(m, who, a)
    requires Redeem(m, who, a, x).Some?
    ensures var m' := Redeem(m, who, a, x).value;
      var b, worth := Bit(m, a).value, Share(m, a, x);
      && worth <= b.fund
      && m'.orders == m.orders && m'.calls == m.calls && m'.settles == m.settles && SameLedger(m, m')
      && m'.assets == m.assets[a := m.assets[a].(bit := Some(b.(fund := b.fund - worth)), supply := m.assets[a].supply - x)]
  {
    var b, worth := Bit(m, a).value, Share(m, a, x);
    DebitFrame(m, who, a, x);
    var m1 := WithBit(Debit(m, who, a, x), a, b.(fund := b.fund - worth));
    CreditFrame(m1, who, b.backing, worth);
    assert Redeem(m, who, a, x).value.assets
        == m.assets[a := m1.assets[a]][a := m1.assets[a].(supply := m.assets[a].supply - x)];
  }

  lemma DebitFrame(m: Market, who: Account, a: Asset, x: nat)
    requires x <= Balance(m, who, a)
    ensures Debit(m, who, a, x) == m.(balances := Debit(m, who, a, x).balances)
  {}

  /** Changes to one asset that leave every row as good as it was. */
  lemma AssetKeeps(m: Market, m': Market, a: Asset)
    requires WellFormed(m) && a in m.assets && a in m'.assets && m'.assets == m.assets[a := m'.assets[a]] && AssetOk(m', a)
    requires m'.assets[a].bit.Some? <==> m.assets[a].bit.Some?
    requires m.assets[a].bit.Some? ==> (m'.assets[a].bit.value.settlement.Some? <==> m.assets[a].bit.value.settlement.Some?)
    requires m.assets[a].bit.Some? && m'.assets[a].bit.value.backing != m.assets[a].bit.value.backing ==> forall i :: i in m.calls ==> m.calls[i].owed != a
    requires m'.orders == m.orders && m'.calls == m.calls && m'.settles == m.settles
    ensures WellFormed(m')
  {
    forall i | i in m'.orders ensures OrderOk(m', m'.orders[i]) { assert OrderOk(m, m.orders[i]); }
    forall i | i in m'.calls ensures CallOk(m', m'.calls[i]) { assert CallOk(m, m.calls[i]); }
    forall i | i in m'.settles ensures SettleOk(m', m'.settles[i]) { assert SettleOk(m, m.settles[i]); }
    forall x | x in m'.assets ensures AssetOk(m', x) { assert AssetOk(m, x); }
  }

  lemma RedeemSound(m: Market, who: Account, a: Asset, x: nat)
    requires Sound.Sound(m) && Booked(m) && Settled(m, a) && Bit(m, a).value.settlement.value.base > 0 && x <= Balance(m, who, a)
    requires Redeem(m, who, a, x).Some?
    ensures Sound.Sound(Redeem(m, who, a, x).value)
  {
    var m' := Redeem(m, who, a, x).value;
    RedeemFrame(m, who, a, x);
    assert AssetOk(m, a);
    AssetKeeps(m, m', a);
    forall y ensures Books(m', y) { RedeemBooks(m, who, a, x, m', y); }
  }

  lemma RedeemBooks(m: Market, who: Account, a: Asset, x: nat, m': Market, y: Asset)
    requires Sound.Sound(m) && Booked(m) && Settled(m, a) && Bit(m, a).value.settlement.value.base > 0 && x <= Balance(m, who, a)
    requires Redeem(m, who, a, x) == Some(m')
    ensures Books(m', y)
  {
    assert Books(m, y) && Books(m, a) && AssetOk(m, a);
    RedeemFrame(m, who, a, x);
    RedeemHeld(m, who, a, x, y);
    if y == a {
      BalanceWithin(m, who, a);
      StillSolvent(m, m', a, x);
    } else {
      SameBooks(m, m', y);
    }
  }

  /** The fund and the supply shrink in proportion. */
  lemma StillSolvent(m: Market, m': Market, a: Asset, x: nat)
    requires Settled(m, a) && Bit(m, a).value.settlement.value.base > 0 && x <= Supply(m, a) && Books(m, a)
    requires var b, worth := Bit(m, a).value, Share(m, a, x);
      && worth <= b.fund && Supply(m', a) == Supply(m, a) - x && Bit(m', a) == Some(b.(fund := b.fund - worth))
    requires Held(m', a) == Held(m, a) - x
    ensures Books(m', a)
  {
    var b := Bit(m, a).value;
    ScaleDown(x, Supply(m, a), b.fund, b.settlement.value.base, b.settlement.value.quote);
  }

  lemma RequestSound(m: Market, who: Account, a: Asset, x: nat, date: nat)
    requires Sound.Sound(m) && Bit(m, a).Some? && x <= Balance(m, who, a)
    ensures Sound.Sound(Request(m, who, a, x, date))
  {
    var m' := Request(m, who, a, x, date);
    RequestFrame(m, who, a, x, date);
    ConfigKeeps(m, m');
    forall y ensures Books(m', y) {
      assert Books(m, y);
      RequestHeld(m, who, a, x, date, y);
      SameBooks(m, m', y);
    }
  }

  lemma RequestFrame(m: Market, who: Account, a: Asset, x: nat, date: nat)
    requires x <= Balance(m, who, a)
    ensures var m' := Request(m, who, a, x, date);
      && m'.assets == m.assets && m'.orders == m.orders && m'.calls == m.calls && SameLedger(m, m')
      && m'.settles == m.settles[Later(m.settles.Keys) := Settlement(who, x, a, date)]
  {
    DebitFrame(m, who, a, x);
  }

  lemma RequestHeld(m: Market, who: Account, a: Asset, x: nat, date: nat, y: Asset)
    requires x <= Balance(m, who, a)
    ensures var m' := Request(m, who, a, x, date);
      Held(m', y) == Held(m, y) && Debts(m', y) == Debts(m, y)
  {
    DebitHeld(m, who, a, x, y);
    WithSettleHeld(Debit(m, who, a, x), Later(m.settles.Keys), Settlement(who, x, a, date), y);
  }

  lemma SettleKeeps(m: Market, who: Account, a: Asset, x: nat, date: nat, enabled: bool)
    requires Healthy(m) && Booked(m)
    ensures Keeps(m, Settle(m, who, a, x, date, enabled))
  {
    assert a in m.assets ==> AssetOk(m, a);
    if CanSettle(m, a, enabled) && x <= Balance(m, who, a) {
      if Settled(m, a) {
        FundSuffices(m, who, a, x);
        RedeemSound(m, who, a, x);
        RedeemFrame(m, who, a, x);
        SameOrdersHealthy(m, Redeem(m, who, a, x).value);
      } else {
        RequestSound(m, who, a, x, date);
        SameOrdersHealthy(m, Request(m, who, a, x, date));
      }
    }
  }

  // ----- global settlement by the issuer --------------------------------------------------------------

  /** The least collateralised position must be able to pay. */
  ghost function SettleAll(m: Market, a: Asset, price: Price): Option<Market>
    requires Sound.Sound(m)
  {
    if !Unsettled(m, a) || Supply(m, a) <= 0 || price.base == 0 then None
    else if ByCollateral(m, a) == map[] then None
    else
      var c := m.calls[Weakest(m, a)];
      if ToQuote(c.debt, price) > c.collateral then None else Some(GlobalSettle(m, a, price))
  }

  lemma SettleAllKeeps(m: Market, a: Asset, price: Price)
    requires Healthy(m)
    ensures Keeps(m, SettleAll(m, a, price))
    ensures var r := SettleAll(m, a, price); r.Some? ==> Settled(r.value, a)
  {
    if SettleAll(m, a, price).Some? {
      OwedSupply(m, Weakest(m, a));
      GlobalSettleSound(m, a, price);
      SettledCovered(m, a, price);
      SameOrdersHealthy(m, GlobalSettle(m, a, price));
    }
  }

  // ----- feeds and terms -------------------------------------------------------------------------------

  /** Medians that do not differ as prices, nor in what they require, are the same. */
  predicate SameMedian(f: Option<Feed>, g: Option<Feed>) {
    && (f.Some? <==> g.Some?)
    && (f.Some? ==>
          && !Less(f.value.price, g.value.price) && !Less(g.value.price, f.value.price)
          && f.value.quote == g.value.quote
          && f.value.maintenance == g.value.maintenance && f.value.shortSqueeze == g.value.shortSqueeze)
  }

  /** Feeds are published in what backs the asset, and not after settlement. */
  predicate CanPublish(m: Market, a: Asset)
    requires Bit(m, a).Some?
  {
    !Settled(m, a) && Bit(m, a).value.backing != a
  }

  /** A new median of the feeds, after one was published or when they are recalculated, and the margin calls
      it brings; none if nothing but a feed was published. */
  ghost function NewFeed(m: Market, a: Asset, feed: Option<Feed>, published: bool): Option<Market>
    requires Sound.Sound(m)
  {
    if Bit(m, a).None? || !FeedOk(a, feed) || (published && !CanPublish(m, a)) then None
    else
      var m1 := WithBit(m, a, Bit(m, a).value.(feed := feed));
      assert AssetOk(m, a);
      TermsSound(m, a, m1.assets[a]);
      if published && SameMedian(Bit(m, a).value.feed, feed) then Some(m1)
      else
        var (m', _) :- CheckCallOrders(m1, a, true);
        Some(m')
  }

  /** New terms for one asset under which the rows and the books are as good as before. */
  predicate SaneTerms(m: Market, a: Asset, d: AssetData)
    requires a in m.assets
  {
    var was := m.assets[a];
    && d.supply == was.supply && d.fees == was.fees && d.pool == was.pool && d.feePercent <= HUNDRED_PERCENT
    && (d.bit.Some? <==> was.bit.Some?)
    && (d.bit.Some? ==>
          && d.bit.value.settlement == was.bit.value.settlement && d.bit.value.fund == was.bit.value.fund
          && FeedOk(a, d.bit.value.feed) && d.bit.value.offset <= HUNDRED_PERCENT && d.bit.value.maxVolume <= HUNDRED_PERCENT
          && (d.bit.value.backing == was.bit.value.backing
              || (was.supply == 0 && was.bit.value.settlement.None? && d.bit.value.backing in m.assets)))
  }

  lemma TermsSound(m: Market, a: Asset, d: AssetData)
    requires Sound.Sound(m) && a in m.assets && SaneTerms(m, a, d)
    ensures Sound.Sound(WithAsset(m, a, d))
  {
    var m' := WithAsset(m, a, d);
    assert AssetOk(m, a) && Books(m, a);
    if Unsettled(m, a) { SomebodyOwes(m, a); }
    AssetKeeps(m, m', a);
    forall x ensures Books(m', x) {
      assert Books(m, x);
      WithAssetHeld(m, a, d, x);
      TermsBooks(m, a, d, x);
    }
  }

  lemma TermsBooks(m: Market, a: Asset, d: AssetData, x: Asset)
    requires a in m.assets && SaneTerms(m, a, d) && Books(m, x) && Held(WithAsset(m, a, d), x) == Held(m, x)
    ensures Books(WithAsset(m, a, d), x)
  {}

  /** It goes through if the new median is in what backs the asset. */
  lemma NewFeedKeeps(m: Market, a: Asset, feed: Option<Feed>, published: bool)
    requires Healthy(m)
    ensures Keeps(m, NewFeed(m, a, feed, published))
    ensures var possible := Bit(m, a).Some? && FeedOk(a, feed) && (published ==> CanPublish(m, a));
      && (NewFeed(m, a, feed, published).Some? ==> possible)
      && (possible && (feed.Some? ==> feed.value.quote == Bit(m, a).value.backing) ==> NewFeed(m, a, feed, published).Some?)
  {
    if Bit(m, a).Some? && FeedOk(a, feed) {
      var m1 := WithBit(m, a, Bit(m, a).value.(feed := feed));
      assert AssetOk(m, a);
      TermsSound(m, a, m1.assets[a]);
      SameOrdersHealthy(m, m1);
      CheckCallOrdersSound(m1, a, true);
      CheckCallOrdersCovered(m1, a, true);
      var r := CheckCallOrders(m1, a, true);
      if r.Some? { ShrunkHealthy(m1, r.value.0); }
    }
  }

  /** The median is recalculated if another number of feeds is needed for it. */
  datatype Median = Kept | Recalculated(feed: Option<Feed>)

  function FeedAfter(b: BitAsset, median: Median): Option<Feed> {
    match median
    case Kept => b.feed
    case Recalculated(feed) => feed
  }

  /** Options of a market-issued asset; what backs it may change only while none of it circulates. */
  function NewOptions(m: Market, a: Asset, backing: Asset, offset: nat, maxVolume: nat, median: Median): Option<Market> {
    if Bit(m, a).None? || Settled(m, a) || offset > HUNDRED_PERCENT || maxVolume > HUNDRED_PERCENT then None
    else
      var b := Bit(m, a).value;
      if !FeedOk(a, FeedAfter(b, median)) || (backing != b.backing && (m.assets[a].supply != 0 || backing !in m.assets)) then None
      else Some(WithBit(m, a, b.(backing := backing, offset := offset, maxVolume := maxVolume, feed := FeedAfter(b, median))))
  }

  /** The feeds stay unless the number needed changes: so options set a feed askew exactly when there is one and
      the backing changes, and in no other way, and set it right again only by changing it back. */
  lemma OptionsAskewIff(m: Market, a: Asset, backing: Asset, offset: nat, maxVolume: nat, median: Median)
    requires NewOptions(m, a, backing, offset, maxVolume, median).Some?
    ensures var m' := NewOptions(m, a, backing, offset, maxVolume, median).value;
      && (median.Kept? ==> Bit(m', a).value.feed == Bit(m, a).value.feed)
      && (median.Kept? && !Askew(m, a) ==> (Askew(m', a) <==> Bit(m, a).value.feed.Some? && backing != Bit(m, a).value.backing))
      && (median.Kept? && Askew(m, a) ==> (!Askew(m', a) <==> backing == Bit(m, a).value.feed.value.quote))
      && (Askew(m', a) && !Askew(m, a) && median.Kept? ==> Supply(m, a) == 0)
      && forall x :: x != a ==> (Askew(m', x) <==> Askew(m, x))
  {}

  function NewMarketFee(m: Market, a: Asset, percent: nat, most: nat): Option<Market> {
    if a !in m.assets || percent > HUNDRED_PERCENT then None
    else Some(WithAsset(m, a, m.assets[a].(feePercent := percent, maxFee := most)))
  }

  /** At the maintenance interval. */
  function NewInterval(m: Market, a: Asset): Option<Market> {
    if Bit(m, a).None? then None else Some(WithVolume(m, a, 0))
  }

  lemma NewOptionsKeep(m: Market, a: Asset, backing: Asset, offset: nat, maxVolume: nat, median: Median)
    requires Healthy(m)
    ensures Keeps(m, NewOptions(m, a, backing, offset, maxVolume, median))
  {
    assert a in m.assets ==> AssetOk(m, a);
    OneTermKeeps(m, a, NewOptions(m, a, backing, offset, maxVolume, median));
  }

  lemma NewTermsKeep(m: Market, a: Asset, percent: nat, most: nat)
    requires Healthy(m)
    ensures Keeps(m, NewMarketFee(m, a, percent, most))
    ensures Keeps(m, NewInterval(m, a))
  {
    assert a in m.assets ==> AssetOk(m, a);
    OneTermKeeps(m, a, NewMarketFee(m, a, percent, most));
    OneTermKeeps(m, a, NewInterval(m, a));
  }

  lemma OneTermKeeps(m: Market, a: Asset, r: Option<Market>)
    requires Healthy(m)
    requires r.Some? ==> a in m.assets && a in r.value.assets && r.value == WithAsset(m, a, r.value.assets[a]) && SaneTerms(m, a, r.value.assets[a])
    ensures Keeps(m, r)
  {
    if r.Some? {
      TermsSound(m, a, r.value.assets[a]);
      SameOrdersHealthy(m, r.value);
    }
  }

  // ----- units ---------------------------------------------------------------------------------------

  /** Units of an asset that is not market-issued come into circulation, up to its limit. */
  function Issue(m: Market, to: Account, a: Asset, x: nat, most: nat): Option<Market> {
    if a !in m.assets || Bit(m, a).Some? || m.assets[a].supply + x > most then None
    else Some(WithSupply(Credit(m, to, a, x), a, m.assets[a].supply + x))
  }

  /** And leave it again. */
  function Reserve(m: Market, from: Account, a: Asset, x: nat): Option<Market> {
    if a !in m.assets || Bit(m, a).Some? || m.assets[a].supply < x || Balance(m, from, a) < x then None
    else Some(WithSupply(Debit(m, from, a, x), a, m.assets[a].supply - x))
  }

  function Transfer(m: Market, from: Account, to: Account, a: Asset, x: nat): Option<Market> {
    if a !in m.assets || x > Balance(m, from, a) then None
    else Some(Credit(Debit(m, from, a, x), to, a, x))
  }

  function ClaimFees(m: Market, issuer: Account, a: Asset, x: nat): Option<Market> {
    if a !in m.assets || x > m.assets[a].fees then None
    else Some(Credit(FeesTaken(m, a, x), issuer, a, x))
  }

  function FeesTaken(m: Market, a: Asset, x: nat): Market
    requires a in m.assets && x <= m.assets[a].fees
  {
    WithAsset(m, a, m.assets[a].(fees := m.assets[a].fees - x))
  }

  function FundPool(m: Market, from: Account, a: Asset, x: nat): Option<Market> {
    if a !in m.assets || x > Balance(m, from, CORE) then None
    else Some(WithAsset(Debit(m, from, CORE, x), a, m.assets[a].(pool := m.assets[a].pool + x)))
  }

  /** Supply of an asset that is not market-issued changes with what is held. */
  lemma SupplySound(m: Market, m': Market, a: Asset, x: int)
    requires Healthy(m) && a in m.assets && Bit(m, a).None?
    requires m' == m.(balances := m'.balances, assets := m.assets[a := m.assets[a].(supply := m.assets[a].supply + x)])
    requires forall y {:trigger Held(m', y)} :: Held(m', y) == Held(m, y) + If(y == a, x)
    ensures Healthy(m')
  {
    assert AssetOk(m, a);
    AssetKeeps(m, m', a);
    forall y ensures Books(m', y) {
      assert Books(m, y);
      assert Held(m', y) == Held(m, y) + If(y == a, x);
    }
    SameOrdersHealthy(m, m');
  }

  lemma IssueKeeps(m: Market, to: Account, a: Asset, x: nat, most: nat)
    requires Healthy(m)
    ensures Keeps(m, Issue(m, to, a, x, most))
  {
    if Issue(m, to, a, x, most).Some? {
      var m' := Issue(m, to, a, x, most).value;
      forall y ensures Held(m', y) == Held(m, y) + If(y == a, x) {
        CreditHeld(m, to, a, x, y);
        WithSupplyHeld(Credit(m, to, a, x), a, m.assets[a].supply + x, y);
      }
      SupplySound(m, m', a, x);
    }
  }

  lemma ReserveKeeps(m: Market, from: Account, a: Asset, x: nat)
    requires Healthy(m)
    ensures Keeps(m, Reserve(m, from, a, x))
  {
    if Reserve(m, from, a, x).Some? {
      var m' := Reserve(m, from, a, x).value;
      forall y ensures Held(m', y) == Held(m, y) + If(y == a, 0 - x) {
        DebitHeld(m, from, a, x, y);
        WithSupplyHeld(Debit(m, from, a, x), a, m.assets[a].supply - x, y);
      }
      SupplySound(m, m', a, 0 - x);
    }
  }

  lemma MovesHealthy(m: Market, m': Market)
    requires Healthy(m) && SameAssets(m, m') && m'.orders == m.orders && m'.calls == m.calls && m'.settles == m.settles
    requires forall a {:trigger Held(m', a)} :: Held(m', a) == Held(m, a)
    ensures Healthy(m')
  {
    MovesSound(m, m');
    SameOrdersHealthy(m, m');
  }

  lemma TransferKeeps(m: Market, from: Account, to: Account, a: Asset, x: nat)
    requires Healthy(m)
    ensures Keeps(m, Transfer(m, from, to, a, x))
  {
    if a in m.assets && x <= Balance(m, from, a) {
      var m' := Transfer(m, from, to, a, x).value;
      forall y ensures Held(m', y) == Held(m, y) {
        DebitHeld(m, from, a, x, y);
        CreditHeld(Debit(m, from, a, x), to, a, x, y);
      }
      MovesHealthy(m, m');
    }
  }

  lemma ClaimHeld(m: Market, who: Account, a: Asset, x: nat, y: Asset)
    requires ClaimFees(m, who, a, x).Some?
    ensures Held(ClaimFees(m, who, a, x).value, y) == Held(m, y)
  {
    FeesTakenHeld(m, a, x, y);
    CreditHeld(FeesTaken(m, a, x), who, a, x, y);
  }

  lemma FeesTakenHeld(m: Market, a: Asset, x: nat, y: Asset)
    requires a in m.assets && x <= m.assets[a].fees
    ensures Held(FeesTaken(m, a, x), y) == Held(m, y) - If(y == a, x)
  {
    WithAssetHeld(m, a, m.assets[a].(fees := m.assets[a].fees - x), y);
  }

  lemma ClaimFrame(m: Market, who: Account, a: Asset, x: nat)
    requires ClaimFees(m, who, a, x).Some?
    ensures var m' := ClaimFees(m, who, a, x).value;
      SameAssets(m, m') && m'.orders == m.orders && m'.calls == m.calls && m'.settles == m.settles
  {
    FeesTakenFrame(m, a, x);
    CreditFrame(FeesTaken(m, a, x), who, a, x);
  }

  lemma FeesTakenFrame(m: Market, a: Asset, x: nat)
    requires a in m.assets && x <= m.assets[a].fees
    ensures SameAssets(m, FeesTaken(m, a, x)) && FeesTaken(m, a, x) == m.(assets := FeesTaken(m, a, x).assets)
  {}

  lemma ClaimKeeps(m: Market, who: Account, a: Asset, x: nat)
    requires Healthy(m)
    ensures Keeps(m, ClaimFees(m, who, a, x))
  {
    var r := ClaimFees(m, who, a, x);
    if r.Some? {
      var m' := r.value;
      ClaimFrame(m, who, a, x);
      forall y ensures Held(m', y) == Held(m, y) { ClaimHeld(m, who, a, x, y); }
      MovesHealthy(m, m');
    }
  }

  lemma FundPoolHeld(m: Market, who: Account, a: Asset, x: nat, y: Asset)
    requires FundPool(m, who, a, x).Some?
    ensures Held(FundPool(m, who, a, x).value, y) == Held(m, y)
  {
    var m1 := Debit(m, who, CORE, x);
    DebitHeld(m, who, CORE, x, y);
    WithAssetHeld(m1, a, m.assets[a].(pool := m.assets[a].pool + x), y);
  }

  lemma FundPoolKeeps(m: Market, who: Account, a: Asset, x: nat)
    requires Healthy(m)
    ensures Keeps(m, FundPool(m, who, a, x))
  {
    var r := FundPool(m, who, a, x);
    if r.Some? {
      forall y ensures Held(r.value, y) == Held(m, y) { FundPoolHeld(m, who, a, x, y); }
      MovesHealthy(m, r.value);
    }
  }
}
