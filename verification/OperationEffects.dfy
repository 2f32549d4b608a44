/** When each operation goes through, and who gains what by it. */
module OperationEffects {
  import opened Wrappers
  import opened Arithmetic
  import opened Prices
  import opened MarketState
  import opened MarketFill
  import opened Sound
  import opened Ranking
  import opened CheckCalls
  import opened Effects
  import opened GlobalSettlement
  import opened CallRuns
  import opened OrderBook
  import opened Trades
  import opened Services
  import opened ForceSettlement
  import opened Operations
  import opened AssetOperations
  import opened AssetCreation
  import U = UpdateCall

  // ----- single units --------------------------------------------------------------------------------------

  lemma DebitCredit(m: Market, from: Account, a: Asset, x: nat, to: Account, b: Asset, y: nat)
    requires x <= Balance(m, from, a)
    ensures TwoGain(m, Credit(Debit(m, from, a, x), to, b, y), from, a, 0 - x, to, b, y)
  {
    var m1 := Debit(m, from, a, x);
    DebitGains(m, from, a, x);
    CreditGains(m1, to, b, y);
    OneAndOne(m, m1, m1, Credit(m1, to, b, y), from, a, 0 - x, to, b, y);
  }

  /** One row of the assets is another, and balances have changed. */
  predicate OnlyRow(m: Market, m': Market, a: Asset, d: AssetData) {
    m' == m.(balances := m'.balances, assets := m.assets[a := d])
  }

  /** What is debited is at hand, and is credited to the receiver. */
  ghost predicate Transferred(m: Market, from: Account, to: Account, a: Asset, x: nat, r: Option<Market>) {
    && (r.Some? <==> a in m.assets && x <= Balance(m, from, a))
    && (r.Some? ==> TwoGain(m, r.value, from, a, 0 - x, to, a, x) && r.value == m.(balances := r.value.balances))
  }

  lemma TransferMoves(m: Market, from: Account, to: Account, a: Asset, x: nat)
    ensures Transferred(m, from, to, a, x, Transfer(m, from, to, a, x))
  {
    if a in m.assets && x <= Balance(m, from, a) { DebitCredit(m, from, a, x, to, a, x); }
  }

  ghost predicate Issued(m: Market, to: Account, a: Asset, x: nat, most: nat, r: Option<Market>) {
    && (r.Some? <==> a in m.assets && Bit(m, a).None? && m.assets[a].supply + x <= most)
    && (r.Some? ==> OneGains(m, r.value, to, a, x) && OnlyRow(m, r.value, a, m.assets[a].(supply := m.assets[a].supply + x)))
  }

  lemma GainsBefore(m: Market, m1: Market, m': Market, who: Account, b: Asset, x: int)
    requires OneGains(m, m1, who, b, x) && m'.balances == m1.balances
    ensures OneGains(m, m', who, b, x)
  {
    SettledGains(m, m1, m', who, b, x);
  }

  lemma IssueAdds(m: Market, to: Account, a: Asset, x: nat, most: nat)
    ensures Issued(m, to, a, x, most, Issue(m, to, a, x, most))
  {
    var r := Issue(m, to, a, x, most);
    if r.Some? {
      CreditGains(m, to, a, x);
      GainsBefore(m, Credit(m, to, a, x), r.value, to, a, x);
    }
  }

  ghost predicate Reserved(m: Market, from: Account, a: Asset, x: nat, r: Option<Market>) {
    && (r.Some? <==> a in m.assets && Bit(m, a).None? && x <= m.assets[a].supply && x <= Balance(m, from, a))
    && (r.Some? ==> OneGains(m, r.value, from, a, 0 - x) && OnlyRow(m, r.value, a, m.assets[a].(supply := m.assets[a].supply - x)))
  }

  lemma ReserveTakes(m: Market, from: Account, a: Asset, x: nat)
    ensures Reserved(m, from, a, x, Reserve(m, from, a, x))
  {
    var r := Reserve(m, from, a, x);
    if r.Some? {
      DebitGains(m, from, a, x);
      GainsBefore(m, Debit(m, from, a, x), r.value, from, a, 0 - x);
    }
  }

  ghost predicate Claimed(m: Market, issuer: Account, a: Asset, x: nat, r: Option<Market>) {
    && (r.Some? <==> a in m.assets && x <= m.assets[a].fees)
    && (r.Some? ==> OneGains(m, r.value, issuer, a, x) && OnlyRow(m, r.value, a, m.assets[a].(fees := m.assets[a].fees - x)))
  }

  lemma ClaimPays(m: Market, issuer: Account, a: Asset, x: nat)
    ensures Claimed(m, issuer, a, x, ClaimFees(m, issuer, a, x))
  {
    var r := ClaimFees(m, issuer, a, x);
    if r.Some? {
      FeesTakenFrame(m, a, x);
      CreditGains(FeesTaken(m, a, x), issuer, a, x);
      GainsAfter(m, FeesTaken(m, a, x), r.value, issuer, a, x);
    }
  }

  ghost predicate Funded(m: Market, from: Account, a: Asset, x: nat, r: Option<Market>) {
    && (r.Some? <==> a in m.assets && x <= Balance(m, from, CORE))
    && (r.Some? ==> OneGains(m, r.value, from, CORE, 0 - x) && OnlyRow(m, r.value, a, m.assets[a].(pool := m.assets[a].pool + x)))
  }

  lemma FundPoolFunds(m: Market, from: Account, a: Asset, x: nat)
    ensures Funded(m, from, a, x, FundPool(m, from, a, x))
  {
    var r := FundPool(m, from, a, x);
    if r.Some? {
      DebitGains(m, from, CORE, x);
      GainsBefore(m, Debit(m, from, CORE, x), r.value, from, CORE, 0 - x);
    }
  }

  // ----- settling ------------------------------------------------------------------------------------------

  /** Settled assets are redeemed out of the fund at the settlement price, rounded down. */
  ghost predicate Redeemed(m: Market, who: Account, a: Asset, x: nat, worth: nat, r: Option<Market>)
    requires Settled(m, a) && x <= Balance(m, who, a)
  {
    var d, b := m.assets[a], Bit(m, a).value;
    && IsFloor(worth, x * b.settlement.value.quote, b.settlement.value.base)
    && (r.Some? <==> worth <= b.fund)
    && (r.Some? ==>
          && TwoGain(m, r.value, who, a, 0 - x, who, b.backing, worth)
          && OnlyRow(m, r.value, a, d.(bit := Some(b.(fund := b.fund - worth)), supply := d.supply - x)))
  }

  lemma RedeemPays(m: Market, who: Account, a: Asset, x: nat)
    requires Settled(m, a) && Bit(m, a).value.settlement.value.base > 0 && x <= Balance(m, who, a)
    ensures Redeemed(m, who, a, x, Share(m, a, x), Redeem(m, who, a, x))
  {
    var r, b, worth := Redeem(m, who, a, x), Bit(m, a).value, Share(m, a, x);
    FloorIs(x * b.settlement.value.quote, b.settlement.value.base);
    if r.Some? {
      RedeemFrame(m, who, a, x);
      RedeemGains(m, who, a, x, worth);
    }
  }

  lemma RedeemGains(m: Market, who: Account, a: Asset, x: nat, worth: nat)
    requires Bit(m, a).Some? && worth <= Bit(m, a).value.fund && x <= Balance(m, who, a)
    ensures TwoGain(m, FromFund(Debit(m, who, a, x), who, a, worth, x), who, a, 0 - x, who, Bit(m, a).value.backing, worth)
  {
    var b, m1 := Bit(m, a).value, Debit(m, who, a, x);
    DebitFrame(m, who, a, x);
    DebitGains(m, who, a, x);
    var m2 := WithBit(m1, a, b.(fund := b.fund - worth));
    CreditGains(m2, who, b.backing, worth);
    var m3 := Credit(m2, who, b.backing, worth);
    GainsBefore(m2, m3, FromFund(m1, who, a, worth, x), who, b.backing, worth);
    OneAndOne(m, m1, m2, FromFund(m1, who, a, worth, x), who, a, 0 - x, who, b.backing, worth);
  }

  /** Others wait in a new request. */
  ghost predicate Queued(m: Market, m': Market, who: Account, a: Asset, x: nat, date: nat) {
    && OneGains(m, m', who, a, 0 - x)
    && exists k: Id :: k !in m.settles && m' == m.(balances := m'.balances, settles := m.settles[k := Settlement(who, x, a, date)])
  }

  lemma RequestQueues(m: Market, who: Account, a: Asset, x: nat, date: nat)
    requires x <= Balance(m, who, a)
    ensures Queued(m, Request(m, who, a, x, date), who, a, x, date)
  {
    var k := Later(m.settles.Keys);
    DebitGains(m, who, a, x);
    GainsBefore(m, Debit(m, who, a, x), Request(m, who, a, x, date), who, a, 0 - x);
    assert k !in m.settles;
  }

  ghost predicate SettledOrQueued(m: Market, who: Account, a: Asset, x: nat, date: nat, enabled: bool, r: Option<Market>) {
    if !CanSettle(m, a, enabled) || x > Balance(m, who, a) then r.None?
    else if Settled(m, a) then exists worth :: Redeemed(m, who, a, x, worth, r)
    else r.Some? && Queued(m, r.value, who, a, x, date)
  }

  lemma SettleDoes(m: Market, who: Account, a: Asset, x: nat, date: nat, enabled: bool)
    requires WellFormed(m)
    ensures SettledOrQueued(m, who, a, x, date, enabled, Settle(m, who, a, x, date, enabled))
  {
    assert a in m.assets ==> AssetOk(m, a);
    if CanSettle(m, a, enabled) && x <= Balance(m, who, a) {
      if Settled(m, a) { RedeemPays(m, who, a, x); } else { RequestQueues(m, who, a, x, date); }
    }
  }

  /** The issuer settles all of an asset at a price at which the least collateralised position can pay. */
  ghost predicate IssuerSettled(m: Market, a: Asset, price: Price, r: Option<Market>) {
    && (r.Some? <==> Unsettled(m, a) && m.assets[a].supply > 0 && price.base > 0
                     && LeastCanPay(m, a, price))
    && (r.Some? ==> exists pays :: SettledAt(m, r.value, a, price, pays))
  }

  lemma OneIsWeakest(m: Market, a: Asset, i: Id)
    requires WellFormed(m) && LeastCovered(m, a, i)
    ensures ByCollateral(m, a) != map[] && i == Weakest(m, a)
  {
    assert i in ByCollateral(m, a);
    WeakestIsLeast(m, a);
    OnlyOneLeast(m, a, i, Weakest(m, a));
  }

  ghost predicate LeastCanPay(m: Market, a: Asset, price: Price) {
    exists i :: LeastCovered(m, a, i) && Affords(m.calls[i], price)
  }

  lemma WeakestIff(m: Market, a: Asset, price: Price)
    requires WellFormed(m) && price.base > 0
    ensures LeastCanPay(m, a, price) <==>
      ByCollateral(m, a) != map[] && ToQuote(m.calls[Weakest(m, a)].debt, price) <= m.calls[Weakest(m, a)].collateral
  {
    if ByCollateral(m, a) != map[] {
      WeakestIsLeast(m, a);
      AffordsIff(m.calls[Weakest(m, a)], price);
    }
    if LeastCanPay(m, a, price) {
      var i :| LeastCovered(m, a, i) && Affords(m.calls[i], price);
      OneIsWeakest(m, a, i);
    }
  }

  lemma AffordsIff(c: CallOrder, price: Price)
    requires price.base > 0
    ensures Affords(c, price) <==> ToQuote(c.debt, price) <= c.collateral
  {
    FloorIff(c.debt * price.quote, price.base, c.collateral + 1);
  }

  lemma SettleAllDoes(m: Market, a: Asset, price: Price)
    requires Sound.Sound(m)
    ensures IssuerSettled(m, a, price, SettleAll(m, a, price))
  {
    if price.base > 0 { WeakestIff(m, a, price); }
    if SettleAll(m, a, price).Some? { var pays := GlobalSettlePays(m, a, price); }
  }

  lemma OnlyOneLeast(m: Market, a: Asset, i: Id, j: Id)
    requires LeastCovered(m, a, i) && LeastCovered(m, a, j)
    ensures i == j
  {
    assert CoveredLess(m.calls[i], i, m.calls[j], j) && CoveredLess(m.calls[j], j, m.calls[i], i);
  }

  // ----- terms ---------------------------------------------------------------------------------------------

  /** A new median is booked, and the margin calls it makes possible follow, unless it is a published one like the old. */
  ghost predicate FeedSet(m: Market, a: Asset, feed: Option<Feed>, published: bool, r: Option<Market>) {
    if Bit(m, a).None? || !FeedOk(a, feed) || (published && !CanPublish(m, a)) then r.None?
    else
      var m1 := m.(assets := m.assets[a := m.assets[a].(bit := Some(Bit(m, a).value.(feed := feed)))]);
      if published && SameMedian(Bit(m, a).value.feed, feed) then r == Some(m1)
      else exists run :: CallRun(m1, a, true, run) && r == if run.None? then None else Some(run.value.0)
  }

  lemma NewFeedSets(m: Market, a: Asset, feed: Option<Feed>, published: bool)
    requires Sound.Sound(m)
    ensures FeedSet(m, a, feed, published, NewFeed(m, a, feed, published))
  {
    if Bit(m, a).Some? && FeedOk(a, feed) && (published ==> CanPublish(m, a)) {
      var m1 := WithBit(m, a, Bit(m, a).value.(feed := feed));
      assert AssetOk(m, a);
      TermsSound(m, a, m1.assets[a]);
      CheckCallOrdersCalls(m1, a, true);
    }
  }

  // ----- fees ----------------------------------------------------------------------------------------------

  /** The fee is due; one in another asset is accumulated there, and its worth is taken from the asset's pool. */
  predicate FeeDue(m: Market, m': Market, f: Fee) {
    && f.asset in m.assets
    && (if f.asset == CORE then m'.assets == m.assets
        else var d := m.assets[f.asset];
             f.core <= d.pool && m'.assets == m.assets[f.asset := d.(fees := d.fees + f.amount, pool := d.pool - f.core)])
    && m'.due == Due(f.asset, f.amount)
    && m' == m.(assets := m'.assets, due := m'.due, pending := m'.pending)
  }

  lemma ConvertBooks(m: Market, f: Fee)
    requires Convertible(m, f)
    ensures FeeDue(m, Convert(m, f), f) && Convert(m, f).pending == m.pending
    ensures FeeDue(m, Book(m, f), f) && PendingGains(m, Book(m, f), f.payer, f.core)
  {
    PendingAdded(Convert(m, f), f.payer, f.core);
    PendingFrom(m, Convert(m, f), Book(m, f), f.payer, f.core);
  }

  /** What is due is taken from the payer, if it is there. */
  ghost predicate FeePaid(m: Market, payer: Account, r: Option<Market>) {
    && (r.Some? <==> m.due.amount <= Balance(m, payer, m.due.asset))
    && (r.Some? ==> OneGains(m, r.value, payer, m.due.asset, 0 - m.due.amount)
                    && r.value == m.(balances := r.value.balances, due := Due(CORE, 0)))
  }

  lemma TakeFeeTakes(m: Market, payer: Account)
    ensures FeePaid(m, payer, TakeFee(m, payer))
  {
    var r := TakeFee(m, payer);
    if r.Some? {
      DebitGains(m, payer, m.due.asset, m.due.amount);
      GainsBefore(m, Debit(m, payer, m.due.asset, m.due.amount), r.value, payer, m.due.asset, 0 - m.due.amount);
    }
  }

  // ----- limit orders --------------------------------------------------------------------------------------

  /** What is offered has left the seller's balance and is in a new order. */
  ghost predicate Placed(m: Market, m': Market, x: Offer, fee: nat, id: Id) {
    && id !in m.orders && OneGains(m, m', x.seller, x.sell, 0 - x.forSale)
    && m' == m.(balances := m'.balances,
                orders := m.orders[id := LimitOrder(x.seller, x.forSale, x.sell, x.receive, Price(x.forSale, x.min), fee)])
  }

  lemma PlacePlaces(m: Market, x: Offer, fee: nat)
    requires x.forSale <= Balance(m, x.seller, x.sell)
    ensures Placed(m, Place(m, AsOrder(x, fee)), x, fee, Later(m.orders.Keys))
  {
    var o := AsOrder(x, fee);
    DebitGains(m, x.seller, x.sell, x.forSale);
    GainsBefore(m, Debit(m, x.seller, x.sell, x.forSale), Place(m, o), x.seller, x.sell, 0 - x.forSale);
    assert Later(m.orders.Keys) !in m.orders;
  }

  /** The offer is between two different assets, for something, and the seller has it. */
  predicate OfferOk(m: Market, x: Offer) {
    && x.forSale > 0 && x.min > 0 && x.sell != x.receive && x.sell in m.assets && x.receive in m.assets
    && x.forSale <= Balance(m, x.seller, x.sell)
  }

  predicate FeeOk(m: Market, f: Fee) {
    f.asset in m.assets && (if f.asset == CORE then f.core == f.amount else f.core <= m.assets[f.asset].pool)
  }

  /** The order is placed and applied; one that is to be filled or killed fails if it rests; the fee comes last. */
  ghost predicate LimitCreated(m: Market, f: Fee, x: Offer, kill: bool, r: Option<Market>) {
    if !FeeOk(m, f) || !OfferOk(m, x) then r.None?
    else exists m1, m2, id :: FeeDue(m, m1, f) && m1.pending == m.pending && Placed(m1, m2, x, f.core, id)
           && exists done :: AppliedBy(m2, id, done) && AfterApply(f.payer, kill, done, r)
  }

  ghost predicate AfterApply(payer: Account, kill: bool, done: Option<(Market, bool)>, r: Option<Market>) {
    if done.None? || (kill && !done.value.1) then r.None? else FeePaid(done.value.0, payer, r)
  }

  lemma CreateLimitDoes(m: Market, f: Fee, x: Offer, kill: bool)
    requires Healthy(m) && Idle(m)
    ensures LimitCreated(m, f, x, kill, CreateLimit(m, f, x, kill))
  {
    if FeeOk(m, f) && OfferOk(m, x) {
      var o := AsOrder(x, f.core);
      PlacedSound(m, f, o);
      ConvertBooks(m, f);
      var m1 := Convert(m, f);
      var m2, id := Place(m1, o), Later(m1.orders.Keys);
      PlacePlaces(m1, x, f.core);
      ApplyOrderApplies(m2, id);
      var done := ApplyOrder(m2, id);
      if done.Some? { TakeFeeTakes(done.value.0, f.payer); }
      assert AfterApply(f.payer, kill, done, CreateLimit(m, f, x, kill));
    }
  }

  /** Only its seller cancels an order; what is left comes back, and margin calls in both assets follow. */
  ghost predicate Cancelled(m: Market, seller: Account, id: Id, r: Option<Market>) {
    if id !in m.orders || m.orders[id].seller != seller then r.None?
    else exists m1, run :: Returned(m, m1, id) && BothRuns(m1, m.orders[id].sell, m.orders[id].receive, run)
                           && r == if run.None? then None else Some(run.value.0)
  }

  lemma CancelOrderDoes(m: Market, seller: Account, id: Id)
    requires Sound.Sound(m)
    ensures Cancelled(m, seller, id, CancelOrder(m, seller, id))
  {
    if id in m.orders && m.orders[id].seller == seller {
      CancelLimitSound(m, id);
      CancelLimitEffect(m, id);
      CheckBothRuns(CancelLimit(m, id), m.orders[id].sell, m.orders[id].receive);
    }
  }

  // ----- positions -------------------------------------------------------------------------------------------

  /** The account's position in the asset, or a new one when it has none. */
  predicate IsPosition(m: Market, x: U.Amendment, i: Id) {
    if i in m.calls then m.calls[i].borrower == x.who && m.calls[i].owed == x.asset
    else forall j :: j in m.calls ==> !(m.calls[j].borrower == x.who && m.calls[j].owed == x.asset)
  }

  function DebtAfter(m: Market, x: U.Amendment, i: Id): int {
    x.debt + if i in m.calls then m.calls[i].debt else 0
  }

  function CollateralAfter(m: Market, x: U.Amendment, i: Id): int {
    x.collateral + if i in m.calls then m.calls[i].collateral else 0
  }

  predicate Closes(m: Market, x: U.Amendment, i: Id) {
    i in m.calls && DebtAfter(m, x, i) == 0 && CollateralAfter(m, x, i) == 0
  }

  /** The account has the collateral that it puts in and the units that it pays back, and ends with both debt and
      collateral or with neither. */
  predicate CanAmend(m: Market, x: U.Amendment, i: Id)
    requires Bit(m, x.asset).Some?
  {
    && Balance(m, x.who, x.asset) + x.debt >= 0 && Balance(m, x.who, Bit(m, x.asset).value.backing) - x.collateral >= 0
    && (Closes(m, x, i) || (DebtAfter(m, x, i) > 0 && CollateralAfter(m, x, i) > 0))
  }

  /** What is borrowed comes into circulation and to the borrower, and the collateral leaves the borrower's balance. */
  ghost predicate Amended(m: Market, m': Market, x: U.Amendment, i: Id)
    requires Bit(m, x.asset).Some?
  {
    var d, backing := m.assets[x.asset], Bit(m, x.asset).value.backing;
    && TwoGain(m, m', x.who, x.asset, x.debt, x.who, backing, 0 - x.collateral)
    && m' == m.(balances := m'.balances, calls := m'.calls, assets := m.assets[x.asset := d.(supply := d.supply + x.debt)])
    && (if Closes(m, x, i) then m'.calls == m.calls - {i}
        else
          && DebtAfter(m, x, i) >= 0 && CollateralAfter(m, x, i) >= 0
          && m'.calls == m.calls[i :=
               CallOrder(x.who, CollateralAfter(m, x, i), DebtAfter(m, x, i), backing, x.asset, x.callPrice)])
  }

  lemma AdjustGains(m: Market, who: Account, b: Asset, x: int)
    ensures var r := U.Adjust(m, who, b, x);
      && (r.Some? <==> Balance(m, who, b) + x >= 0)
      && (r.Some? ==> OneGains(m, r.value, who, b, x) && r.value == m.(balances := r.value.balances))
  {
    if x >= 0 { CreditGains(m, who, b, x); } else if Balance(m, who, b) + x >= 0 { DebitGains(m, who, b, 0 - x); }
  }

  /** The exchange, as far as there is balance. */
  lemma ExchangeGains(m: Market, x: U.Amendment)
    requires U.Open(m, x)
    ensures var r, backing := U.Exchange(m, x), Bit(m, x.asset).value.backing;
      && (r.Some? <==> Balance(m, x.who, x.asset) + x.debt >= 0 && Balance(m, x.who, backing) - x.collateral >= 0)
      && (r.Some? ==> TwoGain(m, r.value, x.who, x.asset, x.debt, x.who, backing, 0 - x.collateral)
                      && OnlyRow(m, r.value, x.asset, m.assets[x.asset].(supply := m.assets[x.asset].supply + x.debt)))
  {
    var backing := Bit(m, x.asset).value.backing;
    AdjustGains(m, x.who, x.asset, x.debt);
    var r1 := U.Adjust(m, x.who, x.asset, x.debt);
    if r1.Some? {
      var m1 := r1.value;
      assert Gain(m, m1, x.who, backing) == If(backing == x.asset, x.debt);
      var m2 := WithSupply(m1, x.asset, m1.assets[x.asset].supply + x.debt);
      AdjustGains(m2, x.who, backing, 0 - x.collateral);
      var r2 := U.Adjust(m2, x.who, backing, 0 - x.collateral);
      if r2.Some? {
        OneAndOne(m, m1, m2, r2.value, x.who, x.asset, x.debt, x.who, backing, 0 - x.collateral);
      }
    }
  }

  lemma PositionIs(m: Market, m1: Market, x: U.Amendment)
    requires m1.calls == m.calls
    ensures IsPosition(m, x, U.Position(m1, x))
  {
    var i := U.Position(m1, x);
    if i !in m.calls {
      forall j | j in m.calls ensures !(m.calls[j].borrower == x.who && m.calls[j].owed == x.asset) {
        assert j !in U.His(m1, x);
      }
    }
  }

  lemma AppliedAmends(m: Market, x: U.Amendment, i: Id)
    requires WellFormed(m) && U.Open(m, x) && IsPosition(m, x, i)
    requires U.Exchange(m, x).Some? ==> i == U.Position(U.Exchange(m, x).value, x)
    ensures U.Applied(m, x).Some? <==> CanAmend(m, x, i)
    ensures U.Applied(m, x).Some? ==> Amended(m, U.Applied(m, x).value, x, i)
  {
    ExchangeGains(m, x);
    if U.Exchange(m, x).Some? {
      if i in m.calls { assert CallOk(m, m.calls[i]); }
      AmendsPosition(m, U.Exchange(m, x).value, x, i);
    }
  }

  lemma AmendsPosition(m: Market, m1: Market, x: U.Amendment, i: Id)
    requires U.Open(m, x) && CanPayFor(m, x) && IsPosition(m, x, i)
    requires i in m.calls ==> m.calls[i].backing == Bit(m, x.asset).value.backing
    requires TwoGain(m, m1, x.who, x.asset, x.debt, x.who, Bit(m, x.asset).value.backing, 0 - x.collateral)
    requires OnlyRow(m, m1, x.asset, m.assets[x.asset].(supply := m.assets[x.asset].supply + x.debt))
    ensures U.Changed(m1, x, i).Some? <==> CanAmend(m, x, i)
    ensures U.Changed(m1, x, i).Some? ==> Amended(m, U.Changed(m1, x, i).value, x, i)
  {
    var backing := Bit(m, x.asset).value.backing;
    var r := U.Changed(m1, x, i);
    if r.Some? { TwoGainsBefore(m, m1, r.value, x.who, x.asset, x.debt, x.who, backing, 0 - x.collateral); }
  }

  predicate CanPayFor(m: Market, x: U.Amendment)
    requires Bit(m, x.asset).Some?
  {
    Balance(m, x.who, x.asset) + x.debt >= 0 && Balance(m, x.who, Bit(m, x.asset).value.backing) - x.collateral >= 0
  }

  lemma TwoGainsBefore(m: Market, m1: Market, m': Market, who: Account, b: Asset, x: int, who2: Account, b2: Asset, x2: int)
    requires TwoGain(m, m1, who, b, x, who2, b2, x2) && m'.balances == m1.balances
    ensures TwoGain(m, m', who, b, x, who2, b2, x2)
  {
    forall v: Account, a: Asset ensures Gain(m, m', v, a) == If(v == who && a == b, x) + If(v == who2 && a == b2, x2) {
      assert Gain(m, m1, v, a) == If(v == who && a == b, x) + If(v == who2 && a == b2, x2);
    }
  }

  /** The feed is above the position's call price. */
  predicate AboveFeed(c: CallOrder, b: BitAsset)
    requires b.feed.Some?
  {
    var p, f := c.callPrice, b.feed.value;
    b.backing < f.quote || (b.backing == f.quote && p.quote * f.price.quote < f.price.base * p.base)
  }

  /** Margin calls follow, with no swan allowed: if anybody is called the position must be gone after it, and otherwise
      it must be above the feed. */
  ghost predicate CheckedAfter(m: Market, x: U.Amendment, i: Id, r: Option<Market>)
    requires Bit(m, x.asset).Some?
  {
    if i !in m.calls || Bit(m, x.asset).value.prediction then r == Some(m)
    else exists run :: CallRun(m, x.asset, false, run) && AfterRun(Bit(m, x.asset).value, i, run, r)
  }

  ghost predicate AfterRun(b: BitAsset, i: Id, run: Option<(Market, bool)>, r: Option<Market>) {
    if run.None? then r.None?
    else if run.value.1 then r == (if i in run.value.0.calls then None else Some(run.value.0))
    else r == (if i in run.value.0.calls && b.feed.Some? && AboveFeed(run.value.0.calls[i], b) then Some(run.value.0) else None)
  }

  ghost predicate UpdatedAt(m: Market, x: U.Amendment, i: Id, r: Option<Market>)
    requires Bit(m, x.asset).Some?
  {
    && IsPosition(m, x, i)
    && (if !CanAmend(m, x, i) then r.None?
        else exists m1 :: Amended(m, m1, x, i) && Bit(m1, x.asset).Some? && CheckedAfter(m1, x, i, r))
  }

  ghost predicate Updated(m: Market, x: U.Amendment, r: Option<Market>) {
    if !U.Open(m, x) || !Positive(x.callPrice) then r.None? else exists i :: UpdatedAt(m, x, i, r)
  }

  lemma CheckedChecks(m: Market, x: U.Amendment, i: Id)
    requires Sound.Sound(m) && Unsettled(m, x.asset)
    ensures CheckedAfter(m, x, i, U.Checked(m, x, i))
  {
    CheckCallOrdersCalls(m, x.asset, false);
    var run := CheckCallOrders(m, x.asset, false);
    if i in m.calls && !Bit(m, x.asset).value.prediction {
      assert AfterRun(Bit(m, x.asset).value, i, run, U.Checked(m, x, i));
    }
  }

  lemma UpdateDoes(m: Market, x: U.Amendment)
    requires Sound.Sound(m)
    ensures Updated(m, x, U.Update(m, x))
  {
    if U.Open(m, x) && Positive(x.callPrice) {
      var m0 := if U.Exchange(m, x).Some? then U.Exchange(m, x).value else m;
      if U.Exchange(m, x).Some? { U.ExchangeFrame(m, x); }
      var i := U.Position(m0, x);
      PositionIs(m, m0, x);
      AppliedAmends(m, x, i);
      if U.Applied(m, x).Some? {
        U.AppliedSound(m, x);
        U.AppliedTerms(m, x);
        CheckedChecks(U.Applied(m, x).value, x, i);
      }
      assert UpdatedAt(m, x, i, U.Update(m, x));
    }
  }

  // ----- new assets ------------------------------------------------------------------------------------------

  /** Half of the fee, rounded up, is paid, and as much is in the pool of the new asset. What that makes out of nothing
      is what exceeds the fee, if it is in core, and otherwise the half that no pool has given. */
  ghost predicate AssetAdded(m: Market, m': Market, f: Fee, p: Plan, half: nat, a: Asset)
    requires f.core <= 2 * half
  {
    && a !in m.assets && a in m'.assets
    && m' == m.(assets := m.assets[a := AssetData(0, 0, half, p.feePercent, p.maxFee, m'.assets[a].bit)],
                minted := m.minted + if f.asset == CORE then 2 * half - f.core else half)
    && (match p.bit
        case None => m'.assets[a].bit.None?
        case Some(b) => m'.assets[a].bit == Some(BitAsset(b.backing, None, b.prediction, None, 0, 0, b.maxVolume, b.offset)))
  }

  ghost predicate AssetCreatedAt(m: Market, f: Fee, p: Plan, half: nat, r: Option<Market>) {
    && f.core <= 2 * half <= f.core + 1
    && exists m1, m2, a :: FeeDue(m, m1, f.(core := half)) && PendingGains(m, m1, f.payer, half)
         && AssetAdded(m1, m2, f, p, half, a) && FeePaid(m2, f.payer, r)
  }

  ghost predicate AssetCreated(m: Market, f: Fee, p: Plan, r: Option<Market>) {
    if !FeeOk(m, f) || !PlanOk(m, p) then r.None? else exists half :: AssetCreatedAt(m, f, p, half, r)
  }

  lemma CreateAssetDoes(m: Market, f: Fee, p: Plan)
    requires Healthy(m) && Idle(m)
    ensures AssetCreated(m, f, p, CreateAsset(m, f, p))
  {
    if FeeOk(m, f) && PlanOk(m, p) {
      var h := Halved(f);
      ConvertBooks(m, h);
      var m1 := Book(m, h);
      var m2 := WithNew(m, f, p);
      assert AssetAdded(m1, m2, f, p, h.core, Later(m1.assets.Keys));
      TakeFeeTakes(m2, f.payer);
      assert AssetCreatedAt(m, f, p, h.core, CreateAsset(m, f, p));
    }
  }
}
