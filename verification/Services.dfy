/** What serving a settlement request takes from the positions and gives to its owner. */
module Services {
  import opened Wrappers
  import opened Arithmetic
  import opened Constants
  import opened Prices
  import opened MarketState
  import opened MarketFill
  import opened Sound
  import opened Ranking
  import opened Effects

  // ----- one match --------------------------------------------------------------------------------------

  /** The search for the least collateralised position starts at one share for the most there can be. */
  predicate Reachable(c: CallOrder) {
    c.collateral * MAX_SHARES >= c.debt
  }

  /** Of the positions the search finds none has less collateral for its debt, and none that has as little is older. */
  ghost predicate LeastCovered(m: Market, a: Asset, i: Id) {
    && i in m.calls && m.calls[i].owed == a && Reachable(m.calls[i])
    && forall j :: j in m.calls && m.calls[j].owed == a && Reachable(m.calls[j]) ==> CoveredLess(m.calls[i], i, m.calls[j], j)
  }

  predicate CoveredLess(c: CallOrder, i: Id, d: CallOrder, j: Id) {
    && c.collateral * d.debt <= d.collateral * c.debt
    && (c.collateral * d.debt == d.collateral * c.debt ==> i <= j)
  }

  /** The position buys x units from the request, as many as are requested, may be settled and are owed, and pays their
      price, rounded down, which leaves some of its collateral. The request's owner gets the payment less the fee; the
      borrower, when the debt is paid, the rest of the collateral. */
  ghost predicate Sliced(m: Market, m': Market, k: Id, i: Id, price: Price, most: nat, x: nat, pays: nat, fee: nat)
    requires i in m.calls && k in m.settles && m.calls[i].owed in m.assets && m.calls[i].backing in m.assets
  {
    var c, s := m.calls[i], m.settles[k];
    && x <= s.balance && x <= most && x <= c.debt && (x == s.balance || x == most || x == c.debt)
    && IsFloor(pays, x * price.quote, price.base) && pays < c.collateral
    && IsFee(m.assets[c.backing], pays, fee) && fee <= pays
    && TwoGain(m, m', c.borrower, c.backing, if x == c.debt then c.collateral - pays else 0, s.owner, c.backing, pays - fee)
    && m'.calls == PositionsAfter(m.calls, i, pays, x)
    && m'.settles == (if x < s.balance then m.settles[k := s.(balance := s.balance - x)] else m.settles - {k})
    && m'.assets == AssetsAfter(m.assets, c.owed, x, c.backing, fee)
    && m'.orders == m.orders && m'.pending == m.pending && SameLedger(m, m')
  }

  lemma SlicedTogether(m: Market, m1: Market, m': Market, k: Id, i: Id, price: Price, most: nat, x: nat, pays: nat, fee: nat)
    requires i in m.calls && k in m.settles && m.calls[i].owed in m.assets && m.calls[i].backing in m.assets
    requires var c, s := m.calls[i], m.settles[k];
      && x <= s.balance && x <= most && x <= c.debt && (x == s.balance || x == most || x == c.debt)
      && IsFloor(pays, x * price.quote, price.base) && pays < c.collateral && c.owed != c.backing
      && CallFilled(m, m1, i, pays, x) && SettleFilled(m1, m', k, x, c.backing, pays, fee)
    ensures Sliced(m, m', k, i, price, most, x, pays, fee)
  {
    var c, s := m.calls[i], m.settles[k];
    SameFee(m.assets[c.backing], m1.assets[c.backing], pays, fee);
    SlicedGains(m, m1, m', c, s.owner, x, pays, fee);
  }

  lemma SlicedGains(m: Market, m1: Market, m': Market, c: CallOrder, owner: Account, x: nat, pays: nat, fee: nat)
    requires pays <= c.collateral && x <= c.debt && fee <= pays
    requires OneGains(m, m1, c.borrower, c.backing, if x == c.debt then c.collateral - pays else 0)
    requires OneGains(m1, m', owner, c.backing, pays - fee)
    ensures TwoGain(m, m', c.borrower, c.backing, if x == c.debt then c.collateral - pays else 0, owner, c.backing, pays - fee)
  {
    OneAndOne(m, m1, m1, m', c.borrower, c.backing, if x == c.debt then c.collateral - pays else 0, owner, c.backing, pays - fee);
  }

  /** The payment would take all of the collateral, or more. */
  predicate TakesAll(c: CallOrder, s: Settlement, price: Price, most: nat) {
    var x := Min(Min(s.balance, most), c.debt);
    x * price.quote >= c.collateral * price.base
  }

  // ----- the matches of a request -------------------------------------------------------------------------

  /** The least collateralised position has bought x units. */
  ghost predicate SliceBy(m: Market, m': Market, k: Id, i: Id, a: Asset, price: Price, most: nat, x: nat) {
    && k in m.settles && m.settles[k].asset == a && a in m.assets
    && LeastCovered(m, a, i) && m.calls[i].backing in m.assets
    && exists pays, fee :: Sliced(m, m', k, i, price, most, x, pays, fee)
  }

  ghost predicate SomeSlice(m: Market, m': Market, k: Id, a: Asset, price: Price, most: nat, x: nat) {
    exists i :: SliceBy(m, m', k, i, a, price, most, x)
  }

  /** One match: the volume settled goes from at to at'. */
  ghost predicate SliceTo(m: Market, m': Market, k: Id, a: Asset, price: Price, max: nat, at: nat, at': nat) {
    at <= at' <= max && SomeSlice(m, m', k, a, price, max - at, at' - at)
  }

  /** From market to market and volume to volume, each time with the least collateralised position. */
  ghost predicate SlicesOf(ms: seq<Market>, ats: seq<nat>, k: Id, a: Asset, price: Price, max: nat,
                           m: Market, at: nat, m': Market, at': nat) {
    && |ms| == |ats| && |ms| > 0 && ms[0] == m && ms[|ms| - 1] == m' && ats[0] == at && ats[|ms| - 1] == at'
    && forall n, n' :: 0 <= n < n' < |ms| && n' == n + 1 ==> SliceTo(ms[n], ms[n'], k, a, price, max, ats[n], ats[n'])
  }

  /** The request has been withdrawn, and its owner has got back what it was for. */
  ghost predicate GivenBack(m: Market, m': Market, k: Id)
    requires k in m.settles
  {
    var s := m.settles[k];
    OneGains(m, m', s.owner, s.asset, s.balance) && m' == m.(balances := m'.balances, settles := m.settles - {k})
  }

  /** The next position would have to give all it has. */
  ghost predicate SwanFor(m: Market, k: Id, a: Asset, price: Price, most: nat) {
    k in m.settles && exists i :: LeastCovered(m, a, i) && TakesAll(m.calls[i], m.settles[k], price, most)
  }

  /** The service is over: the volume is reached or the request used up. Or the request asks for nothing, or the next
      position would have to give all it has, and the request is withdrawn. */
  ghost predicate ServiceEnds(m: Market, m': Market, k: Id, a: Asset, price: Price, max: nat, at: nat) {
    if at == max || k !in m.settles then m' == m
    else GivenBack(m, m', k) && at <= max
         && (m.settles[k].balance == 0 || SwanFor(m, k, a, price, max - at))
  }

  /** A service from beginning to end. */
  ghost predicate ServiceOf(ms: seq<Market>, ats: seq<nat>, k: Id, a: Asset, price: Price, max: nat,
                            m: Market, at: nat, m': Market, at': nat) {
    |ms| > 0 && SlicesOf(ms, ats, k, a, price, max, m, at, ms[|ms| - 1], at') && ServiceEnds(ms[|ms| - 1], m', k, a, price, max, at')
  }

  lemma OneMoreSlice(m: Market, m1: Market, m': Market, ms: seq<Market>, ats: seq<nat>, k: Id, a: Asset, price: Price, max: nat,
                     at: nat, at1: nat, at': nat)
    requires SliceTo(m, m1, k, a, price, max, at, at1) && ServiceOf(ms, ats, k, a, price, max, m1, at1, m', at')
    ensures ServiceOf([m] + ms, [at] + ats, k, a, price, max, m, at, m', at')
  {
    var all, volumes := [m] + ms, [at] + ats;
    forall n, n' | 0 <= n < n' < |all| && n' == n + 1 ensures SliceTo(all[n], all[n'], k, a, price, max, volumes[n], volumes[n']) {
      if n > 0 { assert SliceTo(ms[n - 1], ms[n' - 1], k, a, price, max, ats[n - 1], ats[n' - 1]); }
    }
  }

  lemma NoSlice(m: Market, m': Market, k: Id, a: Asset, price: Price, max: nat, at: nat)
    requires ServiceEnds(m, m', k, a, price, max, at)
    ensures ServiceOf([m], [at], k, a, price, max, m, at, m', at)
  {}

  /** There is such a service. */
  ghost predicate ServedBy(m: Market, m': Market, k: Id, a: Asset, price: Price, at: nat, at': nat, max: nat) {
    exists ms, ats :: ServiceOf(ms, ats, k, a, price, max, m, at, m', at')
  }

  lemma OverAtOnce(m: Market, k: Id, a: Asset, price: Price, at: nat, max: nat)
    requires at == max || k !in m.settles
    ensures ServedBy(m, m, k, a, price, at, at, max)
  {
    NoSlice(m, m, k, a, price, max, at);
  }

  lemma CancelGivesBack(m: Market, k: Id)
    requires k in m.settles
    ensures GivenBack(m, CancelSettle(m, k), k)
  {
    CancelSettleEffect(m, k);
  }

  lemma Withdrawn(m: Market, k: Id, a: Asset, price: Price, at: nat, max: nat)
    requires k in m.settles && at < max && (m.settles[k].balance == 0 || SwanFor(m, k, a, price, max - at))
    ensures ServedBy(m, CancelSettle(m, k), k, a, price, at, at, max)
  {
    CancelGivesBack(m, k);
    NoSlice(m, CancelSettle(m, k), k, a, price, max, at);
  }

  lemma ServedLater(m: Market, m1: Market, m': Market, k: Id, a: Asset, price: Price, at: nat, at1: nat, at': nat, max: nat)
    requires SliceTo(m, m1, k, a, price, max, at, at1) && ServedBy(m1, m', k, a, price, at1, at', max)
    ensures ServedBy(m, m', k, a, price, at, at', max)
  {
    var ms, ats :| ServiceOf(ms, ats, k, a, price, max, m1, at1, m', at');
    OneMoreSlice(m, m1, m', ms, ats, k, a, price, max, at, at1, at');
  }

  // ----- the terms ------------------------------------------------------------------------------------------

  /** What the feed says the request is worth, rounded down, and of that all but the offset, rounded down. */
  predicate IsPayment(s: Settlement, b: BitAsset, worth: nat, pay: nat)
    requires b.feed.Some? && b.offset <= HUNDRED_PERCENT
  {
    var p := b.feed.value.price;
    && IsFloor(worth, s.balance * p.quote, p.base)
    && IsFloor(pay, (HUNDRED_PERCENT - b.offset) * worth, HUNDRED_PERCENT)
  }

  /** The permitted percentage of what circulates and what has been settled, rounded down. */
  predicate IsLimit(b: BitAsset, supply: nat, limit: nat) {
    IsFloor(limit, (supply + b.forceSettled) * b.maxVolume, HUNDRED_PERCENT)
  }

  /** A due request is dealt with at one price for all of it, up to the limit; and what has been settled is booked. */
  ghost predicate DealtAt(m: Market, m': Market, k: Id, worth: nat, pay: nat, limit: nat) {
    && k in m.settles && Unsettled(m, m.settles[k].asset)
    && var s := m.settles[k];
       var a, b := s.asset, Bit(m, s.asset).value;
       && b.feed.Some? && b.offset <= HUNDRED_PERCENT && m.assets[a].supply >= 0
       && IsPayment(s, b, worth, pay) && IsLimit(b, m.assets[a].supply, limit)
       && exists m1, volume :: ServedBy(m, m1, k, a, Price(s.balance, pay), b.forceSettled, volume, limit) && Booked(m1, m', a, volume)
  }

  ghost predicate Dealing(m: Market, m': Market, k: Id) {
    exists worth, pay, limit :: DealtAt(m, m', k, worth, pay, limit)
  }

  predicate Booked(m: Market, m': Market, a: Asset, volume: nat) {
    Bit(m, a).Some? && m' == m.(assets := m.assets[a := m.assets[a].(bit := Some(Bit(m, a).value.(forceSettled := volume)))])
  }
}
