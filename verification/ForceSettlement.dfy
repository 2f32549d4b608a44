/** Settlement requests that have come due, served out of the least collateralised positions. */
module ForceSettlement {
  import opened Wrappers
  import opened Arithmetic
  import opened Constants
  import opened Prices
  import opened Sums
  import opened MarketState
  import opened MarketFill
  import opened Sound
  import opened Ranking
  import opened MarginCalls
  import opened MarginLoop
  import opened Effects
  import opened Services

  /** How much of an asset may be settled between two maintenance intervals. */
  function MaxVolume(b: BitAsset, supply: nat): nat {
    if b.maxVolume == 0 then 0
    else if b.maxVolume == HUNDRED_PERCENT then supply + b.forceSettled
    else Percent(supply + b.forceSettled, b.maxVolume)
  }

  /** It does not depend on how much has been settled already. */
  lemma MaxVolumeStable(b: BitAsset, b': BitAsset, supply: nat, supply': nat)
    requires b' == b.(forceSettled := b'.forceSettled) && supply' + b'.forceSettled == supply + b.forceSettled
    ensures MaxVolume(b', supply') == MaxVolume(b, supply)
  {}

  // ----- one match -----------------------------------------------------------------------------

  /** Positions that the search finds, by debt per collateral: the least collateralised comes first. */
  function ByCollateral(m: Market, a: Asset): map<Id, Price> {
    map i | i in m.calls && m.calls[i].owed == a && Reachable(m.calls[i]) :: Price(m.calls[i].debt, m.calls[i].collateral)
  }

  function FoundDebtIn(a: Asset): (Id, CallOrder) -> int {
    (k: Id, c: CallOrder) => if c.owed == a && Reachable(c) then c.debt else 0
  }

  /** What the positions owe that the search finds. */
  ghost function FoundDebts(m: Market, a: Asset): int {
    SumBy(m.calls, FoundDebtIn(a))
  }

  /** Some position has no collateral, or owes more than there can be of anything. */
  ghost predicate Faint(m: Market, a: Asset) {
    exists i :: i in m.calls && m.calls[i].owed == a && !Solid(m.calls[i])
  }

  predicate Solid(c: CallOrder) {
    c.collateral > 0 && c.debt <= MAX_SHARES
  }

  lemma SolidReachable(c: CallOrder)
    requires Solid(c)
    ensures Reachable(c)
  {
    MulLess(1, c.collateral, MAX_SHARES);
  }

  /** If no position is faint, all debts are found. */
  lemma AllFound(m: Market, a: Asset)
    requires !Faint(m, a)
    ensures FoundDebts(m, a) == Debts(m, a)
  {
    forall i | i in m.calls ensures FoundDebtIn(a)(i, m.calls[i]) == DebtIn(a)(i, m.calls[i]) {
      if m.calls[i].owed == a { SolidReachable(m.calls[i]); }
    }
    SumSame(m.calls, FoundDebtIn(a), DebtIn(a));
  }

  lemma FoundAtLeast(m: Market, a: Asset, i: Id)
    requires i in ByCollateral(m, a)
    ensures m.calls[i].debt <= FoundDebts(m, a)
  {
    SumAtLeast(m.calls, FoundDebtIn(a), i);
  }

  lemma NoneFound(m: Market, a: Asset)
    requires ByCollateral(m, a) == map[]
    ensures FoundDebts(m, a) == 0
  {
    forall i | i in m.calls ensures FoundDebtIn(a)(i, m.calls[i]) == 0 { assert i !in ByCollateral(m, a); }
    SumZero(m.calls, FoundDebtIn(a));
  }

  predicate Requested(m: Market, k: Id, a: Asset) {
    k in m.settles && m.settles[k].asset == a
  }

  /** Requests for nothing are accepted, and cancelled when they come due. */
  predicate Wanted(m: Market, k: Id, a: Asset) {
    Requested(m, k, a) && m.settles[k].balance > 0
  }

  /** There is a position to settle against exactly when the asset is in circulation, unless positions are
      too faint to be found. */
  lemma AlwaysAPosition(m: Market, a: Asset)
    requires Sound.Sound(m) && Unsettled(m, a)
    ensures Supply(m, a) >= 0
    ensures ByCollateral(m, a) != map[] ==> Supply(m, a) > 0
    ensures !Faint(m, a) ==> (Supply(m, a) > 0 <==> ByCollateral(m, a) != map[])
  {
    assert Books(m, a);
    SomebodyOwes(m, a);
    if ByCollateral(m, a) != map[] {
      var i :| i in ByCollateral(m, a);
      assert m.calls[i].owed == a;
    } else if !Faint(m, a) {
      NoneFound(m, a);
      AllFound(m, a);
    }
  }

  ghost function Weakest(m: Market, a: Asset): (i: Id)
    requires WellFormed(m) && ByCollateral(m, a) != map[]
    ensures i in m.calls && m.calls[i].owed == a && Reachable(m.calls[i]) && IsFirst(ByCollateral(m, a), i)
  {
    forall j | j in m.calls ensures m.calls[j].debt > 0 { assert CallOk(m, m.calls[j]); }
    First(ByCollateral(m, a))
  }

  /** What a match settles. */
  function Portion(c: CallOrder, s: Settlement, most: nat): nat {
    Min(Min(s.balance, most), c.debt)
  }

  predicate Servable(m: Market, i: Id, k: Id) {
    && i in m.calls && k in m.settles && m.calls[i].owed == m.settles[k].asset
    && m.calls[i].owed in m.assets && Fees(m, m.calls[i].backing) && m.calls[i].backing != m.calls[i].owed
  }

  datatype Service = Refused | BlackSwan | Paid(market: Market, amount: nat)

  /** Refused, by an assertion that lets nothing of the operation stand, when the position has no
      collateral left, or the price is not in what its collateral is; a swan when it would have to give all
      its collateral or more. */
  function Serve(m: Market, i: Id, k: Id, price: Price, most: nat): Service
    requires Servable(m, i, k) && price.base > 0
  {
    var c, s := m.calls[i], m.settles[k];
    var x := Portion(c, s, most);
    var pays := ToQuote(x, price);
    if c.collateral == 0 || Askew(m, s.asset) then Refused
    else if pays >= c.collateral then BlackSwan
    else
      FillCallFrame(m, i, pays, x);
      Paid(FillSettle(FillCall(m, i, pays, x).0, k, x, c.backing, pays).0, x)
  }

  lemma FillSettleFrame(m: Market, k: Id, pays: nat, backing: Asset, receives: nat)
    requires k in m.settles && pays <= m.settles[k].balance && Fees(m, backing)
    ensures var m' := FillSettle(m, k, pays, backing, receives).0;
      && SameTerms(m, m') && m'.orders == m.orders && m'.calls == m.calls
      && m'.settles == SettlesAfter(m.settles, k, pays)
  {
    PayOutFrame(m, m.settles[k].owner, backing, receives);
    TakeSettledFrame(PayOut(m, m.settles[k].owner, backing, receives), k, m.settles[k], pays);
  }

  function SettlesAfter(settles: map<Id, Settlement>, k: Id, pays: nat): map<Id, Settlement>
    requires k in settles && pays <= settles[k].balance
  {
    var s := settles[k];
    if pays < s.balance then settles[k := s.(balance := s.balance - pays)] else settles - {k}
  }

  lemma ServeFrame(m: Market, i: Id, k: Id, price: Price, most: nat)
    requires Servable(m, i, k) && price.base > 0 && Serve(m, i, k, price, most).Paid?
    ensures var Paid(m', x) := Serve(m, i, k, price, most);
      && x == Portion(m.calls[i], m.settles[k], most)
      && SameConfig(m, m') && m'.orders == m.orders
      && m'.settles == SettlesAfter(m.settles, k, x)
      && ToQuote(x, price) <= m.calls[i].collateral && m'.calls == CallsAfter(m.calls, i, ToQuote(x, price), x)
      && (forall b :: b in m.assets ==> Supply(m', b) == Supply(m, b) - If(b == m.settles[k].asset, x))
  {
    var c, s := m.calls[i], m.settles[k];
    var x := Portion(c, s, most);
    FillCallFrame(m, i, ToQuote(x, price), x);
    FillSettleFrame(FillCall(m, i, ToQuote(x, price), x).0, k, x, c.backing, ToQuote(x, price));
  }

  lemma ServeKeeps(m: Market, i: Id, k: Id, price: Price, most: nat)
    requires WellFormed(m) && Servable(m, i, k) && price.base > 0 && Serve(m, i, k, price, most).Paid?
    ensures WellFormed(Serve(m, i, k, price, most).market)
  {
    var x := Portion(m.calls[i], m.settles[k], most);
    FillCallKeeps(m, i, ToQuote(x, price), x);
    FillCallFrame(m, i, ToQuote(x, price), x);
    var m1 := FillCall(m, i, ToQuote(x, price), x).0;
    FillSettleFrame(m1, k, x, m.calls[i].backing, ToQuote(x, price));
    assert SettleOk(m1, m1.settles[k]);
    ConfigKeeps(m1, Serve(m, i, k, price, most).market);
  }

  lemma ServeHeld(m: Market, i: Id, k: Id, price: Price, most: nat, a: Asset)
    requires Servable(m, i, k) && price.base > 0 && Serve(m, i, k, price, most).Paid?
    ensures var Paid(m', x) := Serve(m, i, k, price, most);
      && Held(m', a) == Held(m, a) - If(a == m.settles[k].asset, x)
      && Debts(m', a) == Debts(m, a) - If(a == m.settles[k].asset, x)
  {
    var c := m.calls[i];
    var x := Portion(c, m.settles[k], most);
    FillCallFrame(m, i, ToQuote(x, price), x);
    FillCallHeld(m, i, ToQuote(x, price), x, a);
    var m1 := FillCall(m, i, ToQuote(x, price), x).0;
    FillSettleFrame(m1, k, x, c.backing, ToQuote(x, price));
    FillSettleHeld(m1, k, x, c.backing, ToQuote(x, price), a);
  }

  lemma ServeBooks(m: Market, i: Id, k: Id, price: Price, most: nat, a: Asset)
    requires Sound.Sound(m) && Servable(m, i, k) && price.base > 0 && Serve(m, i, k, price, most).Paid?
    ensures Books(Serve(m, i, k, price, most).market, a)
  {
    assert Books(m, a) && CallOk(m, m.calls[i]);
    ServeFrame(m, i, k, price, most);
    ServeHeld(m, i, k, price, most, a);
    BooksLess(m, Serve(m, i, k, price, most).market, a, m.settles[k].asset, Serve(m, i, k, price, most).amount);
  }

  lemma ServeSound(m: Market, i: Id, k: Id, price: Price, most: nat)
    requires Sound.Sound(m) && Servable(m, i, k) && price.base > 0 && Serve(m, i, k, price, most).Paid?
    ensures Sound.Sound(Serve(m, i, k, price, most).market)
  {
    ServeKeeps(m, i, k, price, most);
    forall a ensures Books(Serve(m, i, k, price, most).market, a) { ServeBooks(m, i, k, price, most, a); }
  }

  lemma SliceEffect(m: Market, i: Id, k: Id, price: Price, most: nat) returns (pays: nat, fee: nat)
    requires Servable(m, i, k) && price.base > 0 && Serve(m, i, k, price, most).Paid?
    ensures Sliced(m, Serve(m, i, k, price, most).market, k, i, price, most, Serve(m, i, k, price, most).amount, pays, fee)
  {
    var c, s := m.calls[i], m.settles[k];
    var x := Portion(c, s, most);
    pays := ToQuote(x, price);
    FloorIs(x * price.quote, price.base);
    FillCallFrame(m, i, pays, x);
    FillCallEffect(m, i, pays, x);
    var m1 := FillCall(m, i, pays, x).0;
    fee := FillSettleEffect(m1, k, x, c.backing, pays);
    SlicedTogether(m, m1, FillSettle(m1, k, x, c.backing, pays).0, k, i, price, most, x, pays, fee);
  }

  lemma SwanIff(m: Market, i: Id, k: Id, price: Price, most: nat)
    requires Servable(m, i, k) && price.base > 0 && m.calls[i].collateral > 0 && !Askew(m, m.settles[k].asset)
    ensures Serve(m, i, k, price, most).BlackSwan? <==> TakesAll(m.calls[i], m.settles[k], price, most)
  {
    var x := Portion(m.calls[i], m.settles[k], most);
    FloorIff(x * price.quote, price.base, m.calls[i].collateral);
  }

  // ----- one request -----------------------------------------------------------------------------

  lemma WeakestServable(m: Market, k: Id, a: Asset)
    requires WellFormed(m) && Requested(m, k, a) && ByCollateral(m, a) != map[]
    ensures Servable(m, Weakest(m, a), k)
  {
    var i := Weakest(m, a);
    assert CallOk(m, m.calls[i]);
    assert AssetOk(m, a) && AssetOk(m, m.calls[i].backing);
  }

  lemma CancelSettleKeeps(m: Market, k: Id)
    requires WellFormed(m) && k in m.settles
    ensures var m' := CancelSettle(m, k);
      WellFormed(m') && SameLedger(m, m') && m'.assets == m.assets && m'.calls == m.calls && m'.orders == m.orders && m'.settles == m.settles - {k}
  {
    var m' := CancelSettle(m, k);
    assert SameLedger(m, m') && m'.assets == m.assets && m'.calls == m.calls && m'.orders == m.orders && m'.settles == m.settles - {k};
    ConfigKeeps(m, m');
  }

  lemma CancelSettleSound(m: Market, k: Id)
    requires Sound.Sound(m) && k in m.settles
    ensures Sound.Sound(CancelSettle(m, k))
  {
    CancelSettleKeeps(m, k);
    var m' := CancelSettle(m, k);
    forall a ensures Books(m', a) {
      assert Books(m, a);
      CancelSettleHeld(m, k, a);
    }
  }

  /** Other requests, and all orders, are left alone. */
  ghost predicate OthersKept(m: Market, m': Market, k: Id) {
    && m'.orders == m.orders
    && m'.settles.Keys <= m.settles.Keys
    && (forall j :: j in m.settles && j != k ==> j in m'.settles && m'.settles[j] == m.settles[j])
  }

  /** No position is new, owes more, or has run out of collateral. */
  ghost predicate NoFainter(m: Market, m': Market) {
    forall i :: i in m'.calls ==> i in m.calls && NoWorse(m.calls[i], m'.calls[i])
  }

  predicate NoWorse(c: CallOrder, c': CallOrder) {
    c'.owed == c.owed && c'.debt <= c.debt && (c'.collateral == 0 ==> c.collateral == 0)
  }

  lemma FaintBefore(m: Market, m': Market, a: Asset)
    requires NoFainter(m, m') && Faint(m', a)
    ensures Faint(m, a)
  {
    var i :| i in m'.calls && m'.calls[i].owed == a && !Solid(m'.calls[i]);
    assert NoWorse(m.calls[i], m'.calls[i]);
  }

  /** The request is the same but for its balance. */
  predicate SameRequest(s: Settlement, s': Settlement) {
    s' == s.(balance := s'.balance) && s'.balance <= s.balance
  }

  /** x units of asset a have been settled for request k. */
  ghost predicate Served(m: Market, m': Market, k: Id, a: Asset, x: nat) {
    && OthersKept(m, m', k) && (k in m'.settles ==> k in m.settles && SameRequest(m.settles[k], m'.settles[k]))
    && a in m.assets && SameLedger(m, m') && m'.assets.Keys == m.assets.Keys
    && (forall b :: b in m.assets ==> m'.assets[b].bit == m.assets[b].bit && Supply(m', b) == Supply(m, b) - If(b == a, x))
    && NoFainter(m, m')
  }

  lemma ServeServed(m: Market, i: Id, k: Id, a: Asset, price: Price, most: nat)
    requires Servable(m, i, k) && m.settles[k].asset == a && price.base > 0 && Serve(m, i, k, price, most).Paid?
    ensures var Paid(m', x) := Serve(m, i, k, price, most); Served(m, m', k, a, x) && x <= most
  {
    ServeFrame(m, i, k, price, most);
  }

  lemma ServePositive(m: Market, i: Id, k: Id, price: Price, most: nat)
    requires WellFormed(m) && Servable(m, i, k) && price.base > 0 && most > 0 && m.settles[k].balance > 0 && Serve(m, i, k, price, most).Paid?
    ensures Serve(m, i, k, price, most).amount > 0
  {
    assert CallOk(m, m.calls[i]);
  }

  /** Every match that is made settles something. */
  lemma ServeProgress(m: Market, i: Id, k: Id, price: Price, most: nat)
    requires WellFormed(m) && Servable(m, i, k) && price.base > 0 && most > 0 && m.settles[k].balance > 0
    ensures var r := Serve(m, i, k, price, most);
      r.Paid? ==> 0 < r.amount <= most && WellFormed(r.market) && Served(m, r.market, k, m.settles[k].asset, r.amount)
  {
    if Serve(m, i, k, price, most).Paid? {
      ServeKeeps(m, i, k, price, most);
      ServeServed(m, i, k, m.settles[k].asset, price, most);
      ServePositive(m, i, k, price, most);
    }
  }

  /** One turn: the weakest position serves the request. */
  ghost function ServeTurn(m: Market, k: Id, a: Asset, price: Price, most: nat): Service
    requires WellFormed(m) && price.base > 0 && Requested(m, k, a) && ByCollateral(m, a) != map[]
  {
    WeakestServable(m, k, a);
    Serve(m, Weakest(m, a), k, price, most)
  }

  lemma TurnProgress(m: Market, k: Id, a: Asset, price: Price, most: nat)
    requires WellFormed(m) && price.base > 0 && Wanted(m, k, a) && ByCollateral(m, a) != map[] && most > 0
    ensures var r := ServeTurn(m, k, a, price, most);
      r.Paid? ==> 0 < r.amount <= most && WellFormed(r.market) && Served(m, r.market, k, a, r.amount)
  {
    WeakestServable(m, k, a);
    ServeProgress(m, Weakest(m, a), k, price, most);
  }

  lemma TurnSound(m: Market, k: Id, a: Asset, price: Price, most: nat)
    requires Sound.Sound(m) && price.base > 0 && Requested(m, k, a) && ByCollateral(m, a) != map[]
    ensures var r := ServeTurn(m, k, a, price, most); r.Paid? ==> Sound.Sound(r.market)
  {
    WeakestServable(m, k, a);
    if ServeTurn(m, k, a, price, most).Paid? {
      ServeSound(m, Weakest(m, a), k, price, most);
    }
  }

  lemma WeakestIsLeast(m: Market, a: Asset)
    requires WellFormed(m) && ByCollateral(m, a) != map[]
    ensures LeastCovered(m, a, Weakest(m, a))
  {
    var i := Weakest(m, a);
    forall j | j in m.calls && m.calls[j].owed == a && Reachable(m.calls[j])
      ensures CoveredLess(m.calls[i], i, m.calls[j], j)
    {
      assert Ahead(ByCollateral(m, a), i, j);
    }
  }

  /** What a turn does, and what makes it a swan. */
  lemma TurnEffect(m: Market, k: Id, a: Asset, price: Price, most: nat, r: Service)
    requires WellFormed(m) && price.base > 0 && Wanted(m, k, a) && ByCollateral(m, a) != map[]
    requires r == ServeTurn(m, k, a, price, most)
    ensures r.Paid? ==> SomeSlice(m, r.market, k, a, price, most, r.amount)
    ensures r.BlackSwan? ==> SwanFor(m, k, a, price, most)
  {
    var i := Weakest(m, a);
    WeakestServable(m, k, a);
    WeakestIsLeast(m, a);
    if r.Paid? {
      var pays, fee := SliceEffect(m, i, k, price, most);
      assert SliceBy(m, r.market, k, i, a, price, most, r.amount);
    } else if r.BlackSwan? {
      SwanIff(m, i, k, price, most);
    }
  }

  lemma ServedTwice(m: Market, m1: Market, m2: Market, k: Id, a: Asset, x: nat, y: nat)
    requires Served(m, m1, k, a, x) && Served(m1, m2, k, a, y)
    ensures Served(m, m2, k, a, x + y)
  {}

  /** The request is gone or the volume is exhausted, never exceeded; and what was settled has left the supply. */
  ghost predicate ServedOut(m: Market, m': Market, k: Id, a: Asset, settled: nat, settled': nat, max: nat) {
    && Sound.Sound(m') && settled <= settled' <= max
    && Served(m, m', k, a, settled' - settled)
    && (Askew(m, a) ==> settled' == settled)
    && (k !in m'.settles || settled' == max)
  }

  // ----- when a request is refused -------------------------------------------------------------------

  /** More is wanted than the positions that are found owe, and none of them is a swan at the price. */
  ghost predicate Outrun(m: Market, a: Asset, price: Price, wanted: nat)
    requires price.base > 0
  {
    && FoundDebts(m, a) < wanted
    && forall i :: i in ByCollateral(m, a) ==> ToQuote(m.calls[i].debt, price) < m.calls[i].collateral
  }

  /** Something is wanted and could be settled, but the price is not in the backing asset, or the positions
      that are found run out. */
  ghost predicate Stalled(m: Market, k: Id, a: Asset, price: Price, settled: nat, max: nat) {
    && settled < max && Wanted(m, k, a) && price.base > 0
    && (Askew(m, a) || Outrun(m, a, price, Min(m.settles[k].balance, max - settled)))
  }

  /** Running out takes a faint position, as no more may be settled than circulates. */
  lemma OutrunFaint(m: Market, a: Asset, price: Price, wanted: nat)
    requires Sound.Sound(m) && Unsettled(m, a) && price.base > 0 && wanted <= Supply(m, a)
    requires Outrun(m, a, price, wanted)
    ensures Faint(m, a)
  {
    assert Books(m, a);
    if !Faint(m, a) { AllFound(m, a); }
  }

  lemma NoPositionOutruns(m: Market, a: Asset, price: Price, wanted: nat)
    requires price.base > 0 && ByCollateral(m, a) == map[] && wanted > 0
    ensures Outrun(m, a, price, wanted)
  {
    NoneFound(m, a);
  }

  /** A swan ends the service before the positions can run out. */
  lemma SwanStops(m: Market, k: Id, a: Asset, price: Price, most: nat)
    requires WellFormed(m) && price.base > 0 && Wanted(m, k, a) && ByCollateral(m, a) != map[]
    requires ServeTurn(m, k, a, price, most).BlackSwan?
    ensures !Outrun(m, a, price, Min(m.settles[k].balance, most))
  {
    WeakestServable(m, k, a);
    FoundAtLeast(m, a, Weakest(m, a));
  }

  lemma TurnRefuses(m: Market, k: Id, a: Asset, price: Price, most: nat)
    requires WellFormed(m) && price.base > 0 && Requested(m, k, a) && ByCollateral(m, a) != map[]
    ensures ServeTurn(m, k, a, price, most).Refused? <==> Askew(m, a)
  {
    WeakestServable(m, k, a);
    assert CallOk(m, m.calls[Weakest(m, a)]);
  }

  /** What one turn serves is taken off what is wanted and off what is found. */
  lemma ClosedOutruns(m: Market, m': Market, i: Id, a: Asset, price: Price, wanted: nat)
    requires price.base > 0 && i in ByCollateral(m, a) && m'.calls == m.calls - {i} && m.calls[i].debt < wanted
    requires ToQuote(m.calls[i].debt, price) < m.calls[i].collateral
    ensures Outrun(m, a, price, wanted) <==> Outrun(m', a, price, wanted - m.calls[i].debt)
  {
    SumDrop(m.calls, FoundDebtIn(a), i);
    assert forall j :: j in ByCollateral(m', a) <==> j in ByCollateral(m, a) && j != i;
  }

  /** The positions run out for what is wanted exactly if they do for what is left after x units. */
  ghost predicate OutrunsAlike(m: Market, m': Market, k: Id, a: Asset, price: Price, most: nat, x: nat)
    requires price.base > 0 && k in m.settles && x <= most
  {
    Outrun(m, a, price, Min(m.settles[k].balance, most))
    <==> x < most && k in m'.settles && Outrun(m', a, price, Min(m'.settles[k].balance, most - x))
  }

  lemma TurnOutruns(m: Market, k: Id, a: Asset, price: Price, most: nat)
    requires WellFormed(m) && price.base > 0 && Wanted(m, k, a) && ByCollateral(m, a) != map[] && most > 0
    requires ServeTurn(m, k, a, price, most).Paid?
    ensures var r := ServeTurn(m, k, a, price, most); r.amount <= most && OutrunsAlike(m, r.market, k, a, price, most, r.amount)
  {
    var i := Weakest(m, a);
    var Paid(m', x) := ServeTurn(m, k, a, price, most);
    WeakestServable(m, k, a);
    ServeFrame(m, i, k, price, most);
    var c, wanted := m.calls[i], Min(m.settles[k].balance, most);
    if c.debt < wanted {
      ClosedOutruns(m, m', i, a, price, wanted);
    } else {
      FoundAtLeast(m, a, i);
    }
  }

  // ----- one service -------------------------------------------------------------------------------

  /** Refused exactly when the service stalls. */
  ghost predicate GoodService(m: Market, r: Service, k: Id, a: Asset, price: Price, settled: nat, max: nat) {
    && !r.BlackSwan?
    && (r.Refused? <==> Stalled(m, k, a, price, settled, max))
    && (r.Paid? ==> ServedOut(m, r.market, k, a, settled, r.amount, max) && ServedBy(m, r.market, k, a, price, settled, r.amount, max))
  }

  /** One turn has served x units, and the service goes on. */
  ghost predicate Goes(m: Market, m': Market, k: Id, a: Asset, price: Price, settled: nat, x: nat, max: nat) {
    && 0 < x && settled + x <= max
    && Served(m, m', k, a, x) && !Askew(m, a) && SliceTo(m, m', k, a, price, max, settled, settled + x)
    && (Stalled(m, k, a, price, settled, max) <==> Stalled(m', k, a, price, settled + x, max))
  }

  lemma ServedOutLater(m: Market, m1: Market, r: Service, k: Id, a: Asset, price: Price, x: nat, settled: nat, max: nat)
    requires Goes(m, m1, k, a, price, settled, x, max) && GoodService(m1, r, k, a, price, settled + x, max)
    ensures GoodService(m, r, k, a, price, settled, max)
  {
    if r.Paid? {
      ServedTwice(m, m1, r.market, k, a, x, r.amount - (settled + x));
      ServedLater(m, m1, r.market, k, a, price, settled, settled + x, r.amount, max);
    }
  }

  lemma CancelledOut(m: Market, k: Id, a: Asset, settled: nat, max: nat)
    requires Sound.Sound(m) && Requested(m, k, a) && a in m.assets && settled <= max
    ensures ServedOut(m, CancelSettle(m, k), k, a, settled, settled, max)
  {
    CancelSettleSound(m, k);
    CancelSettleKeeps(m, k);
  }

  /** What a turn is known to come to. */
  ghost predicate TurnResult(m: Market, r: Service, k: Id, a: Asset, price: Price, most: nat)
    requires price.base > 0 && k in m.settles
  {
    && (r.Refused? <==> Askew(m, a))
    && (r.BlackSwan? ==> !Outrun(m, a, price, Min(m.settles[k].balance, most)) && SwanFor(m, k, a, price, most))
    && (r.Paid? ==> PaidResult(m, r.market, r.amount, k, a, price, most))
  }

  ghost predicate PaidResult(m: Market, m': Market, x: nat, k: Id, a: Asset, price: Price, most: nat)
    requires price.base > 0 && k in m.settles
  {
    && Sound.Sound(m') && 0 < x <= most && Served(m, m', k, a, x)
    && Bit(m', a) == Bit(m, a) && (k in m'.settles ==> Wanted(m', k, a))
    && OutrunsAlike(m, m', k, a, price, most, x) && SomeSlice(m, m', k, a, price, most, x)
  }

  lemma TurnResults(m: Market, k: Id, a: Asset, price: Price, most: nat, r: Service)
    requires Sound.Sound(m) && price.base > 0 && Wanted(m, k, a) && ByCollateral(m, a) != map[] && most > 0
    requires r == ServeTurn(m, k, a, price, most)
    ensures TurnResult(m, r, k, a, price, most)
  {
    TurnRefuses(m, k, a, price, most);
    TurnEffect(m, k, a, price, most, r);
    if r.BlackSwan? { SwanStops(m, k, a, price, most); }
    if r.Paid? { PaidResults(m, k, a, price, most, r); }
  }

  lemma PaidResults(m: Market, k: Id, a: Asset, price: Price, most: nat, r: Service)
    requires Sound.Sound(m) && price.base > 0 && Wanted(m, k, a) && ByCollateral(m, a) != map[] && most > 0
    requires r == ServeTurn(m, k, a, price, most) && r.Paid?
    ensures PaidResult(m, r.market, r.amount, k, a, price, most)
  {
    TurnProgress(m, k, a, price, most);
    TurnSound(m, k, a, price, most);
    TurnOutruns(m, k, a, price, most);
    StillWanted(m, k, a, price, most);
    TurnEffect(m, k, a, price, most, r);
  }

  lemma ServiceGoes(m: Market, m': Market, k: Id, a: Asset, price: Price, settled: nat, x: nat, max: nat)
    requires price.base > 0 && Wanted(m, k, a) && settled < max && !Askew(m, a) && 0 < x <= max - settled
    requires Served(m, m', k, a, x) && Bit(m', a) == Bit(m, a) && (k in m'.settles ==> Wanted(m', k, a))
    requires OutrunsAlike(m, m', k, a, price, max - settled, x) && SomeSlice(m, m', k, a, price, max - settled, x)
    ensures Goes(m, m', k, a, price, settled, x, max)
  {
    StallsAlike(m, m', k, a, price, settled, x, max);
  }

  /** When the feed is not askew it is only the positions that can stall a service. */
  lemma StallsAlike(m: Market, m': Market, k: Id, a: Asset, price: Price, settled: nat, x: nat, max: nat)
    requires price.base > 0 && Wanted(m, k, a) && settled < max && !Askew(m, a)
    requires Bit(m', a) == Bit(m, a) && (k in m'.settles ==> Wanted(m', k, a))
    requires x <= max - settled && OutrunsAlike(m, m', k, a, price, max - settled, x)
    ensures Stalled(m, k, a, price, settled, max) <==> Stalled(m', k, a, price, settled + x, max)
  {}

  lemma StillWanted(m: Market, k: Id, a: Asset, price: Price, most: nat)
    requires WellFormed(m) && price.base > 0 && Wanted(m, k, a) && ByCollateral(m, a) != map[]
    requires ServeTurn(m, k, a, price, most).Paid?
    ensures var m' := ServeTurn(m, k, a, price, most).market;
      (k in m'.settles ==> Wanted(m', k, a)) && Bit(m', a) == Bit(m, a)
  {
    WeakestServable(m, k, a);
    ServeFrame(m, Weakest(m, a), k, price, most);
    assert AssetOk(m, a);
  }

  /** What a request needs to be served. */
  ghost predicate CanServe(m: Market, k: Id, a: Asset, price: Price, settled: nat, max: nat) {
    && Sound.Sound(m) && Unsettled(m, a) && (k in m.settles ==> Requested(m, k, a))
    && (Wanted(m, k, a) ==> price.base > 0) && settled <= max
  }

  /** A turn ends the service well, or it goes on. */
  lemma AfterTurn(m: Market, k: Id, a: Asset, price: Price, settled: nat, max: nat, r: Service)
    requires Sound.Sound(m) && Unsettled(m, a) && price.base > 0 && Wanted(m, k, a) && settled < max
    requires ByCollateral(m, a) != map[] && r == ServeTurn(m, k, a, price, max - settled)
    ensures r.Refused? ==> GoodService(m, Refused, k, a, price, settled, max)
    ensures r.BlackSwan? ==> GoodService(m, Paid(CancelSettle(m, k), settled), k, a, price, settled, max)
    ensures r.Paid? ==> CanServe(r.market, k, a, price, settled + r.amount, max) && Goes(m, r.market, k, a, price, settled, r.amount, max)
  {
    TurnResults(m, k, a, price, max - settled, r);
    AfterResult(m, k, a, price, settled, max, r);
  }

  lemma AfterResult(m: Market, k: Id, a: Asset, price: Price, settled: nat, max: nat, r: Service)
    requires Sound.Sound(m) && Unsettled(m, a) && price.base > 0 && Wanted(m, k, a) && settled < max
    requires TurnResult(m, r, k, a, price, max - settled)
    ensures r.Refused? ==> GoodService(m, Refused, k, a, price, settled, max)
    ensures r.BlackSwan? ==> GoodService(m, Paid(CancelSettle(m, k), settled), k, a, price, settled, max)
    ensures r.Paid? ==> CanServe(r.market, k, a, price, settled + r.amount, max) && Goes(m, r.market, k, a, price, settled, r.amount, max)
  {
    if r.BlackSwan? { SwanEnds(m, k, a, price, settled, max); }
    if r.Paid? { ServiceGoes(m, r.market, k, a, price, settled, r.amount, max); }
  }

  lemma SwanEnds(m: Market, k: Id, a: Asset, price: Price, settled: nat, max: nat)
    requires Sound.Sound(m) && Unsettled(m, a) && price.base > 0 && Wanted(m, k, a) && settled < max
    requires !Askew(m, a) && !Outrun(m, a, price, Min(m.settles[k].balance, max - settled)) && SwanFor(m, k, a, price, max - settled)
    ensures GoodService(m, Paid(CancelSettle(m, k), settled), k, a, price, settled, max)
  {
    CancelledOut(m, k, a, settled, max);
    Withdrawn(m, k, a, price, settled, max);
  }

  lemma NothingWanted(m: Market, k: Id, a: Asset, price: Price, settled: nat, max: nat)
    requires Sound.Sound(m) && Requested(m, k, a) && a in m.assets && m.settles[k].balance == 0 && settled < max
    ensures GoodService(m, Paid(CancelSettle(m, k), settled), k, a, price, settled, max)
  {
    CancelledOut(m, k, a, settled, max);
    Withdrawn(m, k, a, price, settled, max);
  }

  lemma NothingToServe(m: Market, k: Id, a: Asset, price: Price, settled: nat, max: nat)
    requires CanServe(m, k, a, price, settled, max) && (settled == max || k !in m.settles)
    ensures GoodService(m, Paid(m, settled), k, a, price, settled, max)
  {
    OverAtOnce(m, k, a, price, settled, max);
  }

  lemma NoneToServe(m: Market, k: Id, a: Asset, price: Price, settled: nat, max: nat)
    requires price.base > 0 && Wanted(m, k, a) && settled < max && ByCollateral(m, a) == map[]
    ensures GoodService(m, Refused, k, a, price, settled, max)
  {
    NoPositionOutruns(m, a, price, Min(m.settles[k].balance, max - settled));
  }

  /** Serves one request until it is used up, the volume is, or a swan shows; returns the volume. */
  ghost function ServeLoop(m: Market, k: Id, a: Asset, price: Price, settled: nat, max: nat): (r: Service)
    requires CanServe(m, k, a, price, settled, max)
    ensures GoodService(m, r, k, a, price, settled, max)
    decreases max - settled
  {
    if settled == max || k !in m.settles then
      NothingToServe(m, k, a, price, settled, max);
      Paid(m, settled)
    else if m.settles[k].balance == 0 then
      NothingWanted(m, k, a, price, settled, max);
      Paid(CancelSettle(m, k), settled)
    else if ByCollateral(m, a) == map[] then
      NoneToServe(m, k, a, price, settled, max);
      Refused
    else
      var turn := ServeTurn(m, k, a, price, max - settled);
      AfterTurn(m, k, a, price, settled, max, turn);
      match turn
      case Refused => Refused
      case BlackSwan => Paid(CancelSettle(m, k), settled)
      case Paid(m', x) =>
        var r := ServeLoop(m', k, a, price, settled + x, max);
        ServedOutLater(m, m', r, k, a, price, x, settled, max);
        r
  }

  /** What the owner of a request gets for it: the feed's worth, less the offset. */
  function Payment(s: Settlement, b: BitAsset): nat
    requires b.feed.Some? && b.feed.value.price.base > 0 && b.offset <= HUNDRED_PERCENT
  {
    Percent(ToQuote(s.balance, b.feed.value.price), HUNDRED_PERCENT - b.offset)
  }

  lemma PaymentIs(s: Settlement, b: BitAsset)
    requires b.feed.Some? && b.feed.value.price.base > 0 && b.offset <= HUNDRED_PERCENT
    ensures IsPayment(s, b, ToQuote(s.balance, b.feed.value.price), Payment(s, b))
  {
    var p := b.feed.value.price;
    FloorIs(s.balance * p.quote, p.base);
    FloorIs(ToQuote(s.balance, p) * (HUNDRED_PERCENT - b.offset), HUNDRED_PERCENT);
  }

  lemma LimitIs(b: BitAsset, supply: nat)
    ensures IsLimit(b, supply, MaxVolume(b, supply))
  {
    FloorIs((supply + b.forceSettled) * b.maxVolume, HUNDRED_PERCENT);
  }

  function WithVolume(m: Market, a: Asset, volume: nat): Market
    requires Bit(m, a).Some?
  {
    WithAsset(m, a, m.assets[a].(bit := Some(m.assets[a].bit.value.(forceSettled := volume))))
  }

  lemma WithVolumeSound(m: Market, a: Asset, volume: nat)
    requires Sound.Sound(m) && Bit(m, a).Some?
    ensures Sound.Sound(WithVolume(m, a, volume))
  {
    WithVolumeKeeps(m, a, volume);
    var m' := WithVolume(m, a, volume);
    forall x ensures Books(m', x) {
      assert Books(m, x);
      WithAssetHeld(m, a, m'.assets[a], x);
    }
  }

  lemma WithVolumeKeeps(m: Market, a: Asset, volume: nat)
    requires WellFormed(m) && Bit(m, a).Some?
    ensures WellFormed(WithVolume(m, a, volume))
  {
    var m' := WithVolume(m, a, volume);
    forall i | i in m'.orders ensures OrderOk(m', m'.orders[i]) { assert OrderOk(m, m.orders[i]); }
    forall i | i in m'.calls ensures CallOk(m', m'.calls[i]) { assert CallOk(m, m.calls[i]); }
    forall i | i in m'.settles ensures SettleOk(m', m'.settles[i]) { assert SettleOk(m, m.settles[i]); }
    forall x | x in m'.assets ensures AssetOk(m', x) { assert AssetOk(m, x); }
  }

  predicate Full(m: Market, a: Asset)
    requires Bit(m, a).Some?
  {
    Bit(m, a).value.forceSettled >= Limit(m, a)
  }

  predicate Settleable(m: Market, k: Id)
    requires k in m.settles
  {
    var a := m.settles[k].asset;
    Unsettled(m, a) && Bit(m, a).value.feed.Some? && !Full(m, a)
  }

  lemma SettleableFacts(m: Market, k: Id)
    requires WellFormed(m) && k in m.settles && Settleable(m, k)
    ensures var b := Bit(m, m.settles[k].asset).value;
      b.feed.value.price.base > 0 && b.offset <= HUNDRED_PERCENT
  {
    assert AssetOk(m, m.settles[k].asset);
  }

  /** The price of a request: what it offers for what its owner gets. */
  function SettlePrice(m: Market, k: Id): (p: Price)
    requires WellFormed(m) && k in m.settles && Settleable(m, k)
    ensures p.base == m.settles[k].balance
  {
    SettleableFacts(m, k);
    Price(m.settles[k].balance, Payment(m.settles[k], Bit(m, m.settles[k].asset).value))
  }

  /** The limit on what is settled of an asset. */
  function Limit(m: Market, a: Asset): nat
    requires Bit(m, a).Some?
  {
    MaxVolume(Bit(m, a).value, NonNegative(m.assets[a].supply))
  }

  function WithResult(r: Service, a: Asset): Option<Market>
    requires r.Paid? ==> Bit(r.market, a).Some?
  {
    if r.Paid? then Some(WithVolume(r.market, a, r.amount)) else None
  }

  lemma SupplyNonNegative(m: Market, a: Asset)
    requires Backed(m, a) && Unsettled(m, a)
    ensures Supply(m, a) >= 0
  {
    SumNonNegative(m.calls, DebtIn(a));
  }

  /** No more may be settled than circulates. */
  lemma LimitAtMost(m: Market, a: Asset)
    requires WellFormed(m) && a in m.assets && Backed(m, a) && Unsettled(m, a)
    ensures Limit(m, a) <= Supply(m, a) + Bit(m, a).value.forceSettled
  {
    SupplyNonNegative(m, a);
    assert AssetOk(m, a);
    PercentAtMost(m.assets[a].supply + Bit(m, a).value.forceSettled, Bit(m, a).value.maxVolume);
  }

  lemma LimitWithin(m: Market, a: Asset)
    requires Sound.Sound(m) && Unsettled(m, a)
    ensures Limit(m, a) <= Supply(m, a) + Bit(m, a).value.forceSettled
  {
    assert Books(m, a);
    LimitAtMost(m, a);
  }

  /** A due request is served, and the volume of its asset is updated. */
  ghost function SettleOne(m: Market, k: Id): Option<Market>
    requires Sound.Sound(m) && k in m.settles && Settleable(m, k)
  {
    var a := m.settles[k].asset;
    WithResult(ServeLoop(m, k, a, SettlePrice(m, k), Bit(m, a).value.forceSettled, Limit(m, a)), a)
  }

  /** A due request for nothing goes, and nothing else changes: no position is looked at, whatever the feed. */
  lemma EmptyRequestGoes(m: Market, k: Id)
    requires Sound.Sound(m) && k in m.settles && Settleable(m, k) && m.settles[k].balance == 0
    ensures SettleOne(m, k) == Some(m.(settles := m.settles - {k}))
  {
    var a := m.settles[k].asset;
    var m' := CancelSettle(m, k);
    var b := m.assets[a].bit.value;
    assert m' == m.(settles := m.settles - {k});
    assert b.(forceSettled := b.forceSettled) == b;
    assert m.assets[a].(bit := Some(b)) == m.assets[a];
    assert m.assets[a := m.assets[a]] == m.assets;
  }

  /** The terms of an asset are as before; its volume has grown, but not past the limit, which has not moved. */
  predicate VolumeGrown(m: Market, m': Market, x: Asset) {
    && Bit(m, x).Some? && Bit(m', x).Some?
    && Bit(m', x).value == Bit(m, x).value.(forceSettled := Bit(m', x).value.forceSettled)
    && Limit(m', x) == Limit(m, x)
    && Bit(m, x).value.forceSettled <= Bit(m', x).value.forceSettled
    && (Bit(m', x).value.forceSettled == Bit(m, x).value.forceSettled || Bit(m', x).value.forceSettled <= Limit(m, x))
  }

  /** One request has been dealt with. */
  ghost predicate Dealt(m: Market, m': Market, k: Id) {
    && Sound.Sound(m') && OthersKept(m, m', k) && NoFainter(m, m') && SameLedger(m, m') && m'.assets.Keys == m.assets.Keys
    && (k in m'.settles ==> k in m.settles && SameRequest(m.settles[k], m'.settles[k]))
    && (forall x :: x in m.assets && Bit(m, x).None? ==> Bit(m', x).None?)
    && (forall x :: x in m.assets && Bit(m, x).Some? ==> VolumeGrown(m, m', x))
    && (forall x :: x in m.assets && (Askew(m, x) || !Requested(m, k, x)) ==> Bit(m', x) == Bit(m, x))
  }

  lemma VolumeAfter(m: Market, m1: Market, a: Asset, settled: nat)
    requires a in m.assets && a in m1.assets && Books(m, a) && Books(m1, a) && Unsettled(m, a) && Bit(m1, a) == Bit(m, a)
    requires Bit(m, a).value.forceSettled <= settled <= Limit(m, a)
    requires Supply(m1, a) == Supply(m, a) - (settled - Bit(m, a).value.forceSettled)
    ensures VolumeGrown(m, WithVolume(m1, a, settled), a)
  {
    SupplyNonNegative(m, a);
    SupplyNonNegative(m1, a);
    var b := Bit(m, a).value;
    MaxVolumeStable(b, b.(forceSettled := settled), m.assets[a].supply, m1.assets[a].supply);
  }

  lemma WithVolumeFrame(m: Market, a: Asset, volume: nat)
    requires Bit(m, a).Some?
    ensures var m' := WithVolume(m, a, volume);
      && m'.orders == m.orders && m'.calls == m.calls && m'.settles == m.settles && SameLedger(m, m') && m'.assets.Keys == m.assets.Keys
      && (forall x :: x in m.assets && x != a ==> m'.assets[x] == m.assets[x])
      && Bit(m', a) == Some(Bit(m, a).value.(forceSettled := volume)) && Supply(m', a) == Supply(m, a)
  {}

  /** Terms of assets after a service: its own asset's volume has grown, no other asset's has. */
  lemma TermsAfter(m: Market, r: Service, k: Id, a: Asset, x: Asset)
    requires Sound.Sound(m) && Requested(m, k, a) && Settleable(m, k) && x in m.assets
    requires GoodService(m, r, k, a, SettlePrice(m, k), Bit(m, a).value.forceSettled, Limit(m, a)) && r.Paid?
    ensures Bit(r.market, a) == Bit(m, a)
    ensures var m' := WithVolume(r.market, a, r.amount);
      && (Bit(m, x).None? ==> Bit(m', x).None?)
      && (Bit(m, x).Some? ==> VolumeGrown(m, m', x))
      && (Askew(m, x) || x != a ==> Bit(m', x) == Bit(m, x))
  {
    WithVolumeFrame(r.market, a, r.amount);
    assert Books(m, a) && Books(r.market, a);
    VolumeAfter(m, r.market, a, r.amount);
    if x != a { assert Bit(r.market, x) == Bit(m, x) && Supply(r.market, x) == Supply(m, x); }
  }

  /** Other requests and orders are untouched, and the volume stays within its limit, which is
      reached if the request is still there. */
  lemma ResultDealt(m: Market, r: Service, k: Id, a: Asset)
    requires Sound.Sound(m) && Requested(m, k, a) && Settleable(m, k)
    requires GoodService(m, r, k, a, SettlePrice(m, k), Bit(m, a).value.forceSettled, Limit(m, a)) && r.Paid?
    ensures Bit(r.market, a).Some?
    ensures var m' := WithVolume(r.market, a, r.amount);
      Dealt(m, m', k) && (k in m'.settles ==> Full(m', a))
  {
    TermsAfter(m, r, k, a, a);
    WithVolumeSound(r.market, a, r.amount);
    WithVolumeFrame(r.market, a, r.amount);
    forall x | x in m.assets
      ensures var m' := WithVolume(r.market, a, r.amount);
        && (Bit(m, x).None? ==> Bit(m', x).None?) && (Bit(m, x).Some? ==> VolumeGrown(m, m', x))
        && (Askew(m, x) || x != a ==> Bit(m', x) == Bit(m, x))
    {
      TermsAfter(m, r, k, a, x);
    }
  }

  lemma ResultDealing(m: Market, r: Service, k: Id, a: Asset)
    requires Sound.Sound(m) && Requested(m, k, a) && Settleable(m, k) && r.Paid? && Bit(r.market, a).Some?
    requires ServedBy(m, r.market, k, a, SettlePrice(m, k), Bit(m, a).value.forceSettled, r.amount, Limit(m, a))
    ensures Dealing(m, WithVolume(r.market, a, r.amount), k)
  {
    var s, b := m.settles[k], Bit(m, a).value;
    SettleableFacts(m, k);
    PaymentIs(s, b);
    assert Books(m, a);
    SupplyNonNegative(m, a);
    LimitIs(b, m.assets[a].supply);
    assert Booked(r.market, WithVolume(r.market, a, r.amount), a, r.amount);
    assert DealtAt(m, WithVolume(r.market, a, r.amount), k, ToQuote(s.balance, b.feed.value.price), Payment(s, b), Limit(m, a));
  }

  /** What stops the run of requests at this one. */
  ghost predicate Blocks(m: Market, k: Id)
    requires WellFormed(m) && k in m.settles && Settleable(m, k)
  {
    var a := m.settles[k].asset;
    Stalled(m, k, a, SettlePrice(m, k), Bit(m, a).value.forceSettled, Limit(m, a))
  }

  /** Refused exactly when the service stalls, which takes a feed that is askew or a position too faint to be
      found; otherwise the request is dealt with. */
  lemma SettleOneDeals(m: Market, k: Id)
    requires Sound.Sound(m) && k in m.settles && Settleable(m, k)
    ensures var r := SettleOne(m, k);
      var a := m.settles[k].asset;
      && (r.None? <==> Blocks(m, k)) && (r.None? ==> m.settles[k].balance > 0 && (Askew(m, a) || Faint(m, a)))
      && (Askew(m, a) && m.settles[k].balance > 0 ==> r.None?)
      && (r.Some? ==> Dealt(m, r.value, k) && Dealing(m, r.value, k) && (k in r.value.settles ==> Bit(r.value, a).Some? && Full(r.value, a)))
  {
    var a := m.settles[k].asset;
    var settled, max := Bit(m, a).value.forceSettled, Limit(m, a);
    var r := ServeLoop(m, k, a, SettlePrice(m, k), settled, max);
    if r.Paid? {
      ResultDealt(m, r, k, a);
      ResultDealing(m, r, k, a);
    } else if !Askew(m, a) {
      LimitWithin(m, a);
      OutrunFaint(m, a, SettlePrice(m, k), Min(m.settles[k].balance, max - settled));
    }
  }
}
