/** The operations accounts send to the market, with the fees they pay. */
module Operations {
  import opened Wrappers
  import opened Prices
  import opened MarketState
  import opened MarketFill
  import opened Sound
  import opened Ranking
  import opened MarginCalls
  import opened CheckCalls
  import opened OrderBook
  import opened Coverage

  /** Sound books, an order book at rest, and collateral behind every position. */
  ghost predicate Healthy(m: Market) {
    Sound.Sound(m) && Uncrossed(m) && NoDust(m) && Covered(m)
  }

  /** What an operation that does not throw leaves behind. */
  ghost predicate Keeps(m: Market, r: Option<Market>) {
    r.Some? ==> Healthy(r.value) && SameLedger(m, r.value)
  }

  /** An id later than all in use; ids come from a counter. */
  ghost function Later(ids: set<Id>): (id: Id)
    ensures forall i :: i in ids ==> i < id
    ensures id == 0 || id - 1 in ids
  {
    if ids == {} then 0
    else
      var i :| i in ids;
      var id := Later(ids - {i});
      assert forall j :: j in ids ==> j == i || j in ids - {i};
      if id <= i then i + 1 else id
  }

  lemma ShrunkHealthy(m: Market, m': Market)
    requires Healthy(m) && Sound.Sound(m') && Shrunk(m, m') && Covered(m')
    ensures Healthy(m')
  {
    var id := Later(m.orders.Keys);
    assert id !in m.orders;
    ShrunkKeeps(m, m', id);
    StaysUncrossed(m, m', id);
  }

  lemma SameOrdersHealthy(m: Market, m': Market)
    requires Healthy(m) && Sound.Sound(m') && m'.orders == m.orders && Covered(m')
    ensures Healthy(m')
  {
    ShrunkHealthy(m, m');
  }

  // ----- fees -----------------------------------------------------------------------------------

  /** A fee in any asset, and what it comes to in the core asset at the asset's exchange rate. */
  datatype Fee = Fee(payer: Account, asset: Asset, amount: nat, core: nat)

  predicate Payable(m: Market, f: Fee) {
    Convertible(m, f) && (f.asset == CORE ==> f.core == f.amount)
  }

  predicate Convertible(m: Market, f: Fee) {
    f.asset in m.assets && (f.asset != CORE ==> f.core <= m.assets[f.asset].pool)
  }

  /** The fee is owed from here on, and its worth in the core asset is taken out of the pool. */
  function Convert(m: Market, f: Fee): Market
    requires Convertible(m, f)
  {
    var d := m.assets[f.asset];
    var m1 := if f.asset == CORE then m else WithAsset(m, f.asset, d.(fees := d.fees + f.amount, pool := d.pool - f.core));
    m1.(due := Due(f.asset, f.amount))
  }

  function Book(m: Market, f: Fee): Market
    requires Convertible(m, f)
  {
    AddPending(Convert(m, f), f.payer, f.core)
  }

  /** The last act of every operation. */
  function TakeFee(m: Market, payer: Account): Option<Market> {
    if m.due.amount > Balance(m, payer, m.due.asset) then None
    else Some(Debit(m, payer, m.due.asset, m.due.amount).(due := Due(CORE, 0)))
  }

  lemma DueHeld(m: Market, due: Due, a: Asset)
    ensures Held(m.(due := due), a) == Held(m, a) + If(a == m.due.asset, m.due.amount) - If(a == due.asset, due.amount)
    ensures Debts(m.(due := due), a) == Debts(m, a)
  {}

  lemma ConvertHeld(m: Market, f: Fee, a: Asset)
    requires Convertible(m, f) && Idle(m)
    ensures Held(Convert(m, f), a) == Held(m, a) - If(a == CORE, if f.asset == CORE then f.amount else f.core)
  {
    var d := m.assets[f.asset];
    if f.asset == CORE {
      DueHeld(m, Due(f.asset, f.amount), a);
    } else {
      var m1 := WithAsset(m, f.asset, d.(fees := d.fees + f.amount, pool := d.pool - f.core));
      WithAssetHeld(m, f.asset, m1.assets[f.asset], a);
      DueHeld(m1, Due(f.asset, f.amount), a);
    }
  }

  /** Terms of assets up to their fees and fee pools. */
  ghost predicate SameAssets(m: Market, m': Market) {
    && m'.assets.Keys == m.assets.Keys
    && (forall a :: a in m.assets ==> m'.assets[a] == m.assets[a].(fees := m'.assets[a].fees, pool := m'.assets[a].pool))
  }

  lemma ConvertFrame(m: Market, f: Fee)
    requires Convertible(m, f)
    ensures var m' := Convert(m, f);
      && SameAssets(m, m') && m'.orders == m.orders && m'.calls == m.calls && m'.settles == m.settles
      && m'.balances == m.balances && m'.due == Due(f.asset, f.amount) && m'.minted == m.minted
  {}

  /** The same rows under the same terms. */
  lemma SameRowsKeep(m: Market, m': Market)
    requires WellFormed(m) && SameAssets(m, m')
    requires m'.orders == m.orders && m'.calls == m.calls && m'.settles == m.settles
    ensures WellFormed(m')
  {
    var m1 := m'.(due := m.due, minted := m.minted);
    ConfigKeeps(m, m1);
    LedgerKeeps(m1, m'.due, m'.minted);
  }

  lemma LedgerKeeps(m: Market, due: Due, minted: nat)
    requires WellFormed(m)
    ensures WellFormed(m.(due := due, minted := minted))
  {
    var m' := m.(due := due, minted := minted);
    forall i | i in m'.orders ensures OrderOk(m', m'.orders[i]) { assert OrderOk(m, m.orders[i]); }
    forall i | i in m'.calls ensures CallOk(m', m'.calls[i]) { assert CallOk(m, m.calls[i]); }
    forall i | i in m'.settles ensures SettleOk(m', m'.settles[i]) { assert SettleOk(m, m.settles[i]); }
    forall a | a in m'.assets ensures AssetOk(m', a) { assert AssetOk(m, a); }
  }

  /** Writes that move units between accounts, fees and pools keep the books. */
  lemma MovesSound(m: Market, m': Market)
    requires Sound.Sound(m) && SameAssets(m, m')
    requires m'.orders == m.orders && m'.calls == m.calls && m'.settles == m.settles
    requires forall a {:trigger Held(m', a)} :: Held(m', a) == Held(m, a)
    ensures Sound.Sound(m')
  {
    SameRowsKeep(m, m');
    forall a ensures Books(m', a) {
      assert Books(m, a);
      assert Held(m', a) == Held(m, a);
    }
  }

  lemma BookFrame(m: Market, f: Fee)
    requires Convertible(m, f)
    ensures var m' := Book(m, f);
      && SameAssets(m, m') && m'.orders == m.orders && m'.calls == m.calls && m'.settles == m.settles
      && m'.balances == m.balances && m'.due == Due(f.asset, f.amount) && m'.minted == m.minted
  {
    ConvertFrame(m, f);
    PendingFrame(Convert(m, f), f.payer, f.core);
  }

  lemma BookHeld(m: Market, f: Fee, a: Asset)
    requires Convertible(m, f) && Idle(m)
    ensures Held(Book(m, f), a) == Held(m, a) + If(a == CORE, f.core - if f.asset == CORE then f.amount else f.core)
  {
    ConvertHeld(m, f, a);
    PendingHeld(Convert(m, f), f.payer, f.core, a);
  }

  lemma BookSound(m: Market, f: Fee)
    requires Sound.Sound(m) && Idle(m) && Payable(m, f)
    ensures Sound.Sound(Book(m, f)) && Book(m, f).orders == m.orders && Book(m, f).balances == m.balances
  {
    BookFrame(m, f);
    var m' := Book(m, f);
    forall a ensures Held(m', a) == Held(m, a) { BookHeld(m, f, a); }
    MovesSound(m, m');
  }

  lemma TakeFeeSound(m: Market, payer: Account)
    requires Healthy(m)
    ensures var r := TakeFee(m, payer); r.Some? ==> Healthy(r.value) && Idle(r.value) && r.value.minted == m.minted
  {
    if TakeFee(m, payer).Some? {
      var m1 := Debit(m, payer, m.due.asset, m.due.amount);
      var m' := m1.(due := Due(CORE, 0));
      forall a ensures Held(m', a) == Held(m, a) {
        DebitHeld(m, payer, m.due.asset, m.due.amount, a);
        DueHeld(m1, Due(CORE, 0), a);
      }
      MovesSound(m, m');
      SameOrdersHealthy(m, m');
    }
  }

  // ----- limit orders ----------------------------------------------------------------------------

  /** What is offered leaves the seller's balance; the fee stays with the order. */
  ghost function Place(m: Market, o: LimitOrder): Market
    requires o.forSale <= Balance(m, o.seller, o.sell)
  {
    WithOrder(Debit(m, o.seller, o.sell, o.forSale), Later(m.orders.Keys), o)
  }

  lemma PlaceHeld(m: Market, o: LimitOrder, a: Asset)
    requires o.forSale <= Balance(m, o.seller, o.sell)
    ensures Held(Place(m, o), a) == Held(m, a) + If(a == CORE, o.deferredFee) && Debts(Place(m, o), a) == Debts(m, a)
  {
    DebitHeld(m, o.seller, o.sell, o.forSale, a);
    WithOrderHeld(Debit(m, o.seller, o.sell, o.forSale), Later(m.orders.Keys), o, a);
  }

  lemma PlaceFrame(m: Market, o: LimitOrder)
    requires o.forSale <= Balance(m, o.seller, o.sell)
    ensures var m' := Place(m, o); m'.assets == m.assets && m'.calls == m.calls && m'.settles == m.settles
  {}

  /** The state in which the new order is applied. */
  lemma PlacedSound(m: Market, f: Fee, o: LimitOrder)
    requires Sound.Sound(m) && Idle(m) && Payable(m, f) && OrderOk(m, o) && o.deferredFee == f.core
    requires o.forSale <= Balance(m, o.seller, o.sell)
    ensures o.forSale <= Balance(Convert(m, f), o.seller, o.sell)
    ensures Sound.Sound(Place(Convert(m, f), o))
  {
    ConvertFrame(m, f);
    var m1 := Convert(m, f);
    SameRowsKeep(m, m1);
    PlacedKeeps(m1, o);
    var m' := Place(m1, o);
    PlaceFrame(m1, o);
    forall a ensures Books(m', a) {
      ConvertHeld(m, f, a);
      PlaceHeld(m1, o, a);
      PlacedBooks(m, m1, m', f, a);
    }
  }

  /** The fee that was converted is in the order, so all in all nothing has moved. */
  lemma PlacedBooks(m: Market, m1: Market, m': Market, f: Fee, a: Asset)
    requires Sound.Sound(m) && Payable(m, f) && SameAssets(m, m1) && m'.assets == m1.assets && m1.calls == m.calls
    requires Held(m1, a) == Held(m, a) - If(a == CORE, if f.asset == CORE then f.amount else f.core)
    requires Held(m', a) == Held(m1, a) + If(a == CORE, f.core) && Debts(m', a) == Debts(m1, a)
    ensures Books(m', a)
  {
    assert Books(m, a);
    SameBooks(m, m', a);
  }

  lemma PlacedKeeps(m: Market, o: LimitOrder)
    requires WellFormed(m) && OrderOk(m, o) && o.forSale <= Balance(m, o.seller, o.sell)
    ensures WellFormed(Place(m, o))
  {
    ConfigKeeps(m, Place(m, o));
  }

  lemma PlacedBook(m: Market, o: LimitOrder)
    requires Uncrossed(m) && NoDust(m) && o.forSale <= Balance(m, o.seller, o.sell)
    ensures var id := Later(m.orders.Keys);
      id in Place(m, o).orders && UncrossedBut(Place(m, o), id) && NoDustBut(Place(m, o), id)
  {}

  /** So much of one asset for at least so much of another. */
  datatype Offer = Offer(seller: Account, sell: Asset, forSale: nat, receive: Asset, min: nat)

  /** The order an offer makes; its fee is taken when it trades, or given back when it is cancelled. */
  function AsOrder(x: Offer, fee: nat): LimitOrder {
    LimitOrder(x.seller, x.forSale, x.sell, x.receive, Price(x.forSale, x.min), fee)
  }

  predicate CanPlace(m: Market, f: Fee, x: Offer) {
    Payable(m, f) && OrderOk(m, AsOrder(x, f.core)) && x.forSale <= Balance(m, x.seller, x.sell)
  }

  /** The whole of a new order; one that must be filled at once throws if it is not. */
  ghost function CreateLimit(m: Market, f: Fee, x: Offer, kill: bool): Option<Market>
    requires Healthy(m) && Idle(m)
  {
    if !CanPlace(m, f, x) then None
    else
      PlacedSound(m, f, AsOrder(x, f.core));
      var m1 := Convert(m, f);
      var (m', gone) :- ApplyOrder(Place(m1, AsOrder(x, f.core)), Later(m1.orders.Keys));
      if kill && !gone then None else TakeFee(m', f.payer)
  }

  /** The fee comes last, so what the order earns at once may pay it. */
  lemma CreateLimitKeeps(m: Market, f: Fee, x: Offer, kill: bool)
    requires Healthy(m) && Idle(m)
    ensures var r := CreateLimit(m, f, x, kill); r.Some? ==> Healthy(r.value) && Idle(r.value) && r.value.minted == m.minted
  {
    if CanPlace(m, f, x) {
      var o := AsOrder(x, f.core);
      PlacedSound(m, f, o);
      ConvertFrame(m, f);
      PlacedBook(Convert(m, f), o);
      var id := Later(Convert(m, f).orders.Keys);
      ApplyOrderSound(Place(Convert(m, f), o), id);
      ApplyOrderCovered(Place(Convert(m, f), o), id);
      var r := ApplyOrder(Place(Convert(m, f), o), id);
      if r.Some? { TakeFeeSound(r.value.0, f.payer); }
    }
  }

  /** The seller cancels; then margin calls on both assets. */
  ghost function CancelOrder(m: Market, seller: Account, id: Id): Option<Market>
    requires Sound.Sound(m)
  {
    if id !in m.orders || m.orders[id].seller != seller then None
    else
      CancelLimitSound(m, id);
      var (m', _) :- CheckBoth(CancelLimit(m, id), m.orders[id].sell, m.orders[id].receive);
      Some(m')
  }

  lemma CancelOrderKeeps(m: Market, seller: Account, id: Id)
    requires Healthy(m)
    ensures Keeps(m, CancelOrder(m, seller, id))
    ensures id in m.orders && m.orders[id].seller == seller && !AskewIn(m, m.orders[id].sell, m.orders[id].receive)
      ==> CancelOrder(m, seller, id).Some?
  {
    if id in m.orders {
      CancelLimitSound(m, id);
      CancelLimitKeeps(m, id);
      var m1 := CancelLimit(m, id);
      assert Shrunk(m, m1);
      ShrunkHealthy(m, m1);
      CheckBothSound(m1, m.orders[id].sell, m.orders[id].receive);
      CheckBothCovered(m1, m.orders[id].sell, m.orders[id].receive);
      var r := CheckBoth(m1, m.orders[id].sell, m.orders[id].receive);
      if r.Some? { ShrunkHealthy(m1, r.value.0); }
    }
  }
}
