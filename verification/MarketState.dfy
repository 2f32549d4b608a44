/** The tables of the market, the writes evaluators make to them, and where every unit of
    every asset is. */
module MarketState {
  import opened Wrappers
  import opened Prices
  import opened Sums

  type Asset = nat
  type Account = nat
  type Id = nat

  const CORE: Asset := 0

  /** An offer to sell `sell` for `receive`; the price is sell per receive. */
  datatype LimitOrder = LimitOrder(seller: Account, forSale: nat, sell: Asset, receive: Asset, price: Price, deferredFee: nat)

  /** A margin position; the call price is collateral per debt. */
  datatype CallOrder = CallOrder(borrower: Account, collateral: nat, debt: nat, backing: Asset, owed: Asset, callPrice: Price)

  datatype Settlement = Settlement(owner: Account, balance: nat, asset: Asset, date: nat)

  /** Prices are units of the market-issued asset per unit of the quote asset, which is what backed the
      asset when the feed was published. The squeeze price is the worst at which positions are called. */
  datatype Feed = Feed(price: Price, quote: Asset, squeeze: Price, maintenance: nat, shortSqueeze: nat)

  datatype BitAsset = BitAsset(
    backing: Asset,
    feed: Option<Feed>,
    prediction: bool,
    settlement: Option<Price>,
    fund: nat,
    forceSettled: nat,
    maxVolume: nat,
    offset: nat)

  /** The fee pool is kept in the core asset. */
  datatype AssetData = AssetData(supply: int, fees: nat, pool: nat, feePercent: nat, maxFee: nat, bit: Option<BitAsset>)

  /** A fee that an operation in progress has booked, and will take from its payer at the end. */
  datatype Due = Due(asset: Asset, amount: nat)

  /** What has been minted counts the core units that creating assets has made out of nothing. */
  datatype Market = Market(
    balances: map<(Account, Asset), nat>,
    orders: map<Id, LimitOrder>,
    calls: map<Id, CallOrder>,
    settles: map<Id, Settlement>,
    assets: map<Asset, AssetData>,
    pending: map<Account, nat>,
    due: Due,
    minted: nat)

  // ----- where the units of an asset are -------------------------------------------------

  function BalanceIn(a: Asset): ((Account, Asset), nat) -> int {
    (k: (Account, Asset), v: nat) => if k.1 == a then v else 0
  }

  function SaleIn(a: Asset): (Id, LimitOrder) -> int {
    (k: Id, o: LimitOrder) => (if o.sell == a then o.forSale else 0) + (if a == CORE then o.deferredFee else 0)
  }

  function CollateralIn(a: Asset): (Id, CallOrder) -> int {
    (k: Id, c: CallOrder) => if c.backing == a then c.collateral else 0
  }

  function DebtIn(a: Asset): (Id, CallOrder) -> int {
    (k: Id, c: CallOrder) => if c.owed == a then c.debt else 0
  }

  function SettleIn(a: Asset): (Id, Settlement) -> int {
    (k: Id, s: Settlement) => if s.asset == a then s.balance else 0
  }

  /** Accumulated fees of the asset, settlement funds kept in it, and fee pools. */
  function PoolsIn(a: Asset): (Asset, AssetData) -> int {
    (k: Asset, d: AssetData) =>
      (if k == a then d.fees else 0) + (if a == CORE then d.pool else 0)
      + (if d.bit.Some? && d.bit.value.backing == a then d.bit.value.fund else 0)
  }

  function PendingIn(a: Asset): (Account, nat) -> int {
    (k: Account, v: nat) => if a == CORE then v else 0
  }

  function If(c: bool, x: int): int {
    if c then x else 0
  }

  /** Every unit of an asset that somebody holds. */
  ghost function InHands(m: Market, a: Asset): int {
    SumBy(m.balances, BalanceIn(a)) + SumBy(m.orders, SaleIn(a)) + SumBy(m.calls, CollateralIn(a))
    + SumBy(m.settles, SettleIn(a)) + SumBy(m.assets, PoolsIn(a)) + SumBy(m.pending, PendingIn(a))
  }

  /** The same less what is still to be taken for a fee, and less what came from nothing. */
  ghost function Held(m: Market, a: Asset): int {
    InHands(m, a) - If(a == m.due.asset, m.due.amount) - If(a == CORE, m.minted)
  }

  /** No fee has been booked or taken, and nothing minted. */
  predicate SameLedger(m: Market, m': Market) {
    m'.due == m.due && m'.minted == m.minted
  }

  ghost function Debts(m: Market, a: Asset): int {
    SumBy(m.calls, DebtIn(a))
  }

  // ----- single writes ----------------------------------------------------------------------

  function Balance(m: Market, who: Account, a: Asset): nat {
    if (who, a) in m.balances then m.balances[(who, a)] else 0
  }

  function Credit(m: Market, who: Account, a: Asset, x: nat): Market {
    if x == 0 then m else m.(balances := m.balances[(who, a) := Balance(m, who, a) + x])
  }

  function Debit(m: Market, who: Account, a: Asset, x: nat): Market
    requires x <= Balance(m, who, a)
  {
    if x == 0 then m else m.(balances := m.balances[(who, a) := Balance(m, who, a) - x])
  }

  function AddPending(m: Market, who: Account, x: nat): Market {
    if x == 0 then m
    else m.(pending := m.pending[who := (if who in m.pending then m.pending[who] else 0) + x])
  }

  function WithOrder(m: Market, id: Id, o: LimitOrder): Market {
    m.(orders := m.orders[id := o])
  }

  function WithoutOrder(m: Market, id: Id): Market {
    m.(orders := m.orders - {id})
  }

  function WithCall(m: Market, id: Id, c: CallOrder): Market {
    m.(calls := m.calls[id := c])
  }

  function WithoutCall(m: Market, id: Id): Market {
    m.(calls := m.calls - {id})
  }

  function WithSettle(m: Market, id: Id, s: Settlement): Market {
    m.(settles := m.settles[id := s])
  }

  function WithoutSettle(m: Market, id: Id): Market {
    m.(settles := m.settles - {id})
  }

  function WithAsset(m: Market, a: Asset, d: AssetData): Market {
    m.(assets := m.assets[a := d])
  }

  function WithSupply(m: Market, a: Asset, x: int): Market
    requires a in m.assets
  {
    WithAsset(m, a, m.assets[a].(supply := x))
  }

  function AddFees(m: Market, a: Asset, x: nat): Market
    requires a in m.assets
  {
    if x == 0 then m else WithAsset(m, a, m.assets[a].(fees := m.assets[a].fees + x))
  }

  // ----- what each write does to the totals --------------------------------------------------

  lemma CreditHeld(m: Market, who: Account, b: Asset, x: nat, a: Asset)
    ensures Held(Credit(m, who, b, x), a) == Held(m, a) + If(a == b, x)
  {
    if x > 0 { SumPut<(Account, Asset), nat>(m.balances, BalanceIn(a), (who, b), Balance(m, who, b) + x); }
  }

  lemma DebitHeld(m: Market, who: Account, b: Asset, x: nat, a: Asset)
    requires x <= Balance(m, who, b)
    ensures Held(Debit(m, who, b, x), a) == Held(m, a) - If(a == b, x)
  {
    if x > 0 { SumPut<(Account, Asset), nat>(m.balances, BalanceIn(a), (who, b), Balance(m, who, b) - x); }
  }

  lemma PendingHeld(m: Market, who: Account, x: nat, a: Asset)
    ensures Held(AddPending(m, who, x), a) == Held(m, a) + If(a == CORE, x)
  {
    if x > 0 { SumPut<Account, nat>(m.pending, PendingIn(a), who, (if who in m.pending then m.pending[who] else 0) + x); }
  }

  lemma WithOrderHeld(m: Market, id: Id, o: LimitOrder, a: Asset)
    ensures Held(WithOrder(m, id, o), a) == Held(m, a) - Weight(m.orders, SaleIn(a), id) + SaleIn(a)(id, o)
  {
    SumPut(m.orders, SaleIn(a), id, o);
  }

  lemma WithoutOrderHeld(m: Market, id: Id, a: Asset)
    ensures Held(WithoutOrder(m, id), a) == Held(m, a) - Weight(m.orders, SaleIn(a), id)
  {
    SumDrop(m.orders, SaleIn(a), id);
  }

  lemma WithCallHeld(m: Market, id: Id, c: CallOrder, a: Asset)
    ensures Held(WithCall(m, id, c), a) == Held(m, a) - Weight(m.calls, CollateralIn(a), id) + CollateralIn(a)(id, c)
    ensures Debts(WithCall(m, id, c), a) == Debts(m, a) - Weight(m.calls, DebtIn(a), id) + DebtIn(a)(id, c)
  {
    SumPut(m.calls, CollateralIn(a), id, c);
    SumPut(m.calls, DebtIn(a), id, c);
  }

  lemma WithoutCallHeld(m: Market, id: Id, a: Asset)
    ensures Held(WithoutCall(m, id), a) == Held(m, a) - Weight(m.calls, CollateralIn(a), id)
    ensures Debts(WithoutCall(m, id), a) == Debts(m, a) - Weight(m.calls, DebtIn(a), id)
  {
    SumDrop(m.calls, CollateralIn(a), id);
    SumDrop(m.calls, DebtIn(a), id);
  }

  lemma WithSettleHeld(m: Market, id: Id, s: Settlement, a: Asset)
    ensures Held(WithSettle(m, id, s), a) == Held(m, a) - Weight(m.settles, SettleIn(a), id) + SettleIn(a)(id, s)
  {
    SumPut(m.settles, SettleIn(a), id, s);
  }

  lemma WithoutSettleHeld(m: Market, id: Id, a: Asset)
    ensures Held(WithoutSettle(m, id), a) == Held(m, a) - Weight(m.settles, SettleIn(a), id)
  {
    SumDrop(m.settles, SettleIn(a), id);
  }

  lemma WithAssetHeld(m: Market, b: Asset, d: AssetData, a: Asset)
    requires b in m.assets
    ensures Held(WithAsset(m, b, d), a) == Held(m, a) - PoolsIn(a)(b, m.assets[b]) + PoolsIn(a)(b, d)
  {
    SumPut(m.assets, PoolsIn(a), b, d);
  }
}
