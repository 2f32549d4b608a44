/** Creating an asset, half of whose fee is meant to go into the asset's fee pool. */
module AssetCreation {
  import opened Wrappers
  import opened Constants
  import opened Sums
  import opened MarketState
  import opened Sound
  import opened Operations

  /** What is asked for a market-issued asset. */
  datatype BitPlan = BitPlan(backing: Asset, prediction: bool, offset: nat, maxVolume: nat)

  datatype Plan = Plan(feePercent: nat, maxFee: nat, bit: Option<BitPlan>)

  /** A market-issued asset is backed by an existing one, two market-issued assets deep at most. */
  predicate PlanOk(m: Market, p: Plan) {
    && p.feePercent <= HUNDRED_PERCENT
    && (p.bit.Some? ==>
          var b := p.bit.value;
          && b.offset <= HUNDRED_PERCENT && b.maxVolume <= HUNDRED_PERCENT && b.backing in m.assets
          && (Bit(m, b.backing).Some? ==> Bit(m, Bit(m, b.backing).value.backing).None?))
  }

  /** A new asset, with its part of the fee. */
  function Created(p: Plan, pool: nat): AssetData {
    AssetData(0, 0, pool, p.feePercent, p.maxFee,
              if p.bit.None? then None
              else Some(BitAsset(p.bit.value.backing, None, p.bit.value.prediction, None, 0, 0, p.bit.value.maxVolume, p.bit.value.offset)))
  }

  /** The fee is halved, rounding up, before it is converted. */
  function Halved(f: Fee): Fee {
    f.(core := f.core - f.core / 2)
  }

  /** So half of it is paid and half is in the new pool; of a fee in another asset only one of the halves has
      been taken out of that asset's pool, and of an odd fee both halves are rounded up. */
  function Surplus(f: Fee): nat {
    if f.asset == CORE then f.core % 2 else Halved(f).core
  }

  ghost function WithNew(m: Market, f: Fee, p: Plan): Market
    requires Payable(m, f)
  {
    var m1 := Book(m, Halved(f));
    WithAsset(m1, Later(m1.assets.Keys), Created(p, Halved(f).core)).(minted := m.minted + Surplus(f))
  }

  ghost function CreateAsset(m: Market, f: Fee, p: Plan): Option<Market>
    requires Healthy(m) && Idle(m)
  {
    if !Payable(m, f) || !PlanOk(m, p) then None else TakeFee(WithNew(m, f, p), f.payer)
  }

  lemma NewAssetHeld(m: Market, b: Asset, d: AssetData, a: Asset)
    requires b !in m.assets
    ensures Held(WithAsset(m, b, d), a) == Held(m, a) + PoolsIn(a)(b, d)
  {
    SumPut(m.assets, PoolsIn(a), b, d);
  }

  /** With what has been minted taken off, everything is where it was. */
  lemma WithNewHeld(m: Market, f: Fee, p: Plan, a: Asset)
    requires Healthy(m) && Idle(m) && Payable(m, f)
    ensures Held(WithNew(m, f, p), a) == Held(m, a)
  {
    var m1 := Book(m, Halved(f));
    BookFrame(m, Halved(f));
    BookHeld(m, Halved(f), a);
    var d := Created(p, Halved(f).core);
    NewAssetHeld(m1, Later(m1.assets.Keys), d, a);
    MintedHeld(WithAsset(m1, Later(m1.assets.Keys), d), m.minted + Surplus(f), a);
  }

  lemma MintedHeld(m: Market, minted: nat, a: Asset)
    ensures Held(m.(minted := minted), a) == Held(m, a) + If(a == CORE, m.minted - minted)
  {}

  lemma WithNewKeeps(m: Market, f: Fee, p: Plan)
    requires Healthy(m) && Idle(m) && Payable(m, f) && PlanOk(m, p)
    ensures WellFormed(WithNew(m, f, p))
  {
    var m1 := Book(m, Halved(f));
    var m' := WithNew(m, f, p);
    BookFrame(m, Halved(f));
    SameRowsKeep(m, m1);
    var a := Later(m1.assets.Keys);
    assert a !in m1.assets && CORE in m1.assets;
    MoreAssetsKeep(m1, m', a);
  }

  lemma MoreAssetsKeep(m: Market, m': Market, a: Asset)
    requires WellFormed(m) && a !in m.assets && a in m'.assets && m'.assets == m.assets[a := m'.assets[a]] && AssetOk(m', a)
    requires m'.orders == m.orders && m'.calls == m.calls && m'.settles == m.settles
    ensures WellFormed(m')
  {
    forall i | i in m'.orders ensures OrderOk(m', m'.orders[i]) { assert OrderOk(m, m.orders[i]); }
    forall i | i in m'.calls ensures CallOk(m', m'.calls[i]) { assert CallOk(m, m.calls[i]); }
    forall i | i in m'.settles ensures SettleOk(m', m'.settles[i]) { assert SettleOk(m, m.settles[i]); }
    forall x | x in m'.assets ensures AssetOk(m', x) {
      if x != a { assert AssetOk(m, x); }
    }
  }

  /** Nobody holds or owes any of an asset that has not been created. */
  lemma NoDebts(m: Market, a: Asset)
    requires WellFormed(m) && a !in m.assets
    ensures Debts(m, a) == 0
  {
    forall i | i in m.calls ensures DebtIn(a)(i, m.calls[i]) == 0 { assert CallOk(m, m.calls[i]); }
    SumZero(m.calls, DebtIn(a));
  }

  lemma WithNewFrame(m: Market, f: Fee, p: Plan, x: Asset)
    requires Payable(m, f)
    ensures var m' := WithNew(m, f, p);
      && m'.orders == m.orders && m'.calls == m.calls && m'.minted == m.minted + Surplus(f)
      && (x in m.assets ==> Bit(m', x) == Bit(m, x)) && Supply(m', x) == Supply(m, x)
      && (Settled(m', x) ==> x in m.assets)
  {
    BookFrame(m, Halved(f));
    assert Later(m.assets.Keys) !in m.assets;
  }

  lemma WithNewBooks(m: Market, f: Fee, p: Plan, x: Asset)
    requires Healthy(m) && Idle(m) && Payable(m, f)
    ensures Books(WithNew(m, f, p), x)
  {
    assert Books(m, x);
    WithNewHeld(m, f, p, x);
    WithNewFrame(m, f, p, x);
    if x !in m.assets { NoDebts(m, x); }
  }

  lemma WithNewSound(m: Market, f: Fee, p: Plan)
    requires Healthy(m) && Idle(m) && Payable(m, f) && PlanOk(m, p)
    ensures Healthy(WithNew(m, f, p)) && WithNew(m, f, p).minted == m.minted + Surplus(f)
  {
    WithNewKeeps(m, f, p);
    WithNewFrame(m, f, p, CORE);
    forall x ensures Books(WithNew(m, f, p), x) { WithNewBooks(m, f, p, x); }
    SameOrdersHealthy(m, WithNew(m, f, p));
  }

  lemma CreateAssetKeeps(m: Market, f: Fee, p: Plan)
    requires Healthy(m) && Idle(m)
    ensures var r := CreateAsset(m, f, p);
      r.Some? ==> Healthy(r.value) && Idle(r.value) && r.value.minted == m.minted + Surplus(f)
  {
    if Payable(m, f) && PlanOk(m, p) {
      WithNewSound(m, f, p);
      TakeFeeSound(WithNew(m, f, p), f.payer);
    }
  }

  /** Creating an asset conserves core if and only if its fee is an even amount of core, or nothing. */
  lemma CreationConservesIff(m: Market, f: Fee, p: Plan)
    requires Healthy(m) && Idle(m) && CreateAsset(m, f, p).Some?
    ensures var m' := CreateAsset(m, f, p).value;
      && InHands(m', CORE) - Supply(m', CORE) == InHands(m, CORE) - Supply(m, CORE) + Surplus(f)
      && (InHands(m', CORE) - Supply(m', CORE) == InHands(m, CORE) - Supply(m, CORE)
          <==> if f.asset == CORE then f.core % 2 == 0 else f.core == 0)
  {
    CreateAssetKeeps(m, f, p);
    assert Books(m, CORE) && Books(CreateAsset(m, f, p).value, CORE);
  }
}
