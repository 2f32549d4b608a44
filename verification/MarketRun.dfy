/** Every run of the market: operations by accounts, each with its fee, and what blocks do by themselves. */
module MarketRun {
  import opened Wrappers
  import opened Constants
  import opened Prices
  import opened Sums
  import opened MarketState
  import opened MarketFill
  import opened Sound
  import opened OrderBook
  import opened ForceSettlement
  import opened ClearSettlements
  import opened Coverage
  import opened Operations
  import opened AssetOperations
  import opened AssetCreation
  import U = UpdateCall

  datatype Op =
    | Create(offer: Offer, kill: bool)
    | Cancel(seller: Account, id: Id)
    | Update(change: U.Amendment)
    | Settle(who: Account, asset: Asset, amount: nat, date: nat, enabled: bool)
    | SettleAll(asset: Asset, price: Price)
    | Publish(asset: Asset, feed: Option<Feed>)
    | Options(asset: Asset, backing: Asset, offset: nat, maxVolume: nat, median: Median)
    | MarketFee(asset: Asset, percent: nat, most: nat)
    | Issue(who: Account, asset: Asset, amount: nat, most: nat)
    | Reserve(who: Account, asset: Asset, amount: nat)
    | Transfer(who: Account, to: Account, asset: Asset, amount: nat)
    | Claim(who: Account, asset: Asset, amount: nat)
    | Fund(who: Account, asset: Asset, amount: nat)
    | NewAsset(plan: Plan)

  /** Operations come from transactions; the rest happens at the end of a block. */
  datatype Event =
    | Operation(fee: Fee, op: Op)
    | Clear(now: nat)
    | Recalculate(asset: Asset, feed: Option<Feed>)
    | Interval(asset: Asset)

  /** An operation other than a new limit order or a new asset, between the booking of its fee and the taking of it. */
  ghost function Do(m: Market, op: Op): Option<Market>
    requires Healthy(m) && !op.Create? && !op.NewAsset?
  {
    match op
    case Cancel(seller, id) => CancelOrder(m, seller, id)
    case Update(change) => U.Update(m, change)
    case Settle(who, a, x, date, enabled) => AssetOperations.Settle(m, who, a, x, date, enabled)
    case SettleAll(a, price) => AssetOperations.SettleAll(m, a, price)
    case Publish(a, feed) => NewFeed(m, a, feed, true)
    case Options(a, backing, offset, maxVolume, median) => NewOptions(m, a, backing, offset, maxVolume, median)
    case MarketFee(a, percent, most) => NewMarketFee(m, a, percent, most)
    case Issue(who, a, x, most) => AssetOperations.Issue(m, who, a, x, most)
    case Reserve(who, a, x) => AssetOperations.Reserve(m, who, a, x)
    case Transfer(who, to, a, x) => AssetOperations.Transfer(m, who, to, a, x)
    case Claim(who, a, x) => ClaimFees(m, who, a, x)
    case Fund(who, a, x) => FundPool(m, who, a, x)
  }

  lemma DoKeeps(m: Market, op: Op)
    requires Healthy(m) && Booked(m) && !op.Create? && !op.NewAsset?
    ensures Keeps(m, Do(m, op))
  {
    match op
    case Cancel(seller, id) => CancelOrderKeeps(m, seller, id);
    case Update(change) => U.UpdateKeeps(m, change);
    case Settle(who, a, x, date, enabled) => SettleKeeps(m, who, a, x, date, enabled);
    case SettleAll(a, price) => SettleAllKeeps(m, a, price);
    case Publish(a, feed) => NewFeedKeeps(m, a, feed, true);
    case Options(a, backing, offset, maxVolume, median) => NewOptionsKeep(m, a, backing, offset, maxVolume, median);
    case MarketFee(a, percent, most) => NewTermsKeep(m, a, percent, most);
    case Issue(who, a, x, most) => IssueKeeps(m, who, a, x, most);
    case Reserve(who, a, x) => ReserveKeeps(m, who, a, x);
    case Transfer(who, to, a, x) => TransferKeeps(m, who, to, a, x);
    case Claim(who, a, x) => ClaimKeeps(m, who, a, x);
    case Fund(who, a, x) => FundPoolKeeps(m, who, a, x);
  }

  lemma BookHealthy(m: Market, f: Fee)
    requires Healthy(m) && Idle(m) && Payable(m, f)
    ensures Healthy(Book(m, f)) && Booked(Book(m, f))
  {
    BookSound(m, f);
    ConvertFrame(m, f);
    SameOrdersHealthy(m, Book(m, f));
    BookBooked(m, f);
  }

  lemma BookBooked(m: Market, f: Fee)
    requires Payable(m, f)
    ensures Booked(Book(m, f))
  {
    BookFrame(m, f);
    if f.asset == CORE { PendingWithin(Book(m, f), f.payer, f.core); } else { FeesWithin(Book(m, f), f.asset, f.amount); }
  }

  lemma PendingWithin(m: Market, who: Account, x: nat)
    requires x > 0 ==> who in m.pending && m.pending[who] >= x
    ensures x <= SumBy(m.pending, PendingIn(CORE))
  {
    HeldParts(m, CORE);
    if x > 0 { SumAtLeast<Account, nat>(m.pending, PendingIn(CORE), who); }
  }

  lemma FeesWithin(m: Market, a: Asset, x: nat)
    requires a in m.assets && m.assets[a].fees >= x
    ensures x <= SumBy(m.assets, PoolsIn(a))
  {
    forall j | j in m.assets ensures PoolsIn(a)(j, m.assets[j]) >= 0 { PoolWeight(a, j, m.assets[j]); }
    SumAtLeast(m.assets, PoolsIn(a), a);
    PoolWeight(a, a, m.assets[a].(fees := m.assets[a].fees - x));
  }

  /** Books the fee, does the operation, takes the fee. */
  ghost function Perform(m: Market, f: Fee, op: Op): Option<Market>
    requires Healthy(m) && Idle(m)
  {
    if op.Create? then CreateLimit(m, f, op.offer, op.kill)
    else if op.NewAsset? then CreateAsset(m, f, op.plan)
    else if !Payable(m, f) then None
    else
      BookHealthy(m, f);
      var m' :- Do(Book(m, f), op);
      TakeFee(m', f.payer)
  }

  /** Core units that an operation makes out of nothing. */
  function MintedBy(f: Fee, op: Op): nat {
    if op.NewAsset? then Surplus(f) else 0
  }

  lemma PerformKeeps(m: Market, f: Fee, op: Op)
    requires Healthy(m) && Idle(m)
    ensures var r := Perform(m, f, op); r.Some? ==> Healthy(r.value) && Idle(r.value) && r.value.minted == m.minted + MintedBy(f, op)
  {
    if op.Create? {
      CreateLimitKeeps(m, f, op.offer, op.kill);
    } else if op.NewAsset? {
      CreateAssetKeeps(m, f, op.plan);
    } else {
      OtherKeeps(m, f, op);
    }
  }

  lemma OtherKeeps(m: Market, f: Fee, op: Op)
    requires Healthy(m) && Idle(m) && !op.Create? && !op.NewAsset?
    ensures var r := Perform(m, f, op); r.Some? ==> Healthy(r.value) && Idle(r.value) && r.value.minted == m.minted
  {
    if Payable(m, f) {
      BookHealthy(m, f);
      BookMints(m, f);
      DoKeeps(Book(m, f), op);
      var r := Do(Book(m, f), op);
      if r.Some? { TakeFeeSound(r.value, f.payer); }
    }
  }

  lemma BookMints(m: Market, f: Fee)
    requires Payable(m, f)
    ensures Book(m, f).minted == m.minted
  {
    ConvertFrame(m, f);
  }

  ghost function Result(m: Market, e: Event): Option<Market>
    requires Healthy(m) && Idle(m)
  {
    match e
    case Operation(f, op) => Perform(m, f, op)
    case Clear(now) => ClearFrom(m, now, CORE)
    case Recalculate(a, feed) => NewFeed(m, a, feed, false)
    case Interval(a) => NewInterval(m, a)
  }

  /** The settlement run at the end of a block deals with everything that is due, or throws: if some pressing
      request meets a feed that is askew, and otherwise only for positions too faint to be found. */
  lemma ClearKeeps(m: Market, now: nat)
    requires Healthy(m)
    ensures var r := ClearFrom(m, now, CORE);
      && Keeps(m, r) && (r.Some? ==> Cleared(m, r.value, now, CORE))
      && ((exists k :: Stuck(m, now, k)) ==> r.None?)
      && (r.None? ==> exists k :: Stuck(m, now, k) || Exposed(m, now, k))
  {
    var r := ClearFrom(m, now, CORE);
    forall k | Stuck(m, now, k) ensures k in From(m, CORE) {}
    if r.Some? {
      NoFainterCovered(m, r.value);
      SameOrdersHealthy(m, r.value);
    }
  }

  /** As long as nothing circulates in larger amounts than an asset may have, it throws if and only if a
      pressing request meets a feed that is askew. */
  lemma ClearThrowsIff(m: Market, now: nat)
    requires Healthy(m) && forall a :: Unsettled(m, a) ==> Supply(m, a) <= MAX_SHARES
    ensures ClearFrom(m, now, CORE).None? <==> exists k :: Stuck(m, now, k)
  {
    ClearKeeps(m, now);
    forall k ensures !Exposed(m, now, k) {
      if Exposed(m, now, k) { NoneFaint(m, m.settles[k].asset); }
    }
  }

  lemma NoneFaint(m: Market, a: Asset)
    requires Healthy(m) && Unsettled(m, a) && Supply(m, a) <= MAX_SHARES
    ensures !Faint(m, a)
  {
    assert Books(m, a);
    forall i | i in m.calls && m.calls[i].owed == a ensures Solid(m.calls[i]) { DebtAtMostDebts(m, i); }
  }

  /** What throws is undone. */
  ghost function Step(m: Market, e: Event): Market
    requires Healthy(m) && Idle(m)
  {
    var r := Result(m, e);
    if r.Some? then r.value else m
  }

  lemma StepKeeps(m: Market, e: Event)
    requires Healthy(m) && Idle(m)
    ensures Healthy(Step(m, e)) && Idle(Step(m, e)) && Step(m, e).minted == m.minted + Minted(m, e)
  {
    match e
    case Operation(f, op) => PerformKeeps(m, f, op);
    case Clear(now) => ClearKeeps(m, now);
    case Recalculate(a, feed) => NewFeedKeeps(m, a, feed, false);
    case Interval(a) => NewTermsKeep(m, a, 0, 0);
  }

  /** What an event mints, if it goes through. */
  ghost function Minted(m: Market, e: Event): nat
    requires Healthy(m) && Idle(m)
  {
    if e.Operation? && Result(m, e).Some? then MintedBy(e.fee, e.op) else 0
  }

  /** A run, event after event. */
  ghost function Run(m: Market, es: seq<Event>): Market
    requires Healthy(m) && Idle(m)
    decreases |es|
  {
    if es == [] then m
    else
      StepKeeps(m, es[0]);
      Run(Step(m, es[0]), es[1..])
  }

  lemma {:induction false} RunHealthy(m: Market, es: seq<Event>)
    requires Healthy(m) && Idle(m)
    ensures Healthy(Run(m, es)) && Idle(Run(m, es))
    decreases |es|
  {
    if es != [] {
      StepKeeps(m, es[0]);
      RunHealthy(Step(m, es[0]), es[1..]);
    }
  }

  /** Over every run: what is held of an asset is what circulates of it, and in core what creating assets has
      minted; until an asset is settled all of it is somebody's debt, with collateral behind it; afterwards
      the fund covers what is left; no two orders overlap and none asks for nothing. */
  lemma RunKeeps(m: Market, es: seq<Event>)
    requires Healthy(m) && Idle(m)
    ensures var m' := Run(m, es);
      && Uncrossed(m') && NoDust(m') && Covered(m') && WellFormed(m') && Idle(m')
      && (forall a :: InHands(m', a) == Supply(m', a) + If(a == CORE, m'.minted))
      && (forall a :: Backed(m', a) && Solvent(m', a))
  {
    RunHealthy(m, es);
    var m' := Run(m, es);
    forall a ensures InHands(m', a) == Supply(m', a) + If(a == CORE, m'.minted) && Backed(m', a) && Solvent(m', a) {
      assert Books(m', a);
    }
  }

  /** Every asset creation that has gone through has paid an even fee in core, or one worth nothing. */
  ghost predicate EvenlyPaid(m: Market, es: seq<Event>)
    requires Healthy(m) && Idle(m)
    decreases |es|
  {
    es == [] || (StepKeeps(m, es[0]);
      Minted(m, es[0]) == 0 && EvenlyPaid(Step(m, es[0]), es[1..]))
  }

  lemma {:induction false} RunMints(m: Market, es: seq<Event>)
    requires Healthy(m) && Idle(m)
    ensures Run(m, es).minted >= m.minted
    ensures Run(m, es).minted == m.minted <==> EvenlyPaid(m, es)
    decreases |es|
  {
    if es != [] {
      StepKeeps(m, es[0]);
      RunMints(Step(m, es[0]), es[1..]);
    }
  }

  /** A run conserves core if and only if asset creations have been evenly paid for; it conserves every other
      asset in any case. */
  lemma RunConservesIff(m: Market, es: seq<Event>)
    requires Healthy(m) && Idle(m) && m.minted == 0
    ensures var m' := Run(m, es);
      && (InHands(m', CORE) == Supply(m', CORE) <==> EvenlyPaid(m, es))
      && (forall a {:trigger InHands(m', a)} :: a != CORE ==> InHands(m', a) == Supply(m', a))
  {
    RunKeeps(m, es);
    RunMints(m, es);
    assert InHands(Run(m, es), CORE) == Supply(Run(m, es), CORE) + Run(m, es).minted;
  }

  lemma IdleBooked(m: Market)
    requires Idle(m)
    ensures Booked(m)
  {
    HeldParts(m, m.due.asset);
    HeldParts(m, CORE);
  }

  /** Whatever has happened before, a holder of a globally settled asset who may settle is paid. */
  lemma AlwaysPaid(m: Market, es: seq<Event>, who: Account, a: Asset, x: nat)
    requires Healthy(m) && Idle(m)
    requires var m' := Run(m, es); Settled(m', a) && x <= Balance(m', who, a)
    ensures var m' := Run(m, es);
      Bit(m', a).value.settlement.value.base > 0 && Redeem(m', who, a, x).Some?
  {
    RunHealthy(m, es);
    IdleBooked(Run(m, es));
    FundSuffices(Run(m, es), who, a, x);
  }

  /** The market at the start: core in accounts, and nothing on the books. Other assets are created later. */
  ghost function Genesis(balances: map<(Account, Asset), nat>): Market {
    Market(balances, map[], map[], map[],
           map[CORE := AssetData(SumBy(balances, BalanceIn(CORE)), 0, 0, 0, 0, None)], map[], Due(CORE, 0), 0)
  }

  lemma GenesisHealthy(balances: map<(Account, Asset), nat>)
    requires forall k :: k in balances ==> k.1 == CORE
    ensures Healthy(Genesis(balances)) && Idle(Genesis(balances))
  {
    var m := Genesis(balances);
    assert AssetOk(m, CORE);
    forall a ensures Books(m, a) {
      SumZero(m.assets, PoolsIn(a));
      if a != CORE { SumZero<(Account, Asset), nat>(balances, BalanceIn(a)); }
    }
  }
}
