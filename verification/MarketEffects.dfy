/** What every event of a run does to every account and row. */
module MarketEffects {
  import opened Wrappers
  import opened Constants
  import opened MarketState
  import opened Sound
  import opened Effects
  import opened CallRuns
  import opened Operations
  import opened AssetOperations
  import opened MarketRun
  import C = ClearSettlements
  import E = OperationEffects

  /** One row of the assets is another, and nothing else is. */
  predicate RowSet(m: Market, m': Market, a: Asset, d: AssetData) {
    m' == m.(assets := m.assets[a := d])
  }

  ghost predicate OptionsSet(m: Market, a: Asset, backing: Asset, offset: nat, maxVolume: nat, median: Median, r: Option<Market>) {
    if Bit(m, a).None? || Settled(m, a) then r.None?
    else
      var b := Bit(m, a).value;
      var feed := if median.Kept? then b.feed else median.feed;
      && (r.Some? <==> offset <= HUNDRED_PERCENT && maxVolume <= HUNDRED_PERCENT && FeedOk(a, feed)
                       && (backing != b.backing ==> m.assets[a].supply == 0 && backing in m.assets))
      && (r.Some? ==>
            RowSet(m, r.value, a, m.assets[a].(bit := Some(
              BitAsset(backing, feed, b.prediction, b.settlement, b.fund, b.forceSettled, maxVolume, offset)))))
  }

  ghost predicate MarketFeeSet(m: Market, a: Asset, percent: nat, most: nat, r: Option<Market>) {
    && (r.Some? <==> a in m.assets && percent <= HUNDRED_PERCENT)
    && (r.Some? ==> RowSet(m, r.value, a, m.assets[a].(feePercent := percent, maxFee := most)))
  }

  ghost predicate VolumeRenewed(m: Market, a: Asset, r: Option<Market>) {
    && (r.Some? <==> Bit(m, a).Some?)
    && (r.Some? ==> RowSet(m, r.value, a, m.assets[a].(bit := Some(Bit(m, a).value.(forceSettled := 0)))))
  }

  /** Between the booking of the fee and the taking of it. */
  ghost predicate Did(m: Market, op: Op, r: Option<Market>)
    requires !op.Create? && !op.NewAsset?
  {
    match op
    case Cancel(seller, id) => E.Cancelled(m, seller, id, r)
    case Update(change) => E.Updated(m, change, r)
    case Settle(who, a, x, date, enabled) => E.SettledOrQueued(m, who, a, x, date, enabled, r)
    case SettleAll(a, price) => E.IssuerSettled(m, a, price, r)
    case Publish(a, feed) => E.FeedSet(m, a, feed, true, r)
    case Options(a, backing, offset, maxVolume, median) => OptionsSet(m, a, backing, offset, maxVolume, median, r)
    case MarketFee(a, percent, most) => MarketFeeSet(m, a, percent, most, r)
    case Issue(who, a, x, most) => E.Issued(m, who, a, x, most, r)
    case Reserve(who, a, x) => E.Reserved(m, who, a, x, r)
    case Transfer(who, to, a, x) => E.Transferred(m, who, to, a, x, r)
    case Claim(who, a, x) => E.Claimed(m, who, a, x, r)
    case Fund(who, a, x) => E.Funded(m, who, a, x, r)
  }

  lemma DoDoes(m: Market, op: Op)
    requires Healthy(m) && !op.Create? && !op.NewAsset?
    ensures Did(m, op, Do(m, op))
  {
    match op
    case Cancel(seller, id) => E.CancelOrderDoes(m, seller, id);
    case Update(change) => E.UpdateDoes(m, change);
    case Settle(who, a, x, date, enabled) => E.SettleDoes(m, who, a, x, date, enabled);
    case SettleAll(a, price) => E.SettleAllDoes(m, a, price);
    case Publish(a, feed) => E.NewFeedSets(m, a, feed, true);
    case Options(a, backing, offset, maxVolume, median) =>
    case MarketFee(a, percent, most) =>
    case Issue(who, a, x, most) => E.IssueAdds(m, who, a, x, most);
    case Reserve(who, a, x) => E.ReserveTakes(m, who, a, x);
    case Transfer(who, to, a, x) => E.TransferMoves(m, who, to, a, x);
    case Claim(who, a, x) => E.ClaimPays(m, who, a, x);
    case Fund(who, a, x) => E.FundPoolFunds(m, who, a, x);
  }

  /** The fee is due and pending, then the operation is done, and then the fee is paid out of what the payer has. */
  ghost predicate WithFee(m: Market, f: Fee, op: Op, r: Option<Market>)
    requires !op.Create? && !op.NewAsset?
  {
    if !E.FeeOk(m, f) then r.None?
    else exists m1 :: E.FeeDue(m, m1, f) && PendingGains(m, m1, f.payer, f.core) && DoneWithFee(m1, f, op, r)
  }

  ghost predicate DoneWithFee(m: Market, f: Fee, op: Op, r: Option<Market>)
    requires !op.Create? && !op.NewAsset?
  {
    exists done :: Did(m, op, done) && if done.None? then r.None? else E.FeePaid(done.value, f.payer, r)
  }

  lemma OtherDoes(m: Market, f: Fee, op: Op)
    requires Healthy(m) && Idle(m) && !op.Create? && !op.NewAsset?
    ensures WithFee(m, f, op, Perform(m, f, op))
  {
    if E.FeeOk(m, f) {
      BookHealthy(m, f);
      E.ConvertBooks(m, f);
      DoDoes(Book(m, f), op);
      var done := Do(Book(m, f), op);
      if done.Some? { E.TakeFeeTakes(done.value, f.payer); }
      assert DoneWithFee(Book(m, f), f, op, Perform(m, f, op));
    }
  }

  /** What an event comes to.
      - An operation is as its own relation says.
      - The settlement run goes turn by turn over all requests.
      - A median is recalculated, with margin calls; an interval renews the volume that may be settled. */
  ghost predicate Happened(m: Market, e: Event, r: Option<Market>) {
    match e
    case Operation(f, op) =>
      if op.Create? then E.LimitCreated(m, f, op.offer, op.kill, r)
      else if op.NewAsset? then E.AssetCreated(m, f, op.plan, r)
      else WithFee(m, f, op, r)
    case Clear(now) => r.Some? ==> C.RunBy(m, r.value, now, CORE)
    case Recalculate(a, feed) => E.FeedSet(m, a, feed, false, r)
    case Interval(a) => VolumeRenewed(m, a, r)
  }

  lemma ResultHappens(m: Market, e: Event)
    requires Healthy(m) && Idle(m)
    ensures Happened(m, e, Result(m, e))
  {
    match e
    case Operation(f, op) =>
      if op.Create? { E.CreateLimitDoes(m, f, op.offer, op.kill); }
      else if op.NewAsset? { E.CreateAssetDoes(m, f, op.plan); }
      else { OtherDoes(m, f, op); }
    case Clear(now) =>
    case Recalculate(a, feed) => E.NewFeedSets(m, a, feed, false);
    case Interval(a) =>
  }
}
