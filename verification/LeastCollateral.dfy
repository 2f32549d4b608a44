/** The swan check looks at the position with the lowest call price. Its comment speaks of the least collateralised
    position. When that comes to the same. */
module LeastCollateral {
  import opened Wrappers
  import opened Arithmetic
  import opened Prices
  import opened MarketState
  import opened Sound
  import opened Ranking
  import opened MarginCalls
  import opened Coverage

  function SwanPrice(c: CallOrder): Price {
    Price(c.debt, c.collateral)
  }

  /** No bid is above the highest of debt per collateral, and nor is the feed. */
  ghost predicate SwanMeant(m: Market, a: Asset)
    requires WellFormed(m) && Bit(m, a).Some?
  {
    Bit(m, a).value.feed.Some? && exists i :: i in m.calls && m.calls[i].owed == a && ReachesBoth(m, a, m.calls[i])
  }

  ghost predicate ReachesBoth(m: Market, a: Asset, c: CallOrder)
    requires WellFormed(m) && Bit(m, a).Some? && Bit(m, a).value.feed.Some?
  {
    ReachesFeed(SwanPrice(c), Bit(m, a).value) && ReachesBids(m, a, SwanPrice(c))
  }

  /** The comment has it that there is no swan without a bid. */
  ghost predicate SwanSaid(m: Market, a: Asset)
    requires WellFormed(m) && Bit(m, a).Some?
  {
    Bids(m, a, Bit(m, a).value.backing) != map[] && SwanMeant(m, a)
  }

  /** The same market at another feed. */
  function AtFeed(m: Market, a: Asset, p: Price): Market
    requires Bit(m, a).Some?
  {
    var b := Bit(m, a).value;
    WithAsset(m, a, m.assets[a].(bit := Some(b.(feed := Some(Feed(p, b.backing, p, 0, 0))))))
  }

  /** Of the positions that reach the bids, none has less collateral for its debt than the first by call price. */
  ghost predicate FirstIsLeast(m: Market, a: Asset)
    requires WellFormed(m) && Bit(m, a).Some? && Positions(m, a) != map[]
  {
    forall i :: i in m.calls && m.calls[i].owed == a && ReachesBids(m, a, SwanPrice(m.calls[i])) ==>
      AtLeast(SwanPrice(m.calls[CalledFirst(m, a)]), SwanPrice(m.calls[i]))
  }

  lemma AtFeedKeeps(m: Market, a: Asset, p: Price)
    requires WellFormed(m) && Unsettled(m, a) && Positions(m, a) != map[] && Positive(p)
    ensures var m' := AtFeed(m, a, p);
      && WellFormed(m') && Unsettled(m', a) && Bit(m', a).value.backing != a && m'.calls == m.calls && Positions(m', a) == Positions(m, a)
      && Bit(m', a).value.backing == Bit(m, a).value.backing
      && Bids(m', a, Bit(m, a).value.backing) == Bids(m, a, Bit(m, a).value.backing)
  {
    var m' := AtFeed(m, a, p);
    var j :| j in Positions(m, a);
    assert CallOk(m, m.calls[j]);
    forall i | i in m'.orders ensures OrderOk(m', m'.orders[i]) { assert OrderOk(m, m.orders[i]); }
    forall i | i in m'.calls ensures CallOk(m', m'.calls[i]) { assert CallOk(m, m.calls[i]); }
    forall i | i in m'.settles ensures SettleOk(m', m'.settles[i]) { assert SettleOk(m, m.settles[i]); }
    forall x | x in m'.assets ensures AssetOk(m', x) { assert AssetOk(m, x); }
  }

  lemma SameAtFeed(m: Market, a: Asset, p: Price, q: Price)
    requires WellFormed(m) && Unsettled(m, a) && Positions(m, a) != map[] && Positive(p)
    ensures WellFormed(AtFeed(m, a, p)) && CalledFirst(AtFeed(m, a, p), a) == CalledFirst(m, a)
    ensures ReachesBids(AtFeed(m, a, p), a, q) <==> ReachesBids(m, a, q)
    ensures ReachesFeed(q, Bit(AtFeed(m, a, p), a).value) <==> AtLeast(q, p)
  {
    AtFeedKeeps(m, a, p);
  }

  /** A price that reaches the bids and the feed does so wherever it is at least as high. */
  lemma BidsReached(m: Market, a: Asset, p: Price, q: Price)
    requires WellFormed(m) && Bit(m, a).Some? && p.base > 0 && q.base > 0 && AtLeast(p, q) && ReachesBids(m, a, q)
    ensures ReachesBids(m, a, p)
  {
    BidsRankable(m, a, Bit(m, a).value.backing);
    var bids := Bids(m, a, Bit(m, a).value.backing);
    if bids != map[] { AtLeastTransitive(p, q, bids[First(bids)]); }
  }

  /** At one feed the check finds what the comment means, if the first position is the least collateralised. */
  lemma FoundAt(m: Market, a: Asset, p: Price)
    requires WellFormed(m) && Unsettled(m, a) && Positions(m, a) != map[] && Positive(p) && FirstIsLeast(m, a)
    ensures WellFormed(AtFeed(m, a, p))
    ensures SwanAt(AtFeed(m, a, p), a) <==> SwanMeant(AtFeed(m, a, p), a)
  {
    var m', f := AtFeed(m, a, p), m.calls[CalledFirst(m, a)];
    AtFeedKeeps(m, a, p);
    SameAtFeed(m, a, p, SwanPrice(f));
    if SwanAt(m', a) {
      assert ReachesBoth(m', a, f);
    } else if SwanMeant(m', a) {
      var i :| i in m'.calls && m'.calls[i].owed == a && ReachesBoth(m', a, m'.calls[i]);
      SameAtFeed(m, a, p, SwanPrice(m.calls[i]));
      assert CallOk(m, m.calls[i]) && CallOk(m, f);
      BidsReached(m, a, SwanPrice(f), SwanPrice(m.calls[i]));
      AtLeastTransitive(SwanPrice(f), SwanPrice(m.calls[i]), p);
    }
  }

  /** And at the feed that is a position's own debt per collateral it finds no other. */
  lemma OverlookedAt(m: Market, a: Asset, i: Id)
    requires WellFormed(m) && Covered(m) && Unsettled(m, a)
    requires i in m.calls && m.calls[i].owed == a && ReachesBids(m, a, SwanPrice(m.calls[i]))
    ensures i in Positions(m, a)
    ensures var p := SwanPrice(m.calls[i]);
      && Positive(p) && WellFormed(AtFeed(m, a, p)) && SwanMeant(AtFeed(m, a, p), a)
      && (SwanAt(AtFeed(m, a, p), a) ==> AtLeast(SwanPrice(m.calls[CalledFirst(m, a)]), p))
  {
    var p := SwanPrice(m.calls[i]);
    assert CallOk(m, m.calls[i]) && m.calls[i].collateral > 0 && i in Positions(m, a);
    AtFeedKeeps(m, a, p);
    SameAtFeed(m, a, p, p);
    SameAtFeed(m, a, p, SwanPrice(m.calls[CalledFirst(m, a)]));
    assert ReachesBoth(AtFeed(m, a, p), a, AtFeed(m, a, p).calls[i]);
  }

  /** The check sees a swan in the market at this feed. */
  ghost predicate Finds(m: Market, a: Asset, p: Price)
    requires Bit(m, a).Some? && WellFormed(AtFeed(m, a, p))
  {
    var r := CheckSwan(AtFeed(m, a, p), a, true);
    r.Some? && r.value.1
  }

  lemma FindsIff(m: Market, a: Asset, p: Price)
    requires WellFormed(m) && Unsettled(m, a) && Positions(m, a) != map[] && Positive(p)
    ensures WellFormed(AtFeed(m, a, p)) && Positions(AtFeed(m, a, p), a) != map[]
    ensures Finds(m, a, p) <==> SwanAt(AtFeed(m, a, p), a)
  {
    AtFeedKeeps(m, a, p);
  }

  ghost predicate Feasible(m: Market, a: Asset)
    requires Bit(m, a).Some?
  {
    forall p :: Positive(p) ==> WellFormed(AtFeed(m, a, p))
  }

  /** Whatever the feed, the check finds exactly the swans the comment means, if and only if no position that
      reaches the bids has less collateral for its debt than the first by call price. */
  lemma SwanFoundIff(m: Market, a: Asset)
    requires WellFormed(m) && Covered(m) && Unsettled(m, a) && Positions(m, a) != map[]
    ensures Feasible(m, a)
    ensures (forall p :: Positive(p) ==> (Finds(m, a, p) <==> SwanMeant(AtFeed(m, a, p), a))) <==> FirstIsLeast(m, a)
  {
    forall p | Positive(p) ensures WellFormed(AtFeed(m, a, p)) { FindsIff(m, a, p); }
    if FirstIsLeast(m, a) {
      forall p | Positive(p) ensures Finds(m, a, p) <==> SwanMeant(AtFeed(m, a, p), a) {
        FindsIff(m, a, p);
        FoundAt(m, a, p);
      }
    } else {
      var i :| i in m.calls && m.calls[i].owed == a && ReachesBids(m, a, SwanPrice(m.calls[i]))
               && !AtLeast(SwanPrice(m.calls[CalledFirst(m, a)]), SwanPrice(m.calls[i]));
      OverlookedAt(m, a, i);
      FindsIff(m, a, SwanPrice(m.calls[i]));
    }
  }

  /** And exactly those it describes, if and only if there is a bid besides: without one the feed alone decides. */
  lemma SwanSaidIff(m: Market, a: Asset)
    requires WellFormed(m) && Covered(m) && Unsettled(m, a) && Positions(m, a) != map[]
    ensures Feasible(m, a)
    ensures (forall p :: Positive(p) ==> (Finds(m, a, p) <==> SwanSaid(AtFeed(m, a, p), a)))
       <==> FirstIsLeast(m, a) && Bids(m, a, Bit(m, a).value.backing) != map[]
  {
    SwanFoundIff(m, a);
    forall p | Positive(p)
      ensures SwanSaid(AtFeed(m, a, p), a) <==> Bids(m, a, Bit(m, a).value.backing) != map[] && SwanMeant(AtFeed(m, a, p), a)
    {
      AtFeedKeeps(m, a, p);
    }
    if Bids(m, a, Bit(m, a).value.backing) == map[] {
      var f := CalledFirst(m, a);
      var p := SwanPrice(m.calls[f]);
      OverlookedAt(m, a, f);
      SameAtFeed(m, a, p, p);
      FindsIff(m, a, p);
    }
  }

  // ----- when the two orders agree ---------------------------------------------------------------------

  const RATIO_DENOM: nat := 1000

  /** The call price is the one of the present amounts, at a ratio. */
  predicate Current(c: CallOrder, ratio: nat) {
    c.callPrice.base * (c.debt * ratio) == c.callPrice.quote * (c.collateral * RATIO_DENOM)
  }

  lemma AtLeastScaled(p: Price, q: Price, x: nat, y: nat)
    requires x > 0 && y > 0 && AtLeast(Price(p.base * x, p.quote * y), Price(q.base * x, q.quote * y))
    ensures AtLeast(p, q)
  {
    CrossProduct(p.base, x, q.quote, y);
    CrossProduct(q.base, x, p.quote, y);
    if Less(p, q) { LessScaled(p.base * q.quote, q.base * p.quote, x, y); }
  }

  lemma CrossProduct(a: nat, x: nat, b: nat, y: nat)
    ensures (a * x) * (b * y) == (a * b) * (x * y)
  {}

  lemma LessScaled(a: nat, b: nat, x: nat, y: nat)
    requires a < b && x > 0 && y > 0
    ensures a * (x * y) < b * (x * y)
  {
    MulLess(1, y, x);
    MulLess(a + 1, b, x * y);
  }

  /** While all call prices come from the present amounts at one ratio, the first by call price has least
      collateral for its debt; a call that fills in part leaves the call price as it was. */
  lemma CurrentIsLeast(m: Market, a: Asset, ratio: nat)
    requires WellFormed(m) && Covered(m) && Bit(m, a).Some? && Positions(m, a) != map[] && ratio > 0
    requires forall i :: i in m.calls && m.calls[i].owed == a ==> Current(m.calls[i], ratio)
    ensures FirstIsLeast(m, a)
  {
    var f := CalledFirst(m, a);
    forall i | i in m.calls && m.calls[i].owed == a ensures AtLeast(SwanPrice(m.calls[f]), SwanPrice(m.calls[i])) {
      assert Ahead(Positions(m, a), f, i);
      assert CallOk(m, m.calls[i]) && CallOk(m, m.calls[f]);
      CurrentOrder(m.calls[f], m.calls[i], ratio);
    }
  }

  lemma CurrentOrder(c: CallOrder, d: CallOrder, ratio: nat)
    requires ratio > 0 && Current(c, ratio) && Current(d, ratio) && c.debt > 0 && d.debt > 0
    requires Positive(c.callPrice) && Positive(d.callPrice) && AtLeast(Invert(c.callPrice), Invert(d.callPrice))
    ensures AtLeast(SwanPrice(c), SwanPrice(d))
  {
    var p, q := Price(c.debt * ratio, c.collateral * RATIO_DENOM), Price(d.debt * ratio, d.collateral * RATIO_DENOM);
    assert p.base > 0 && q.base > 0;
    AtLeastTransitive(p, Invert(c.callPrice), Invert(d.callPrice));
    AtLeastTransitive(p, Invert(d.callPrice), q);
    AtLeastScaled(SwanPrice(c), SwanPrice(d), ratio, RATIO_DENOM);
  }
}
