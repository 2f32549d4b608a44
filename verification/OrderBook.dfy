/** apply_order: a new limit order against the book. */
module OrderBook {
  import opened Wrappers
  import opened Prices
  import opened Sums
  import opened MarketState
  import opened MarketFill
  import opened Sound
  import opened Ranking
  import opened CheckCalls

  // ----- what a book looks like ----------------------------------------------------------------

  /** No two offers overlap. */
  ghost predicate Uncrossed(m: Market) {
    forall i, j :: i in m.orders && j in m.orders ==> !Crosses(m.orders[i], m.orders[j])
  }

  ghost predicate UncrossedBut(m: Market, id: Id) {
    forall i, j :: i in m.orders && j in m.orders && i != id && j != id ==> !Crosses(m.orders[i], m.orders[j])
  }

  /** Every offer asks for at least one unit. */
  ghost predicate NoDust(m: Market) {
    forall i :: i in m.orders ==> !Dust(m.orders[i])
  }

  ghost predicate NoDustBut(m: Market, id: Id) {
    forall i :: i in m.orders && i != id ==> !Dust(m.orders[i])
  }

  predicate SameTermsOf(o: LimitOrder, o': LimitOrder) {
    o'.sell == o.sell && o'.receive == o.receive && o'.price == o.price
  }

  /** Orders may go or shrink, but none is new and none changes its terms. */
  ghost predicate TermsKept(m: Market, m': Market) {
    forall i :: i in m'.orders ==> i in m.orders && SameTermsOf(m.orders[i], m'.orders[i])
  }

  lemma ShrunkKeeps(m: Market, m': Market, id: Id)
    requires Shrunk(m, m')
    ensures TermsKept(m, m')
    ensures NoDustBut(m, id) ==> NoDustBut(m', id)
  {
    forall i | i in m'.orders ensures SameTermsOf(m.orders[i], m'.orders[i]) { assert SameOffer(m.orders[i], m'.orders[i]); }
    forall i | NoDustBut(m, id) && i in m'.orders && i != id ensures !Dust(m'.orders[i]) {
      assert SameOffer(m.orders[i], m'.orders[i]);
    }
  }

  lemma TermsTwice(m: Market, m1: Market, m2: Market)
    requires TermsKept(m, m1) && TermsKept(m1, m2)
    ensures TermsKept(m, m2)
  {}

  lemma StaysUncrossed(m: Market, m': Market, id: Id)
    requires TermsKept(m, m')
    ensures UncrossedBut(m, id) ==> UncrossedBut(m', id)
    ensures Uncrossed(m) ==> Uncrossed(m')
  {}

  // ----- matching -------------------------------------------------------------------------------

  /** The resting orders a taker can be matched with. */
  function Makers(m: Market, id: Id): map<Id, Price>
    requires id in m.orders
  {
    map k | k in m.orders && Crosses(m.orders[id], m.orders[k]) :: m.orders[k].price
  }

  /** The best offer on the other side. */
  ghost function BestMaker(m: Market, id: Id): (k: Id)
    requires WellFormed(m) && id in m.orders && Makers(m, id) != map[]
    ensures IsFirst(Makers(m, id), k) && k in m.orders && k != id && Crosses(m.orders[id], m.orders[k])
  {
    forall i | i in m.orders ensures Positive(m.orders[i].price) && m.orders[i].sell != m.orders[i].receive { assert OrderOk(m, m.orders[i]); }
    First(Makers(m, id))
  }

  /** Both sides of a match are there, and their fees are in order. */
  predicate Matchable(m: Market, t: Id, k: Id) {
    && t in m.orders && k in m.orders && t != k
    && Positive(m.orders[k].price)
    && m.orders[t].sell == m.orders[k].receive && m.orders[t].receive == m.orders[k].sell
    && Fees(m, m.orders[t].sell) && Fees(m, m.orders[t].receive)
  }

  lemma CrossingMatchable(m: Market, t: Id, k: Id)
    requires WellFormed(m) && t in m.orders && k in m.orders && t != k && Crosses(m.orders[t], m.orders[k])
    ensures Matchable(m, t, k)
  {
    assert OrderOk(m, m.orders[t]) && OrderOk(m, m.orders[k]);
    assert AssetOk(m, m.orders[t].sell) && AssetOk(m, m.orders[t].receive);
  }

  /** The taker's side of a match. */
  function TakerSide(m: Market, t: Id, k: Id): Market
    requires Matchable(m, t, k)
  {
    TradeFits(m.orders[t], m.orders[k]);
    FillLimit(m, t, Trade(m.orders[t], m.orders[k]).0, Trade(m.orders[t], m.orders[k]).1, false).0
  }

  lemma TakerSideFrame(m: Market, t: Id, k: Id)
    requires Matchable(m, t, k)
    ensures var m1 := TakerSide(m, t, k);
      && SameTerms(m, m1) && OtherOrders(m, m1, t) && m1.calls == m.calls && m1.settles == m.settles
      && (t in m1.orders ==> SameTermsOf(m.orders[t], m1.orders[t]))
  {
    TradeFits(m.orders[t], m.orders[k]);
    FillLimitFrame(m, t, Trade(m.orders[t], m.orders[k]).0, Trade(m.orders[t], m.orders[k]).1, false);
    FillLimitOrder(m, t, Trade(m.orders[t], m.orders[k]).0, Trade(m.orders[t], m.orders[k]).1, false);
  }

  /** The maker's side, on top of the taker's. */
  lemma MakerSideFrame(m: Market, t: Id, k: Id)
    requires Matchable(m, t, k)
    ensures var m1, m' := TakerSide(m, t, k), Match(m, t, k).0;
      && SameTerms(m1, m') && OtherOrders(m1, m', k) && m'.calls == m1.calls && m'.settles == m1.settles
      && (k in m'.orders ==> SameTermsOf(m.orders[k], m'.orders[k]) && !Dust(m'.orders[k]))
  {
    TakerSideFrame(m, t, k);
    var m1 := TakerSide(m, t, k);
    var (x, y) := Trade(m.orders[t], m.orders[k]);
    TradeFits(m.orders[t], m.orders[k]);
    FillLimitFrame(m1, k, y, x, true);
    FillLimitOrder(m1, k, y, x, true);
  }

  lemma MatchFrame(m: Market, t: Id, k: Id)
    requires Matchable(m, t, k)
    ensures var m' := Match(m, t, k).0;
      SameTerms(m, m') && TermsKept(m, m') && m'.calls == m.calls && m'.settles == m.settles
      && (NoDustBut(m, t) ==> NoDustBut(m', t))
  {
    TakerSideFrame(m, t, k);
    MakerSideFrame(m, t, k);
    var m1, m' := TakerSide(m, t, k), Match(m, t, k).0;
    forall i | i in m'.orders
      ensures i in m.orders && SameTermsOf(m.orders[i], m'.orders[i])
      ensures i != t && i != k ==> m'.orders[i] == m.orders[i]
    {
      if i != k { assert i in m1.orders; }
      if i != t { assert i in m.orders; }
    }
  }

  lemma MatchKeeps(m: Market, t: Id, k: Id)
    requires WellFormed(m) && Matchable(m, t, k)
    ensures WellFormed(Match(m, t, k).0)
  {
    TakerSideFrame(m, t, k);
    var m1 := TakerSide(m, t, k);
    var (x, y) := Trade(m.orders[t], m.orders[k]);
    TradeFits(m.orders[t], m.orders[k]);
    FillLimitKeeps(m, t, x, y, false);
    FillLimitKeeps(m1, k, y, x, true);
  }

  lemma MatchBooks(m: Market, t: Id, k: Id, a: Asset)
    requires Books(m, a) && Matchable(m, t, k)
    ensures Books(Match(m, t, k).0, a)
  {
    MatchFrame(m, t, k);
    MatchHeld(m, t, k, a);
  }

  /** Supplies, debts and terms are as before, and so is what is held. */
  lemma MatchSound(m: Market, t: Id, k: Id)
    requires Sound.Sound(m) && Matchable(m, t, k)
    ensures Sound.Sound(Match(m, t, k).0)
  {
    MatchKeeps(m, t, k);
    forall a ensures Books(Match(m, t, k).0, a) { MatchBooks(m, t, k, a); }
  }

  lemma MatchedSmaller(m: Market, t: Id, k: Id)
    requires Matchable(m, t, k) && Match(m, t, k).1 == 2
    ensures |Match(m, t, k).0.orders| < |m.orders|
  {
    MatchResult(m, t, k);
    MatchFrame(m, t, k);
    MinusSize(m.orders, k);
    SubsetSize(Match(m, t, k).0.orders, m.orders - {k});
  }

  lemma {:induction false} SubsetSize<K, V>(a: map<K, V>, b: map<K, V>)
    requires a.Keys <= b.Keys
    ensures |a| <= |b|
    decreases |a|
  {
    if a != map[] {
      var k :| k in a;
      MinusSize(a, k);
      assert (b - {k}).Keys == b.Keys - {k};
      assert |b - {k}| == |b| - 1;
      assert (a - {k}).Keys == a.Keys - {k};
      assert |a - {k}| == |a| - 1;
      SubsetSize(a - {k}, b - {k});
    }
  }

  /** Matches the taker with one offer after the other, best first, while it is only they that are used up. */
  ghost function MatchLoop(m: Market, id: Id): Market
    requires WellFormed(m)
    decreases |m.orders|
  {
    if id !in m.orders || Makers(m, id) == map[] then m
    else
      var k := BestMaker(m, id);
      CrossingMatchable(m, id, k);
      MatchKeeps(m, id, k);
      var (m', r) := Match(m, id, k);
      if r != 2 then m'
      else
        MatchedSmaller(m, id, k);
        MatchLoop(m', id)
  }

  /** The books are sound, the rest as it was, and no feed has moved. */
  ghost predicate Sounder(m: Market, m': Market) {
    Sound.Sound(m') && m'.settles == m.settles && SameLedger(m, m') && SameFeeds(m, m')
  }

  lemma SounderTwice(m: Market, m1: Market, m2: Market)
    requires Sounder(m, m1) && Sounder(m1, m2)
    ensures Sounder(m, m2)
  {}

  /** Orders keep their terms, and the resting ones leave no dust. */
  ghost predicate Matched(m: Market, m': Market, id: Id) {
    Sounder(m, m') && TermsKept(m, m') && (NoDustBut(m, id) ==> NoDustBut(m', id))
  }

  lemma MatchedOnce(m: Market, t: Id, k: Id)
    requires Sound.Sound(m) && Matchable(m, t, k)
    ensures Matched(m, Match(m, t, k).0, t)
  {
    MatchSound(m, t, k);
    MatchFrame(m, t, k);
    FromFrame(m, Match(m, t, k).0, t);
  }

  lemma FromFrame(m: Market, m': Market, t: Id)
    requires Sound.Sound(m') && SameTerms(m, m') && TermsKept(m, m') && m'.settles == m.settles
    requires NoDustBut(m, t) ==> NoDustBut(m', t)
    ensures Matched(m, m', t)
  {}

  lemma MatchedTwice(m: Market, m1: Market, m2: Market, id: Id)
    requires Matched(m, m1, id) && Matched(m1, m2, id)
    ensures Matched(m, m2, id)
  {
    SounderTwice(m, m1, m2);
    TermsTwice(m, m1, m2);
  }

  /** The loop ends, and if the taker is still there nothing on the other side overlaps with it. */
  lemma {:induction false} MatchLoopSound(m: Market, id: Id)
    requires Sound.Sound(m)
    ensures var m' := MatchLoop(m, id);
      Matched(m, m', id) && (id in m'.orders ==> Makers(m', id) == map[])
    decreases |m.orders|
  {
    if id in m.orders && Makers(m, id) != map[] {
      var k := BestMaker(m, id);
      CrossingMatchable(m, id, k);
      MatchedOnce(m, id, k);
      MatchResult(m, id, k);
      var (m', r) := Match(m, id, k);
      if r == 2 {
        MatchedSmaller(m, id, k);
        MatchLoopSound(m', id);
        MatchedTwice(m, m', MatchLoop(m', id), id);
      }
    }
  }

  // ----- a new order ------------------------------------------------------------------------------

  /** Margin calls on both assets of the order, one after the other. */
  ghost function CheckBoth(m: Market, sell: Asset, receive: Asset): Option<(Market, bool)>
    requires Sound.Sound(m)
  {
    CheckCallOrdersSound(m, sell, true);
    match CheckCallOrders(m, sell, true)
    case None => None
    case Some((m1, c1)) =>
      match CheckCallOrders(m1, receive, true)
      case None => None
      case Some((m2, c2)) => Some((m2, c1 || c2))
  }

  /** The new state, and whether the order is gone. */
  ghost function ApplyOrder(m: Market, id: Id): Option<(Market, bool)>
    requires Sound.Sound(m) && id in m.orders
  {
    var sell, receive := m.orders[id].sell, m.orders[id].receive;
    CheckBothSound(m, sell, receive);
    match CheckBoth(m, sell, receive)
    case None => None
    case Some((m1, called)) =>
      if called && id !in m1.orders then Some((m1, true)) else ApplyRest(m1, id, sell, receive)
  }

  /** Matching, the margin calls it may cause, and the last look at what is left of the order. */
  ghost function ApplyRest(m: Market, id: Id, sell: Asset, receive: Asset): Option<(Market, bool)>
    requires Sound.Sound(m)
  {
    MatchLoopSound(m, id);
    match CheckBoth(MatchLoop(m, id), sell, receive)
    case None => None
    case Some((m', _)) => if id !in m'.orders then Some((m', true)) else Some(MaybeCull(m', id))
  }

  lemma CheckBothSound(m: Market, sell: Asset, receive: Asset)
    requires Sound.Sound(m)
    ensures var r := CheckBoth(m, sell, receive);
      (r.None? ==> AskewIn(m, sell, receive)) && (r.Some? ==> GoodRun(m, sell, r, true))
  {
    CheckCallOrdersSound(m, sell, true);
    var r1 := CheckCallOrders(m, sell, true);
    if r1.Some? {
      CheckCallOrdersSound(r1.value.0, receive, true);
      var r2 := CheckCallOrders(r1.value.0, receive, true);
      if r2.Some? { ShrunkTwice(m, r1.value.0, r2.value.0); } else { AskewBefore(m, r1.value.0, receive); }
    }
  }

  /** The only thing that makes margin calls throw where swans are allowed. */
  predicate AskewIn(m: Market, sell: Asset, receive: Asset) {
    Askew(m, sell) || Askew(m, receive)
  }

  /** Margin calls and matches set no feed askew. */
  lemma AskewBefore(m: Market, m': Market, a: Asset)
    requires SameFeeds(m, m') && Askew(m', a)
    ensures Askew(m, a)
  {
    assert SameFeed(m.assets[a].bit, m'.assets[a].bit);
  }

  lemma CancelLimitKeeps(m: Market, id: Id)
    requires WellFormed(m) && id in m.orders
    ensures var m' := CancelLimit(m, id);
      WellFormed(m') && SameLedger(m, m') && m'.assets == m.assets && m'.calls == m.calls && m'.settles == m.settles && m'.orders == m.orders - {id}
  {
    CancelFrame(m, id);
    ConfigKeeps(m, CancelLimit(m, id));
  }

  lemma CancelLimitSound(m: Market, id: Id)
    requires Sound.Sound(m) && id in m.orders
    ensures Sound.Sound(CancelLimit(m, id))
  {
    CancelLimitKeeps(m, id);
    var m' := CancelLimit(m, id);
    forall a ensures Books(m', a) {
      assert Books(m, a);
      CancelLimitHeld(m, id, a);
    }
  }

  lemma WholeAgain(m: Market, id: Id)
    requires WellFormed(m) && UncrossedBut(m, id) && (id in m.orders ==> Makers(m, id) == map[])
    ensures Uncrossed(m)
  {
    forall i, j | i in m.orders && j in m.orders ensures !Crosses(m.orders[i], m.orders[j]) {
      assert OrderOk(m, m.orders[i]);
      if i == id {
        assert j !in Makers(m, id);
      } else if j == id {
        assert i !in Makers(m, id);
        CrossesBothWays(m.orders[i], m.orders[j]);
      }
    }
  }

  lemma CrossesBothWays(o: LimitOrder, p: LimitOrder)
    ensures Crosses(o, p) <==> Crosses(p, o)
  {}

  /** Matching and the margin calls after it, before the last cull. */
  lemma ApplyMatched(m: Market, id: Id, sell: Asset, receive: Asset)
    requires Sound.Sound(m) && UncrossedBut(m, id) && NoDustBut(m, id)
    ensures Sound.Sound(MatchLoop(m, id))
    ensures var r := CheckBoth(MatchLoop(m, id), sell, receive);
      (r.None? ==> AskewIn(m, sell, receive))
      && (r.Some? ==> Sounder(m, r.value.0) && Uncrossed(r.value.0) && NoDustBut(r.value.0, id))
  {
    MatchLoopSound(m, id);
    var m1 := MatchLoop(m, id);
    StaysUncrossed(m, m1, id);
    WholeAgain(m1, id);
    CheckBothSound(m1, sell, receive);
    var r := CheckBoth(m1, sell, receive);
    if r.Some? {
      ShrunkKeeps(m1, r.value.0, id);
      StaysUncrossed(m1, r.value.0, id);
      SounderTwice(m, m1, r.value.0);
    } else if Askew(m1, sell) {
      AskewBefore(m, m1, sell);
    } else {
      AskewBefore(m, m1, receive);
    }
  }

  lemma CullEnds(m: Market, id: Id)
    requires Sound.Sound(m) && Uncrossed(m) && NoDustBut(m, id) && id in m.orders
    ensures var (m', gone) := MaybeCull(m, id);
      Sounder(m, m') && Uncrossed(m') && NoDust(m') && (gone <==> id !in m'.orders)
  {
    CancelLimitKeeps(m, id);
    assert TermsKept(m, CancelLimit(m, id));
    StaysUncrossed(m, CancelLimit(m, id), id);
    CancelLimitSound(m, id);
  }

  /** Sound books in which no offers overlap and every offer asks for something; the order is reported as
      gone exactly when it is. It throws only when a feed of one of the assets is askew. */
  ghost predicate WellApplied(m: Market, r: Option<(Market, bool)>, id: Id, sell: Asset, receive: Asset) {
    match r
    case None => AskewIn(m, sell, receive)
    case Some((m', gone)) => Sounder(m, m') && Uncrossed(m') && NoDust(m') && (gone <==> id !in m'.orders)
  }

  lemma AppliedLater(m: Market, m1: Market, r: Option<(Market, bool)>, id: Id, sell: Asset, receive: Asset)
    requires Sounder(m, m1) && WellApplied(m1, r, id, sell, receive)
    ensures WellApplied(m, r, id, sell, receive)
  {
    if r.Some? {
      SounderTwice(m, m1, r.value.0);
    } else if Askew(m1, sell) {
      AskewBefore(m, m1, sell);
    } else {
      AskewBefore(m, m1, receive);
    }
  }

  lemma ApplyRestSound(m: Market, id: Id, sell: Asset, receive: Asset)
    requires Sound.Sound(m) && UncrossedBut(m, id) && NoDustBut(m, id)
    ensures WellApplied(m, ApplyRest(m, id, sell, receive), id, sell, receive)
  {
    ApplyMatched(m, id, sell, receive);
    var r := CheckBoth(MatchLoop(m, id), sell, receive);
    if r.Some? && id in r.value.0.orders {
      CullEnds(r.value.0, id);
      SounderTwice(m, r.value.0, MaybeCull(r.value.0, id).0);
    }
  }

  /** A new order, whatever is on the book and whoever is margin called on the way, is well applied. */
  lemma ApplyOrderSound(m: Market, id: Id)
    requires Sound.Sound(m) && id in m.orders && UncrossedBut(m, id) && NoDustBut(m, id)
    ensures WellApplied(m, ApplyOrder(m, id), id, m.orders[id].sell, m.orders[id].receive)
  {
    var sell, receive := m.orders[id].sell, m.orders[id].receive;
    CheckBothSound(m, sell, receive);
    var r := CheckBoth(m, sell, receive);
    if r.Some? {
      var (m1, called) := r.value;
      ShrunkKeeps(m, m1, id);
      StaysUncrossed(m, m1, id);
      if called && id !in m1.orders {
        GoneIsWhole(m1, id);
      } else {
        ApplyRestSound(m1, id, sell, receive);
        AppliedLater(m, m1, ApplyRest(m1, id, sell, receive), id, sell, receive);
      }
    }
  }

  lemma GoneIsWhole(m: Market, id: Id)
    requires UncrossedBut(m, id) && NoDustBut(m, id) && id !in m.orders
    ensures Uncrossed(m) && NoDust(m)
  {}
}
