/** Who gets what when an asset is settled globally. */
module GlobalSettlement {
  import opened Wrappers
  import opened Arithmetic
  import opened Prices
  import opened Sums
  import opened MarketState
  import opened MarketFill
  import opened Sound
  import opened MarginCalls
  import opened Effects

  /** A position pays what its debt is worth, rounded down, unless that is more than all its collateral. */
  predicate FairPay(c: CallOrder, price: Price, pay: nat) {
    if c.debt * price.quote < (c.collateral + 1) * price.base then IsFloor(pay, c.debt * price.quote, price.base)
    else pay == c.collateral
  }

  lemma SeizedIsFair(c: CallOrder, price: Price)
    requires price.base > 0
    ensures FairPay(c, price, Seized(c, price))
  {
    FloorIs(c.debt * price.quote, price.base);
    FloorIff(c.debt * price.quote, price.base, c.collateral + 1);
  }

  ghost predicate Fair(m: Market, a: Asset, price: Price, pays: map<Id, nat>) {
    && (forall i :: i in pays <==> i in m.calls && m.calls[i].owed == a)
    && (forall i :: i in pays ==> FairPay(m.calls[i], price, pays[i]) && pays[i] <= m.calls[i].collateral)
  }

  function Amount(): (Id, nat) -> int {
    (i: Id, x: nat) => x
  }

  /** What is left of the collateral of an account's positions. */
  function RestFor(pays: map<Id, nat>, who: Account): (Id, CallOrder) -> int {
    (i: Id, c: CallOrder) => if i in pays && c.borrower == who then c.collateral - pays[i] else 0
  }

  ghost function Rest(m: Market, pays: map<Id, nat>, who: Account): int {
    SumBy(m.calls, RestFor(pays, who))
  }

  /** Every borrower gets exactly the rest of the collateral back, and nobody anything else. */
  ghost predicate BorrowersGain(m: Market, m': Market, backing: Asset, pays: map<Id, nat>) {
    forall v: Account, x: Asset :: Gain(m, m', v, x) == If(x == backing, Rest(m, pays, v))
  }

  /** All positions in an asset closed, and this much gathered. */
  ghost predicate AllClosed(m: Market, m': Market, a: Asset, price: Price, gathered: nat, pays: map<Id, nat>)
    requires Bit(m, a).Some?
  {
    && Fair(m, a, price, pays) && gathered == SumBy(pays, Amount())
    && BorrowersGain(m, m', Bit(m, a).value.backing, pays)
    && m'.calls == m.calls - pays.Keys
    && m'.orders == m.orders && m'.settles == m.settles && m'.pending == m.pending
  }

  lemma RestOfFirst(m: Market, i: Id, pays: map<Id, nat>, pay: nat, who: Account)
    requires i in m.calls && i !in pays && pay <= m.calls[i].collateral
    ensures Rest(m, pays[i := pay], who)
      == SumBy(m.calls - {i}, RestFor(pays, who)) + If(m.calls[i].borrower == who, m.calls[i].collateral - pay)
  {
    SumTake(m.calls, RestFor(pays[i := pay], who), i);
    SumSame(m.calls - {i}, RestFor(pays[i := pay], who), RestFor(pays, who));
  }

  /** The first position is closed, and then the others. */
  lemma ClosedFirst(m: Market, m1: Market, m': Market, a: Asset, price: Price, i: Id, pay: nat, rest: nat, pays: map<Id, nat>)
    requires Bit(m, a).Some? && i in m.calls && m.calls[i].owed == a && a in m.assets && m.calls[i].backing == Bit(m, a).value.backing
    requires pay <= m.calls[i].collateral && FairPay(m.calls[i], price, pay)
    requires CallFilled(m, m1, i, pay, m.calls[i].debt)
    requires Bit(m1, a) == Bit(m, a) && AllClosed(m1, m', a, price, rest, pays)
    ensures AllClosed(m, m', a, price, pay + rest, pays[i := pay])
  {
    var c := m.calls[i];
    SumPut(pays, Amount(), i, pay);
    FirstGains(m, m1, m', c, i, pay, pays);
    assert m1.calls - pays.Keys == m.calls - pays[i := pay].Keys;
  }

  lemma FirstGains(m: Market, m1: Market, m': Market, c: CallOrder, i: Id, pay: nat, pays: map<Id, nat>)
    requires i in m.calls && m.calls[i] == c && i !in pays && pay <= c.collateral && m1.calls == m.calls - {i}
    requires OneGains(m, m1, c.borrower, c.backing, c.collateral - pay) && BorrowersGain(m1, m', c.backing, pays)
    ensures BorrowersGain(m, m', c.backing, pays[i := pay])
  {
    forall v: Account, x: Asset ensures Gain(m, m', v, x) == If(x == c.backing, Rest(m, pays[i := pay], v)) {
      RestOfFirst(m, i, pays, pay, v);
      assert Gain(m, m', v, x) == Gain(m, m1, v, x) + Gain(m1, m', v, x);
    }
  }

  lemma NoneClosed(m: Market, a: Asset, price: Price)
    requires Bit(m, a).Some? && Positions(m, a) == map[]
    ensures AllClosed(m, m, a, price, 0, map[])
  {
    forall i | i in m.calls ensures m.calls[i].owed != a { assert i !in Positions(m, a); }
    forall v: Account, x: Asset ensures Gain(m, m, v, x) == If(x == Bit(m, a).value.backing, Rest(m, map[], v)) {
      SumZero(m.calls, RestFor(map[], v));
    }
  }

  /** One position closed, and the rest to go. */
  lemma CloseOnce(m: Market, a: Asset, price: Price) returns (m1: Market, i: Id, pay: nat)
    requires WellFormed(m) && price.base > 0 && Bit(m, a).Some? && Positions(m, a) != map[]
    ensures i in m.calls && m.calls[i].owed == a && a in m.assets && m.calls[i].backing == Bit(m, a).value.backing
    ensures pay <= m.calls[i].collateral && FairPay(m.calls[i], price, pay)
    ensures CallFilled(m, m1, i, pay, m.calls[i].debt) && Bit(m1, a) == Bit(m, a)
    ensures WellFormed(m1) && |m1.calls| < |m.calls|
    ensures CloseAll(m, a, price) == (CloseAll(m1, a, price).0, pay + CloseAll(m1, a, price).1)
  {
    i := CalledFirst(m, a);
    var c := m.calls[i];
    pay := Seized(c, price);
    assert CallOk(m, c);
    FillCallKeeps(m, i, pay, c.debt);
    FillCallEffect(m, i, pay, c.debt);
    FillCallFrame(m, i, pay, c.debt);
    SeizedIsFair(c, price);
    MinusSize(m.calls, i);
    m1 := FillCall(m, i, pay, c.debt).0;
  }

  lemma {:induction false} CloseAllPays(m: Market, a: Asset, price: Price) returns (pays: map<Id, nat>)
    requires WellFormed(m) && price.base > 0 && Bit(m, a).Some?
    ensures AllClosed(m, CloseAll(m, a, price).0, a, price, CloseAll(m, a, price).1, pays)
    decreases |m.calls|
  {
    if Positions(m, a) == map[] {
      pays := map[];
      NoneClosed(m, a, price);
    } else {
      var m1, i, pay := CloseOnce(m, a, price);
      pays := CloseAllPays(m1, a, price);
      ClosedFirst(m, m1, CloseAll(m1, a, price).0, a, price, i, pay, CloseAll(m1, a, price).1, pays);
      pays := pays[i := pay];
    }
  }

  /** After global settlement the fund holds what the positions pay: each what its debt is worth, or all it has.
      The borrowers have the rest, the supply is as before, and the asset is settled at fund for supply. */
  ghost predicate SettledAt(m: Market, m': Market, a: Asset, price: Price, pays: map<Id, nat>)
    requires Bit(m, a).Some?
  {
    var b, fund := Bit(m, a).value, SumBy(pays, Amount());
    && Fair(m, a, price, pays) && fund >= 0 && m.assets[a].supply >= 0
    && BorrowersGain(m, m', b.backing, pays)
    && m'.calls == m.calls - pays.Keys && Supply(m', a) == Supply(m, a)
    && Bit(m', a) == Some(b.(settlement := Some(Price(m.assets[a].supply, fund)), fund := fund))
    && m'.orders == m.orders && m'.settles == m.settles && m'.pending == m.pending
  }

  lemma GlobalSettlePays(m: Market, a: Asset, price: Price) returns (pays: map<Id, nat>)
    requires WellFormed(m) && price.base > 0 && Unsettled(m, a) && m.assets[a].supply > 0
    ensures SettledAt(m, GlobalSettle(m, a, price), a, price, pays)
  {
    pays := CloseAllPays(m, a, price);
    GlobalSettleTerms(m, a, price);
    CloseAllKeeps(m, a, price);
    FundIsGathered(m, CloseAll(m, a, price).0, GlobalSettle(m, a, price), a, price, CloseAll(m, a, price).1, pays);
  }

  lemma FundIsGathered(m: Market, m1: Market, m': Market, a: Asset, price: Price, gathered: nat, pays: map<Id, nat>)
    requires Bit(m, a).Some? && a in m'.assets && m.assets[a].supply > 0 && AllClosed(m, m1, a, price, gathered, pays)
    requires m'.balances == m1.balances && m'.calls == m1.calls && m'.pending == m1.pending
    requires m'.orders == m.orders && m'.settles == m.settles && Supply(m', a) == Supply(m, a)
    requires Bit(m', a) == Some(Bit(m, a).value.(settlement := Some(Price(m.assets[a].supply, gathered)), fund := gathered))
    ensures SettledAt(m, m', a, price, pays)
  {
    forall v: Account, x: Asset ensures Gain(m, m', v, x) == If(x == Bit(m, a).value.backing, Rest(m, pays, v)) {
      assert Gain(m, m1, v, x) == If(x == Bit(m, a).value.backing, Rest(m, pays, v));
    }
  }
}
