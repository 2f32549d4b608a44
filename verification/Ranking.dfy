/** The order of the books: best price first, and among equal prices the oldest id. */
module Ranking {
  import opened Arithmetic
  import opened Prices

  type Id = nat

  predicate AtLeast(p: Price, q: Price) {
    !Less(p, q)
  }

  predicate Rankable(prices: map<Id, Price>) {
    forall i :: i in prices ==> prices[i].base > 0
  }

  predicate Ahead(prices: map<Id, Price>, i: Id, j: Id)
    requires i in prices && j in prices
  {
    AtLeast(prices[i], prices[j]) && (AtLeast(prices[j], prices[i]) ==> i <= j)
  }

  predicate IsFirst(prices: map<Id, Price>, i: Id) {
    i in prices && forall j :: j in prices ==> Ahead(prices, i, j)
  }

  lemma AtLeastTransitive(p: Price, q: Price, r: Price)
    requires p.base > 0 && q.base > 0 && AtLeast(p, q) && AtLeast(q, r)
    ensures AtLeast(p, r)
  {
    if q.quote == 0 {
      assert q.base * p.quote == 0 ==> p.quote == 0;
    } else {
      MulLess(q.base * p.quote, p.base * q.quote, r.quote);
      MulLess(r.base * q.quote, q.base * r.quote, p.quote);
      var l, g := r.base * p.quote, p.base * r.quote;
      assert l * q.quote == r.base * q.quote * p.quote;
      assert g * q.quote == p.base * q.quote * r.quote;
      assert q.base * p.quote * r.quote == q.base * r.quote * p.quote;
      if g < l { MulLess(g + 1, l, q.quote); }
    }
  }

  lemma AheadTransitive(prices: map<Id, Price>, i: Id, j: Id, k: Id)
    requires Rankable(prices) && i in prices && j in prices && k in prices
    requires Ahead(prices, i, j) && Ahead(prices, j, k)
    ensures Ahead(prices, i, k)
  {
    AtLeastTransitive(prices[i], prices[j], prices[k]);
    if AtLeast(prices[k], prices[i]) {
      AtLeastTransitive(prices[j], prices[k], prices[i]);
      AtLeastTransitive(prices[k], prices[i], prices[j]);
    }
  }

  /** Every book that is not empty has a front. */
  lemma {:induction false} FirstExists(prices: map<Id, Price>) returns (i: Id)
    requires Rankable(prices) && prices != map[]
    ensures IsFirst(prices, i)
    decreases prices.Keys
  {
    i :| i in prices;
    var rest := prices - {i};
    if rest == map[] {
      forall j | j in prices ensures j == i {
        assert j != i ==> j in rest;
      }
    } else {
      var k := FirstExists(rest);
      if Ahead(prices, i, k) {
        forall j | j in prices ensures Ahead(prices, i, j) {
          if j != i {
            assert Ahead(rest, k, j);
            AheadTransitive(prices, i, k, j);
          }
        }
      } else {
        forall j | j in prices ensures Ahead(prices, k, j) {
          if j != i { assert Ahead(rest, k, j); }
        }
        i := k;
      }
    }
  }

  lemma FirstUnique(prices: map<Id, Price>, i: Id, j: Id)
    requires IsFirst(prices, i) && IsFirst(prices, j)
    ensures i == j
  {
    assert Ahead(prices, i, j) && Ahead(prices, j, i);
  }

  lemma HasFirst(prices: map<Id, Price>)
    requires Rankable(prices) && prices != map[]
    ensures exists i :: IsFirst(prices, i)
  {
    var i := FirstExists(prices);
  }

  ghost function First(prices: map<Id, Price>): (i: Id)
    requires Rankable(prices) && prices != map[]
    ensures IsFirst(prices, i)
  {
    HasFirst(prices);
    var i :| IsFirst(prices, i);
    i
  }

  // ----- least numbers ------------------------------------------------------------------------------

  predicate IsLeast(xs: set<nat>, x: nat) {
    x in xs && forall y :: y in xs ==> x <= y
  }

  lemma {:induction false} LeastExists(xs: set<nat>) returns (x: nat)
    requires xs != {}
    ensures IsLeast(xs, x)
    decreases xs
  {
    x :| x in xs;
    var rest := xs - {x};
    if rest == {} {
      assert xs == {x};
    } else {
      var y := LeastExists(rest);
      if y < x { x := y; }
      forall z | z in xs ensures x <= z { if z in rest {} }
    }
  }

  lemma HasLeast(xs: set<nat>)
    requires xs != {}
    ensures exists x :: IsLeast(xs, x)
  {
    var x := LeastExists(xs);
  }

  ghost function Least(xs: set<nat>): (x: nat)
    requires xs != {}
    ensures IsLeast(xs, x)
  {
    HasLeast(xs);
    var x :| IsLeast(xs, x);
    x
  }

  lemma LeastUnique(xs: set<nat>, x: nat, y: nat)
    requires IsLeast(xs, x) && IsLeast(xs, y)
    ensures x == y
  {}
}
