/** Prices as pairs of amounts, with the floor arithmetic that goes with them. */
module Prices {
  import opened Arithmetic
  import opened Constants

  /** So much of the base asset for so much of the quote asset. */
  datatype Price = Price(base: nat, quote: nat)

  predicate Positive(p: Price) {
    p.base > 0 && p.quote > 0
  }

  /** p < q, by cross-multiplication. */
  predicate Less(p: Price, q: Price) {
    p.base * q.quote < q.base * p.quote
  }

  function Invert(p: Price): Price {
    Price(p.quote, p.base)
  }

  /** An amount of the base asset, in the quote asset. */
  function ToQuote(x: nat, p: Price): nat
    requires p.base > 0
  {
    x * p.quote / p.base
  }

  /** An amount of the quote asset, in the base asset. */
  function ToBase(x: nat, p: Price): nat
    requires p.quote > 0
  {
    x * p.base / p.quote
  }

  function Percent(x: nat, percent: nat): nat {
    x * percent / HUNDRED_PERCENT
  }

  // ----- floors ---------------------------------------------------------------------

  lemma ToQuoteMonotone(x: nat, y: nat, p: Price)
    requires p.base > 0 && x <= y
    ensures ToQuote(x, p) <= ToQuote(y, p)
  {
    MulLess(x, y, p.quote);
    FloorMonotone(x * p.quote, y * p.quote, p.base);
  }

  /** What rounds down on the way there does not come back larger. */
  lemma ThereAndBack(x: nat, y: nat, p: Price)
    requires Positive(p) && x <= ToQuote(y, p)
    ensures ToBase(x, p) <= y
  {
    FloorIff(y * p.quote, p.base, x);
    FloorIff(x * p.base, p.quote, y + 1);
    assert (y + 1) * p.quote == y * p.quote + p.quote;
  }

  lemma PercentAtMost(x: nat, percent: nat)
    requires percent <= HUNDRED_PERCENT
    ensures Percent(x, percent) <= x
  {
    MulLess(percent, HUNDRED_PERCENT, x);
    FloorMonotone(x * percent, x * HUNDRED_PERCENT, HUNDRED_PERCENT);
  }
}
