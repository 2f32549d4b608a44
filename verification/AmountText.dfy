/** Amounts of an asset as decimal text, and back. */
module AmountText {
  import opened Wrappers
  import opened Constants

  const INT64_MAX: nat := 0x7fff_ffff_ffff_ffff

  function Power10(p: nat): (n: nat)
    ensures n > 0
  {
    if p == 0 then 1 else 10 * Power10(p - 1)
  }

  // ----- numbers -----------------------------------------------------------------------------------

  predicate IsDigit(c: char) {
    '0' <= c <= '9'
  }

  function Digit(d: nat): (c: char)
    requires d < 10
    ensures IsDigit(c) && Value(c) == d
  {
    '0' + d as char
  }

  function Value(c: char): (d: nat)
    requires IsDigit(c)
    ensures d < 10
  {
    (c - '0') as nat
  }

  predicate Digits(s: string) {
    forall i :: 0 <= i < |s| ==> IsDigit(s[i])
  }

  function NumberText(n: nat): (s: string)
    ensures s != [] && Digits(s)
  {
    if n < 10 then [Digit(n)] else NumberText(n / 10) + [Digit(n % 10)]
  }

  function Number(s: string): nat
    requires Digits(s)
  {
    if s == [] then 0 else Number(s[..|s| - 1]) * 10 + Value(s[|s| - 1])
  }

  lemma {:induction false} NumberBack(n: nat)
    ensures Number(NumberText(n)) == n
    decreases n
  {
    if n >= 10 {
      NumberBack(n / 10);
      assert NumberText(n)[..|NumberText(n)| - 1] == NumberText(n / 10);
    }
  }

  /** A one followed by p digits: what is left without the one are the p digits of the rest. */
  lemma {:induction false} PaddedDigits(p: nat, d: nat)
    requires d < Power10(p)
    ensures var s := NumberText(Power10(p) + d);
      |s| == p + 1 && Number(s[1..]) == d
    decreases p
  {
    if p > 0 {
      var n := Power10(p) + d;
      assert n / 10 == Power10(p - 1) + d / 10 && n % 10 == d % 10;
      PaddedDigits(p - 1, d / 10);
      var s, t := NumberText(n), NumberText(n / 10);
      assert s == t + [Digit(n % 10)];
      assert s[1..][..|s[1..]| - 1] == t[1..];
    }
  }

  /** The library's conversion, which throws on what is not a 64-bit number. */
  function Parse(s: string): Option<nat>
    requires Digits(s)
  {
    if s == [] || Number(s) > INT64_MAX then None else Some(Number(s))
  }

  // ----- amounts ----------------------------------------------------------------------------------

  /** The text in its two parts: the decimals are what follows the one in the scale plus the rest. */
  function Written(whole: nat, rest: nat, scale: nat): string {
    NumberText(whole) + (if rest == 0 then [] else "." + NumberText(scale + rest)[1..])
  }

  function Quotient(a: nat, b: nat): (q: nat)
    requires b > 0
  {
    a / b
  }

  function Remainder(a: nat, b: nat): (r: nat)
    requires b > 0
    ensures r < b
  {
    a % b
  }

  function ToText(amount: nat, precision: nat): string {
    var scale := Power10(precision);
    Written(Quotient(amount, scale), Remainder(amount, scale), scale)
  }

  /** Where the decimal point is; the length if there is none. */
  function Point(s: string): (i: nat)
    ensures i <= |s| && '.' !in s[..i] && (i < |s| ==> s[i] == '.')
  {
    if s == [] || s[0] == '.' then 0
    else
      var i := Point(s[1..]);
      assert s[..i + 1] == [s[0]] + s[1..][..i];
      i + 1
  }

  predicate Plain(s: string) {
    Digits(s[..Point(s)]) && (Point(s) < |s| ==> Digits(s[Point(s) + 1..]))
  }

  function Padded(s: string, width: nat): (t: string)
    requires Digits(s) && |s| <= width
    ensures Digits(t) && |t| == width
    decreases width - |s|
  {
    if |s| == width then s else Padded(s + "0", width)
  }

  /** The whole part scaled up, and the decimals padded to the precision; None where the original throws. */
  function FromParts(whole: string, decimals: string, precision: nat, scale: nat): Option<nat>
    requires Digits(whole) && Digits(decimals)
  {
    var high := if whole == [] then Some(0) else Parse(whole);
    if high.None? || high.value * scale > INT64_MAX || |decimals| > precision then None
    else if precision == 0 then Limited(high.value * scale)
    else
      var low := Parse(Padded(decimals, precision));
      if low.None? then None else Limited(high.value * scale + low.value)
  }

  /** A sign is not part of this model. */
  function FromText(s: string, precision: nat): Option<nat> {
    if !Plain(s) then None
    else FromParts(s[..Point(s)], if Point(s) == |s| then [] else s[Point(s) + 1..], precision, Power10(precision))
  }

  function Limited(x: nat): Option<nat> {
    if x <= MAX_SHARES then Some(x) else None
  }

  lemma {:induction false} PointOf(s: string, t: string)
    requires Digits(s)
    ensures Point(s) == |s| && Point(s + "." + t) == |s|
    decreases |s|
  {
    if s != [] {
      PointOf(s[1..], t);
      assert (s + "." + t)[1..] == s[1..] + "." + t;
    }
  }

  /** Precisions are below nineteen, so that the scale is a 64-bit number. */
  lemma {:induction false} ScaleFits(p: nat)
    requires p < 19
    ensures Power10(p) <= 1_000_000_000_000_000_000
    decreases p
  {
    PowerGrows(p, 18);
    FourMore(0);
    FourMore(4);
    FourMore(8);
    FourMore(12);
    assert Power10(18) == 10 * Power10(17) && Power10(17) == 10 * Power10(16);
  }

  lemma FourMore(p: nat)
    ensures Power10(p + 4) == 10000 * Power10(p)
  {
    assert Power10(p + 4) == 10 * Power10(p + 3) && Power10(p + 3) == 10 * Power10(p + 2);
    assert Power10(p + 2) == 10 * Power10(p + 1) && Power10(p + 1) == 10 * Power10(p);
  }

  lemma {:induction false} PowerGrows(p: nat, q: nat)
    requires p <= q
    ensures Power10(p) <= Power10(q)
    decreases q
  {
    if p < q { PowerGrows(p, q - 1); }
  }

  lemma {:induction false} PaddedZeros(s: string, width: nat)
    requires Digits(s) && |s| <= width && Number(s) == 0
    ensures Number(Padded(s, width)) == 0
    decreases width - |s|
  {
    if |s| < width {
      assert (s + "0")[..|s + "0"| - 1] == s;
      PaddedZeros(s + "0", width);
    }
  }

  lemma ParseBack(n: nat)
    requires n <= INT64_MAX
    ensures Parse(NumberText(n)) == Some(n)
  {
    NumberBack(n);
  }

  lemma ParsePadded(decimals: string, precision: nat)
    requires Digits(decimals) && 0 < precision && Number(decimals) <= INT64_MAX
    requires |decimals| == precision || decimals == []
    ensures Parse(Padded(decimals, precision)) == Some(Number(decimals))
  {
    if decimals == [] { PaddedZeros(decimals, precision); }
  }

  /** Digits of a number in its place, behind as many digits as the precision has, or none for zero. */
  lemma PartsBack(whole: nat, decimals: string, precision: nat, scale: nat)
    requires Digits(decimals) && Number(decimals) <= INT64_MAX && (|decimals| == precision || decimals == [])
    requires whole * scale <= INT64_MAX && whole <= INT64_MAX && (precision == 0 ==> Number(decimals) == 0)
    ensures FromParts(NumberText(whole), decimals, precision, scale) == Limited(whole * scale + Number(decimals))
  {
    ParseBack(whole);
    if precision > 0 { ParsePadded(decimals, precision); }
  }

  lemma PointedText(s: string, t: string, precision: nat)
    requires Digits(s) && Digits(t)
    ensures FromText(s + "." + t, precision) == FromParts(s, t, precision, Power10(precision))
    ensures FromText(s, precision) == FromParts(s, [], precision, Power10(precision))
  {
    var text := s + "." + t;
    PointOf(s, t);
    assert text[..|s|] == s && text[|s| + 1..] == t;
    assert s[..|s|] == s;
  }

  /** What is read of the text. */
  lemma WrittenParts(whole: nat, rest: nat, precision: nat) returns (decimals: string)
    requires rest < Power10(precision)
    ensures Digits(decimals) && Number(decimals) == rest && (|decimals| == precision || decimals == [])
    ensures FromText(Written(whole, rest, Power10(precision)), precision)
         == FromParts(NumberText(whole), decimals, precision, Power10(precision))
  {
    if rest == 0 {
      decimals := [];
      PointedText(NumberText(whole), [], precision);
      assert Written(whole, rest, Power10(precision)) == NumberText(whole);
    } else {
      PaddedDigits(precision, rest);
      decimals := NumberText(Power10(precision) + rest)[1..];
      PointedText(NumberText(whole), decimals, precision);
      WrittenWithPoint(whole, rest, Power10(precision), decimals);
    }
  }

  lemma WrittenWithPoint(whole: nat, rest: nat, scale: nat, decimals: string)
    requires rest > 0 && decimals == NumberText(scale + rest)[1..]
    ensures Written(whole, rest, scale) == NumberText(whole) + "." + decimals
  {}

  lemma WrittenBack(whole: nat, rest: nat, precision: nat, scale: nat)
    requires scale == Power10(precision) && rest < scale <= INT64_MAX && whole * scale <= INT64_MAX && whole <= INT64_MAX
    ensures FromText(Written(whole, rest, scale), precision) == Limited(whole * scale + rest)
  {
    var decimals := WrittenParts(whole, rest, precision);
    PartsBack(whole, decimals, precision, scale);
  }

  lemma AtLeastOnce(a: nat, k: nat)
    requires k > 0
    ensures a <= a * k
  {}

  lemma SplitIn(amount: nat, scale: nat) returns (whole: nat, rest: nat)
    requires scale > 0
    ensures whole == Quotient(amount, scale) && rest == Remainder(amount, scale)
    ensures rest < scale && amount == whole * scale + rest && whole <= whole * scale
  {
    whole, rest := amount / scale, amount % scale;
    AtLeastOnce(whole, scale);
  }

  lemma TextBack(amount: nat, precision: nat)
    requires precision < 19 && amount <= INT64_MAX
    ensures FromText(ToText(amount, precision), precision) == Limited(amount)
  {
    ScaleFits(precision);
    var whole, rest := SplitIn(amount, Power10(precision));
    WrittenBack(whole, rest, precision, Power10(precision));
  }

  /** Reading back what was written gives the amount, exactly for the amounts there can be. */
  lemma RoundTripIff(amount: nat, precision: nat)
    requires precision < 19 && amount <= INT64_MAX
    ensures FromText(ToText(amount, precision), precision) == Some(amount) <==> amount <= MAX_SHARES
  {
    TextBack(amount, precision);
  }

  // ----- every text -------------------------------------------------------------------------------

  lemma {:induction false} PaddedNumber(s: string, width: nat)
    requires Digits(s) && |s| <= width
    ensures Number(Padded(s, width)) == Number(s) * Power10(width - |s|)
    decreases width - |s|
  {
    if |s| < width {
      var t := s + "0";
      assert t[..|t| - 1] == s;
      PaddedNumber(t, width);
      TenTimes(Number(s), Power10(width - |t|), Power10(width - |s|));
    }
  }

  lemma TenTimes(x: nat, p: nat, q: nat)
    requires q == 10 * p
    ensures x * 10 * p == x * q
  {}

  lemma {:induction false} NumberBelow(s: string)
    requires Digits(s)
    ensures Number(s) < Power10(|s|)
    decreases |s|
  {
    if s != [] { NumberBelow(s[..|s| - 1]); }
  }

  /** So much is said by the digits before and after the point. */
  function Worth(whole: string, decimals: string, precision: nat): nat
    requires Digits(whole) && Digits(decimals) && |decimals| <= precision
  {
    Number(whole) * Power10(precision) + Number(decimals) * Power10(precision - |decimals|)
  }

  lemma WholeIff(whole: string, scale: nat, low: nat)
    requires Digits(whole) && scale > 0
    ensures var high := if whole == [] then Some(0) else Parse(whole);
      && (high.Some? ==> high.value == Number(whole))
      && (Number(whole) * scale + low <= MAX_SHARES ==> high.Some? && high.value * scale <= INT64_MAX)
  {
    AtLeastOnce(Number(whole), scale);
  }

  lemma DecimalsParse(decimals: string, precision: nat)
    requires Digits(decimals) && |decimals| <= precision && 0 < precision < 19
    ensures Parse(Padded(decimals, precision)) == Some(Number(decimals) * Power10(precision - |decimals|))
  {
    PaddedNumber(decimals, precision);
    NumberBelow(Padded(decimals, precision));
    ScaleFits(precision);
  }

  lemma PartsIff(whole: string, decimals: string, precision: nat, scale: nat)
    requires Digits(whole) && Digits(decimals) && precision < 19 && scale == Power10(precision)
    ensures var r := FromParts(whole, decimals, precision, scale);
      && (r.Some? <==> |decimals| <= precision && Worth(whole, decimals, precision) <= MAX_SHARES)
      && (r.Some? ==> r.value == Worth(whole, decimals, precision))
  {
    if |decimals| <= precision {
      WholeIff(whole, scale, Number(decimals) * Power10(precision - |decimals|));
      if precision > 0 { DecimalsParse(decimals, precision); } else { assert decimals == []; }
    }
  }

  /** Text is read exactly when it is digits with at most one point in or around them, has no more decimals than the
      precision, and says no more than there can be; and then as what it says. */
  lemma ReadIff(s: string, precision: nat)
    requires precision < 19
    ensures var i, r := Point(s), FromText(s, precision);
      var decimals := if i == |s| then [] else s[i + 1..];
      && (r.Some? <==> Plain(s) && |decimals| <= precision && Worth(s[..i], decimals, precision) <= MAX_SHARES)
      && (r.Some? ==> r.value == Worth(s[..i], decimals, precision))
  {
    if Plain(s) {
      PartsIff(s[..Point(s)], if Point(s) == |s| then [] else s[Point(s) + 1..], precision, Power10(precision));
    }
  }

  lemma {:induction false} FirstDigit(n: nat)
    ensures n > 0 ==> NumberText(n)[0] != '0'
    decreases n
  {
    if n >= 10 { FirstDigit(n / 10); }
  }

  /** The text of an amount is its whole units without leading zeros and, unless there are none, as many decimals as the
      precision has. */
  lemma WrittenAs(amount: nat, precision: nat) returns (whole: string, decimals: string)
    ensures Digits(whole) && Digits(decimals) && whole != [] && (whole[0] == '0' ==> Number(whole) == 0 && |whole| == 1)
    ensures Number(whole) * Power10(precision) + Number(decimals) == amount
    ensures if Number(decimals) == 0 then ToText(amount, precision) == whole
            else |decimals| == precision && ToText(amount, precision) == whole + "." + decimals
  {
    var scale := Power10(precision);
    var w, rest := SplitIn(amount, scale);
    whole := NumberText(w);
    NumberBack(w);
    FirstDigit(w);
    if rest == 0 {
      decimals := [];
    } else {
      PaddedDigits(precision, rest);
      decimals := NumberText(scale + rest)[1..];
      WrittenWithPoint(w, rest, scale, decimals);
    }
  }
}
