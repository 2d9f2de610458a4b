/** Showing an amount with two or four decimals. */
module MoneyFormat {
  import opened Basics
  import opened Decimals
  import opened Money

  datatype Currency = CNY | USD

  const DASH: string := "\U{2014}"

  function Symbol(c: Currency): char {
    if c.CNY? then '\U{00A5}' else '$'
  }

  function WithoutMinus(s: string): string {
    if Negative(s) then s[1..] else s
  }

  /** A minus or none, digits, and a point with one to nine digits or none. */
  predicate Matches(s: string) {
    var u := WithoutMinus(s);
    var whole, fraction := BeforePoint(u), AfterPoint(u);
    && AllDigits(whole) && |whole| > 0 && AllDigits(fraction) && |fraction| <= 9
    && u == whole + (if fraction == "" then "" else "." + fraction)
  }

  /** The amounts are exactly those made of these parts. */
  lemma MatchesExactly(s: string, minus: bool, whole: string, fraction: string)
    requires AllDigits(whole) && |whole| > 0 && AllDigits(fraction)
    requires s == (if minus then "-" else "") + (whole + (if fraction == "" then "" else "." + fraction))
    ensures Matches(s) <==> |fraction| <= 9
    ensures Negative(s) == minus && WithoutMinus(s) == whole + (if fraction == "" then "" else "." + fraction)
  {
    var u := whole + (if fraction == "" then "" else "." + fraction);
    if minus { assert s[1..] == u; } else { assert s == u; }
    PointSplits(whole, fraction);
    if fraction == "" { assert u == whole; } else { assert u == whole + "." + fraction; }
    assert WithoutMinus(s) == u;
  }

  /** And every amount has such parts. */
  lemma MatchesHasParts(s: string) returns (minus: bool, whole: string, fraction: string)
    requires Matches(s)
    ensures AllDigits(whole) && |whole| > 0 && AllDigits(fraction) && |fraction| <= 9
    ensures s == (if minus then "-" else "") + (whole + (if fraction == "" then "" else "." + fraction))
  {
    minus, whole, fraction := Negative(s), BeforePoint(WithoutMinus(s)), AfterPoint(WithoutMinus(s));
  }

  function Magnitude(s: string): nat
    requires Matches(s)
  {
    var whole, fraction := BeforePoint(WithoutMinus(s)), AfterPoint(WithoutMinus(s));
    Filled(fraction);
    ValueOf(whole) * NANO + ValueOf((fraction + Zeros(9))[..9])
  }

  /** Half a unit is added to the magnitude and the rest cut off. */
  function Round(n: nat, divisor: nat): nat
    requires divisor > 0
  {
    (n + divisor / 2) / divisor
  }

  function Rounded(s: string, digits: nat): nat
    requires Matches(s) && (digits == 2 || digits == 4)
  {
    PowPositive(9 - digits);
    Round(Magnitude(s), Pow10(9 - digits))
  }

  function Display(negative: bool, c: Currency, whole: string, decimal: string): string {
    (if negative then "-" else "") + ([Symbol(c)] + (whole + "." + decimal))
  }

  function FormatMoney(amount: Option<string>, currency: Option<Currency>, digits: nat): string
    requires digits == 2 || digits == 4
  {
    if amount.None? || currency.None? || !Matches(amount.value) then DASH
    else
      PowPositive(digits);
      var rounded := Rounded(amount.value, digits);
      var whole := TextOf(rounded / Pow10(digits));
      var decimal := PadStart(TextOf(rounded % Pow10(digits)), digits);
      Display(Negative(amount.value) && rounded != 0, currency.value, whole, decimal)
  }

  // -------------------------------------------------------------- reading a display

  /** A minus or none, a symbol, digits, a point and the decimals. */
  predicate IsDisplay(t: string, digits: nat) {
    var u := WithoutMinus(t);
    && |u| > 0 && (u[0] == '\U{00A5}' || u[0] == '$')
    && AllDigits(BeforePoint(u[1..])) && |BeforePoint(u[1..])| > 0
    && AllDigits(AfterPoint(u[1..])) && |AfterPoint(u[1..])| == digits
  }

  /** The number shown, in units of the last decimal. */
  function Shown(t: string, digits: nat): int
    requires IsDisplay(t, digits)
  {
    var v := WithoutMinus(t)[1..];
    Signed(Negative(t), ValueOf(BeforePoint(v)) * Pow10(digits) + ValueOf(AfterPoint(v)))
  }

  lemma DashIsNoDisplay(digits: nat)
    ensures !IsDisplay(DASH, digits)
  {
  }

  lemma DisplayParts(negative: bool, c: Currency, whole: string, decimal: string)
    ensures var t := Display(negative, c, whole, decimal);
            && Negative(t) == negative
            && WithoutMinus(t) == [Symbol(c)] + (whole + "." + decimal)
            && WithoutMinus(t)[1..] == whole + "." + decimal
  {
    var t := Display(negative, c, whole, decimal);
    var u := [Symbol(c)] + (whole + "." + decimal);
    assert u[0] == Symbol(c) && u[1..] == whole + "." + decimal;
    if negative {
      assert t[1..] == u;
    } else {
      assert t == u;
    }
  }

  lemma DisplayReads(negative: bool, c: Currency, whole: string, decimal: string)
    requires AllDigits(whole) && |whole| > 0 && AllDigits(decimal)
    ensures var t := Display(negative, c, whole, decimal);
            && IsDisplay(t, |decimal|) && Negative(t) == negative
            && WithoutMinus(t)[0] == Symbol(c) && BeforePoint(WithoutMinus(t)[1..]) == whole
            && Shown(t, |decimal|) == Signed(negative, ValueOf(whole) * Pow10(|decimal|) + ValueOf(decimal))
  {
    DisplayParts(negative, c, whole, decimal);
    PointSplits(whole, decimal);
    hide ValueOf, Pow10, BeforePoint, AfterPoint, Display, WithoutMinus, Negative;
  }

  lemma Recombined(n: nat, p: nat)
    requires p > 0
    ensures n / p * p + n % p == n
  {
  }

  /** No leading zero, but for the number nought. */
  predicate Plain(digits: string) {
    |digits| > 1 ==> digits[0] != '0'
  }

  /** Without an amount or a currency there is only a dash. */
  lemma NothingIsShown(amount: Option<string>, currency: Option<Currency>, digits: nat)
    requires (digits == 2 || digits == 4) && (amount.None? || currency.None?)
    ensures FormatMoney(amount, currency, digits) == "\U{2014}"
  {
  }

  /** A matching amount is shown with the sign of its currency, as its rounded magnitude with
      its own sign, without leading zeros; nothing else is shown; and what is shown with a
      minus is below zero. */
  lemma FormatShows(amount: string, c: Currency, digits: nat)
    requires digits == 2 || digits == 4
    ensures var t := FormatMoney(Some(amount), Some(c), digits);
            && (IsDisplay(t, digits) <==> Matches(amount))
            && (!Matches(amount) ==> t == "\U{2014}")
            && (Matches(amount) ==>
                  && WithoutMinus(t)[0] == (match c case CNY => '\U{00A5}' case USD => '$')
                  && Plain(BeforePoint(WithoutMinus(t)[1..]))
                  && Shown(t, digits) == Signed(Negative(amount), Rounded(amount, digits))
                  && (Negative(t) <==> Shown(t, digits) < 0))
  {
    hide ValueOf, Pow10, TextOf, PadStart, Rounded, IsDisplay, Shown;
    DashIsNoDisplay(digits);
    if Matches(amount) {
      PowPositive(digits);
      var rounded := Rounded(amount, digits);
      var rest := rounded % Pow10(digits);
      TextOfValue(rounded / Pow10(digits));
      TextOfValue(rest);
      TextLength(rest, digits);
      ValueOfPadded(TextOf(rest), digits);
      DisplayReads(Negative(amount) && rounded != 0, c, TextOf(rounded / Pow10(digits)), PadStart(TextOf(rest), digits));
      Recombined(rounded, Pow10(digits));
    }
  }

  // ------------------------------------------------------------------- what is proved

  lemma MatchIsAmount(s: string)
    requires Matches(s)
    ensures Amount(s) && Meaning(s) == Signed(Negative(s), Magnitude(s))
  {
    hide ValueOf, Pow10;
    var u := WithoutMinus(s);
    assert u[0] == BeforePoint(u)[0];
    assert Unsigned(s) == u;
    Filled(AfterPoint(u));
  }

  /** Every sum can be shown. */
  lemma SumsCanBeShown(amounts: seq<string>, c: Currency, digits: nat)
    requires AllAmounts(amounts) && (digits == 2 || digits == 4)
    ensures Matches(SumMoneyAmounts(amounts))
    ensures IsDisplay(FormatMoney(Some(SumMoneyAmounts(amounts)), Some(c), digits), digits)
  {
    hide ValueOf, Pow10, BeforePoint, AfterPoint, SumMoneyAmounts, FormatMoney, IsDisplay;
    SumIsExact(amounts);
    assert WithoutMinus(SumMoneyAmounts(amounts)) == Unsigned(SumMoneyAmounts(amounts));
    FormatShows(SumMoneyAmounts(amounts), c, digits);
  }

  lemma Divisor(digits: nat)
    requires digits == 2 || digits == 4
    ensures Pow10(9 - digits) == if digits == 2 then 10_000_000 else 100_000
  {
    assert Pow10(5) == 100_000;
    PowAdd(5, 2);
  }

  /** Within half a unit of a number, and equal to it if it is a whole number of units. */
  predicate Nearest(shown: int, n: int, unit: int)
    requires unit > 0
  {
    && -unit <= 2 * (shown * unit - n) <= unit
    && (n % unit == 0 ==> shown * unit == n)
    && (2 * (shown * unit - n) == unit ==> n > 0)    // halves go away from zero
    && (2 * (shown * unit - n) == -unit ==> n < 0)
  }

  lemma Negated(r: int, unit: int)
    ensures (0 - r) * unit == 0 - r * unit
  {
  }

  lemma Difference(r: int, k: int, unit: int)
    ensures (r - k) * unit == r * unit - k * unit
  {
  }

  lemma AtLeastOne(d: int, unit: nat)
    requires d >= 1
    ensures d * unit >= unit
  {
  }

  lemma SmallMultiple(d: int, unit: nat)
    requires unit > 0 && -(unit as int) < d * unit < unit
    ensures d == 0
  {
    Negated(d, unit);
    if d >= 1 { AtLeastOne(d, unit); }
    if d <= -1 { AtLeastOne(0 - d, unit); }
  }

  lemma MultipleHasNoRest(k: int, unit: nat)
    requires unit > 0
    ensures k * unit % unit == 0
  {
    var m := k * unit;
    assert m == m / unit * unit + m % unit;
    Difference(k, m / unit, unit);
    SmallMultiple(k - m / unit, unit);
  }

  lemma NegatedMultiple(n: nat, unit: nat)
    requires unit > 0
    ensures (0 - n) % unit == 0 ==> n % unit == 0
  {
    if (0 - n) % unit == 0 {
      var m := (0 - n) / unit;
      assert 0 - n == m * unit;
      Negated(m, unit);
      MultipleHasNoRest(0 - m, unit);
    }
  }

  lemma NearestHalf(n: nat, half: nat)
    requires half > 0
    ensures Nearest(Round(n, 2 * half), n, 2 * half) && Nearest(0 - Round(n, 2 * half), 0 - n, 2 * half)
  {
    var unit := 2 * half;
    var r, k := Round(n, unit), n / unit;
    Recombined(n + half, unit);
    Recombined(n, unit);
    NegatedMultiple(n, unit);
    Negated(r, unit);
    if n % unit == 0 {
      Difference(r, k, unit);
      SmallMultiple(r - k, unit);
    }
  }

  lemma RoundingError(n: nat, digits: nat)
    requires digits == 2 || digits == 4
    ensures var unit := if digits == 2 then 10_000_000 else 100_000;
            Nearest(Round(n, unit), n, unit) && Nearest(0 - Round(n, unit), 0 - n, unit)
  {
    NearestHalf(n, if digits == 2 then 5_000_000 else 50_000);
  }

  /** What is shown is off by at most half a unit of the last decimal, and not at all
      when the amount has no more decimals than are shown. */
  lemma ErrsByHalfAUnit(amount: string, c: Currency, digits: nat)
    requires Matches(amount) && (digits == 2 || digits == 4)
    ensures Amount(amount) && IsDisplay(FormatMoney(Some(amount), Some(c), digits), digits)
    ensures Nearest(Shown(FormatMoney(Some(amount), Some(c), digits), digits), Meaning(amount), if digits == 2 then 10_000_000 else 100_000)
  {
    hide FormatMoney, IsDisplay, Shown, Magnitude, Meaning, Amount, Matches, Pow10, Nearest, Round;
    MatchIsAmount(amount);
    FormatShows(amount, c, digits);
    Divisor(digits);
    RoundingError(Magnitude(amount), digits);
  }

  lemma RoundingIsMonotone(m: nat, n: nat, digits: nat)
    requires digits == 2 || digits == 4
    ensures var unit := if digits == 2 then 10_000_000 else 100_000;
            m <= n ==> Round(m, unit) <= Round(n, unit)
  {
  }

  /** A larger amount is never shown as a smaller one. */
  lemma ShowingIsMonotone(a: string, b: string, c: Currency, digits: nat)
    requires Matches(a) && Matches(b) && (digits == 2 || digits == 4)
    requires Amount(a) && Amount(b) && Meaning(a) <= Meaning(b)
    ensures IsDisplay(FormatMoney(Some(a), Some(c), digits), digits) && IsDisplay(FormatMoney(Some(b), Some(c), digits), digits)
    ensures Shown(FormatMoney(Some(a), Some(c), digits), digits) <= Shown(FormatMoney(Some(b), Some(c), digits), digits)
  {
    hide FormatMoney, IsDisplay, Shown, Magnitude, Meaning, Amount, Matches, Pow10;
    MatchIsAmount(a);
    MatchIsAmount(b);
    FormatShows(a, c, digits);
    FormatShows(b, c, digits);
    Divisor(digits);
    RoundingIsMonotone(Magnitude(a), Magnitude(b), digits);
    RoundingIsMonotone(Magnitude(b), Magnitude(a), digits);
  }
}
