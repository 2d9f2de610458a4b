/** Exact decimal amounts: adding them up and showing them. */
module Money {
  import opened Decimals

  const NANO := 1_000_000_000

  // ------------------------------------------------------------------ what an amount is

  function Unsigned(s: string): string {
    if |s| > 0 && (s[0] == '-' || s[0] == '+') then s[1..] else s
  }

  predicate Negative(s: string) {
    |s| > 0 && s[0] == '-'
  }

  /** The text before the first point, and the text after it. */
  function BeforePoint(s: string): string {
    if |s| == 0 || s[0] == '.' then "" else [s[0]] + BeforePoint(s[1..])
  }

  function AfterPoint(s: string): string {
    if |s| == 0 then "" else if s[0] == '.' then s[1..] else AfterPoint(s[1..])
  }

  /** A sign or none, digits, and a point with up to nine digits or none. */
  predicate Amount(s: string) {
    var u := Unsigned(s);
    AllDigits(BeforePoint(u)) && AllDigits(AfterPoint(u)) && |AfterPoint(u)| <= 9
  }

  function Signed(negative: bool, n: nat): int {
    if negative then 0 - n else n
  }

  /** The exact number an amount denotes, in billionths. */
  function Meaning(s: string): int
    requires Amount(s)
  {
    var whole, fraction := BeforePoint(Unsigned(s)), AfterPoint(Unsigned(s));
    Signed(Negative(s), ValueOf(whole) * NANO + ValueOf(fraction) * Pow10(9 - |fraction|))
  }

  // --------------------------------------------------------------------------- summing

  lemma Filled(fraction: string)
    requires AllDigits(fraction) && |fraction| <= 9
    ensures var filled := (fraction + Zeros(9))[..9];
            AllDigits(filled) && ValueOf(filled) == ValueOf(fraction) * Pow10(9 - |fraction|)
  {
    hide ValueOf, Pow10;
    var k := 9 - |fraction|;
    assert (fraction + Zeros(9))[..9] == fraction + Zeros(k);
    ValueOfZeros(k);
    ValueOfJoin(fraction, Zeros(k));
  }

  /** One step of the reduction: the fraction is filled up to nine digits. */
  function Nanos(s: string): int
    requires Amount(s)
  {
    var whole, fraction := BeforePoint(Unsigned(s)), AfterPoint(Unsigned(s));
    Filled(fraction);
    Signed(Negative(s), ValueOf(whole) * NANO + ValueOf((fraction + Zeros(9))[..9]))
  }

  /** The whole and the fraction of a magnitude, without needless zeros. */
  function Print(nanos: int): string {
    var magnitude := if nanos < 0 then -nanos else nanos;
    var fraction := StripZeros(PadStart(TextOf(magnitude % NANO), 9));
    (if nanos < 0 then "-" else "") + TextOf(magnitude / NANO) + (if fraction == "" then "" else "." + fraction)
  }

  predicate AllAmounts(amounts: seq<string>) {
    forall i | 0 <= i < |amounts| :: Amount(amounts[i])
  }

  function Total(amounts: seq<string>, sum: int): int
    requires AllAmounts(amounts)
  {
    if |amounts| == 0 then sum else Total(amounts[1..], sum + Nanos(amounts[0]))
  }

  function SumMoneyAmounts(amounts: seq<string>): string
    requires AllAmounts(amounts)
  {
    Print(Total(amounts, 0))
  }

  lemma NanosAreExact(s: string)
    requires Amount(s)
    ensures Nanos(s) == Meaning(s)
  {
    Filled(AfterPoint(Unsigned(s)));
  }

  // ------------------------------------------------------------------- canonical form

  /** The one spelling of each number: no plus, no negative zero, no leading zero, no
      trailing zero or empty fraction. */
  predicate Canonical(s: string) {
    && Amount(s) && !(|s| > 0 && s[0] == '+')
    && var whole, fraction := BeforePoint(Unsigned(s)), AfterPoint(Unsigned(s));
       && |whole| > 0 && (|whole| > 1 ==> whole[0] != '0')
       && (|fraction| > 0 ==> fraction[|fraction| - 1] != '0')
       && Unsigned(s) == whole + (if fraction == "" then "" else "." + fraction)
       && (Negative(s) ==> Meaning(s) != 0)
  }

  lemma {:induction false} PointSplits(whole: string, fraction: string)
    requires AllDigits(whole)
    ensures BeforePoint(whole) == whole && AfterPoint(whole) == ""
    ensures BeforePoint(whole + "." + fraction) == whole && AfterPoint(whole + "." + fraction) == fraction
  {
    if |whole| > 0 {
      PointSplits(whole[1..], fraction);
      assert whole == [whole[0]] + whole[1..];
      assert (whole + "." + fraction)[1..] == whole[1..] + "." + fraction;
    }
  }

  lemma PowNine()
    ensures Pow10(9) == NANO
  {
    assert Pow10(3) == 1000;
    PowAdd(3, 3);
    PowAdd(6, 3);
  }

  /** Stripping a padded fraction loses nothing. */
  lemma StrippedFraction(n: nat)
    requires n < NANO
    ensures var fraction := StripZeros(PadStart(TextOf(n), 9));
            && AllDigits(fraction) && |fraction| <= 9
            && ValueOf(fraction) * Pow10(9 - |fraction|) == n
            && (|fraction| > 0 ==> fraction[|fraction| - 1] != '0')
  {
    hide ValueOf, TextOf, PadStart, Pow10, StripZeros;
    PowNine();
    TextLength(n, 9);
    TextOfValue(n);
    ValueOfPadded(TextOf(n), 9);
    var padded := PadStart(TextOf(n), 9);
    StripIsPrefix(padded);
    var fraction := StripZeros(padded);
    assert forall i | 0 <= i < |fraction| :: fraction[i] == padded[i];
    ValueOfZeros(9 - |fraction|);
    ValueOfJoin(fraction, Zeros(9 - |fraction|));
  }

  function Spelling(negative: bool, whole: string, fraction: string): string {
    (if negative then "-" else "") + (whole + if fraction == "" then "" else "." + fraction)
  }

  lemma SignSplits(negative: bool, body: string)
    requires |body| > 0 && body[0] != '-' && body[0] != '+'
    ensures var s := (if negative then "-" else "") + body;
            Unsigned(s) == body && Negative(s) == negative && s[0] != '+'
  {
    var s := (if negative then "-" else "") + body;
    if negative {
      assert s[1..] == body;
    } else {
      assert s == body;
    }
  }

  lemma SpellingParts(negative: bool, whole: string, fraction: string)
    requires AllDigits(whole) && |whole| > 0
    ensures var s := Spelling(negative, whole, fraction);
            && BeforePoint(Unsigned(s)) == whole && AfterPoint(Unsigned(s)) == fraction
            && Unsigned(s) == whole + (if fraction == "" then "" else "." + fraction)
            && Negative(s) == negative && s[0] != '+'
  {
    PointSplits(whole, fraction);
    hide BeforePoint, AfterPoint, Unsigned, Negative;
    var body := whole + if fraction == "" then "" else "." + fraction;
    assert body[0] == whole[0];
    SignSplits(negative, body);
    if fraction == "" {
      assert body == whole;
    } else {
      assert body == whole + "." + fraction;
    }
  }

  lemma SpellingMeans(negative: bool, whole: string, fraction: string)
    requires AllDigits(whole) && |whole| > 0 && AllDigits(fraction) && |fraction| <= 9
    ensures Amount(Spelling(negative, whole, fraction))
    ensures Meaning(Spelling(negative, whole, fraction)) ==
              Signed(negative, ValueOf(whole) * NANO + ValueOf(fraction) * Pow10(9 - |fraction|))
  {
    hide ValueOf, Pow10, Spelling, BeforePoint, AfterPoint, Unsigned, Negative;
    SpellingParts(negative, whole, fraction);
  }

  lemma PrintIsSpelling(n: int)
    ensures var magnitude := if n < 0 then -n else n;
            Print(n) == Spelling(n < 0, TextOf(magnitude / NANO), StripZeros(PadStart(TextOf(magnitude % NANO), 9)))
  {
    hide TextOf, StripZeros, PadStart;
  }

  /** Printing gives the canonical spelling, and it means the number printed. */
  lemma PrintIsCanonical(n: int)
    ensures Canonical(Print(n)) && Meaning(Print(n)) == n
  {
    hide ValueOf, TextOf, StripZeros, Pow10, BeforePoint, AfterPoint, PadStart, Print, Spelling, Unsigned, Negative;
    hide Meaning, Amount;
    var magnitude := if n < 0 then -n else n;
    var whole := TextOf(magnitude / NANO);
    var fraction := StripZeros(PadStart(TextOf(magnitude % NANO), 9));
    StrippedFraction(magnitude % NANO);
    TextOfValue(magnitude / NANO);
    PrintIsSpelling(n);
    SpellingParts(n < 0, whole, fraction);
    SpellingMeans(n < 0, whole, fraction);
  }

  lemma FractionBound(fraction: string)
    requires AllDigits(fraction) && |fraction| <= 9
    ensures ValueOf(fraction) * Pow10(9 - |fraction|) < NANO
  {
    Filled(fraction);
    PowNine();
    ValueBound((fraction + Zeros(9))[..9]);
  }

  lemma PaddedIs(n: nat, digits: string)
    requires AllDigits(digits) && |digits| == 9 && ValueOf(digits) == n
    ensures PadStart(TextOf(n), 9) == digits
  {
    ValueBound(digits);
    hide ValueOf, TextOf, PadStart, Pow10;
    TextLength(n, 9);
    TextOfValue(n);
    ValueOfPadded(TextOf(n), 9);
    SameValue(PadStart(TextOf(n), 9), digits);
  }

  lemma PaddedFraction(fraction: string)
    requires AllDigits(fraction) && |fraction| <= 9
    ensures PadStart(TextOf(ValueOf(fraction) * Pow10(9 - |fraction|)), 9) == fraction + Zeros(9 - |fraction|)
  {
    hide ValueOf, TextOf, PadStart, Pow10;
    var k := 9 - |fraction|;
    ValueOfZeros(k);
    ValueOfJoin(fraction, Zeros(k));
    PaddedIs(ValueOf(fraction) * Pow10(k), fraction + Zeros(k));
  }

  /** There is one canonical spelling of each number: printing undoes reading. */
  lemma CanonicalIsUnique(s: string)
    requires Canonical(s)
    ensures Print(Meaning(s)) == s
  {
    hide ValueOf, TextOf, StripZeros, Pow10, BeforePoint, AfterPoint, PadStart;
    var whole, fraction := BeforePoint(Unsigned(s)), AfterPoint(Unsigned(s));
    var rest := ValueOf(fraction) * Pow10(9 - |fraction|);
    FractionBound(fraction);
    TextIsUnique(whole);
    PaddedFraction(fraction);
    StripAppended(fraction, 9 - |fraction|);
    var magnitude := ValueOf(whole) * NANO + rest;
    assert magnitude / NANO == ValueOf(whole) && magnitude % NANO == rest;
  }

  // ------------------------------------------------------------------ the laws of sums

  function MeaningSum(amounts: seq<string>): int
    requires AllAmounts(amounts)
  {
    if |amounts| == 0 then 0 else assert Amount(amounts[0]); Meaning(amounts[0]) + MeaningSum(amounts[1..])
  }

  lemma {:induction false} TotalIsExact(amounts: seq<string>, sum: int)
    requires AllAmounts(amounts)
    ensures Total(amounts, sum) == sum + MeaningSum(amounts)
  {
    if |amounts| > 0 {
      NanosAreExact(amounts[0]);
      TotalIsExact(amounts[1..], sum + Nanos(amounts[0]));
    }
  }

  /** The sum is the canonical spelling of the exact sum. */
  lemma SumIsExact(amounts: seq<string>)
    requires AllAmounts(amounts)
    ensures Canonical(SumMoneyAmounts(amounts)) && Meaning(SumMoneyAmounts(amounts)) == MeaningSum(amounts)
  {
    hide Canonical, Meaning, Print;
    TotalIsExact(amounts, 0);
    PrintIsCanonical(Total(amounts, 0));
  }

  lemma {:induction false} MeaningSumSplit(a: seq<string>, b: seq<string>)
    requires AllAmounts(a)
    requires AllAmounts(b)
    ensures AllAmounts(a + b)
    ensures MeaningSum(a + b) == MeaningSum(a) + MeaningSum(b)
  {
    hide Meaning, Amount;
    if |a| == 0 {
      assert a + b == b;
    } else {
      MeaningSumSplit(a[1..], b);
      assert (a + b)[1..] == a[1..] + b && (a + b)[0] == a[0];
    }
  }

  lemma SumIsAmount(amounts: seq<string>)
    requires AllAmounts(amounts)
    ensures Amount(SumMoneyAmounts(amounts)) && Meaning(SumMoneyAmounts(amounts)) == MeaningSum(amounts)
  {
    SumIsExact(amounts);
  }

  /** Sums can be taken in parts. */
  lemma SumOfSums(a: seq<string>, b: seq<string>)
    requires AllAmounts(a)
    requires AllAmounts(b)
    ensures AllAmounts(a + b)
    ensures Amount(SumMoneyAmounts(a)) && Amount(SumMoneyAmounts(b))
    ensures SumMoneyAmounts(a + b) == SumMoneyAmounts([SumMoneyAmounts(a), SumMoneyAmounts(b)])
  {
    hide Meaning, Print, Amount;
    SumIsAmount(a);
    SumIsAmount(b);
    MeaningSumSplit(a, b);
    TotalIsExact(a + b, 0);
    var parts := [SumMoneyAmounts(a), SumMoneyAmounts(b)];
    TotalIsExact(parts, 0);
    assert parts[1..] == [SumMoneyAmounts(b)] && parts[1..][1..] == [];
    assert MeaningSum(parts[1..]) == Meaning(parts[1]) + 0;
  }

  lemma WithoutOne<T>(s: seq<T>, k: nat)
    requires k < |s|
    ensures multiset(s) == multiset{s[k]} + multiset(s[..k] + s[k + 1..])
  {
    assert s == s[..k] + ([s[k]] + s[k + 1..]);
  }

  lemma SameRest<T>(x: T, a: multiset<T>, b: multiset<T>)
    requires multiset{x} + a == multiset{x} + b
    ensures a == b
  {
    assert a == multiset{x} + a - multiset{x};
    assert b == multiset{x} + b - multiset{x};
  }

  lemma {:induction false} MeaningSumWithoutOne(b: seq<string>, k: nat)
    requires AllAmounts(b) && k < |b|
    ensures AllAmounts(b[..k] + b[k + 1..])
    ensures MeaningSum(b) == Meaning(b[k]) + MeaningSum(b[..k] + b[k + 1..])
  {
    hide Meaning, Amount;
    var rest := b[..k] + b[k + 1..];
    if k == 0 {
      assert rest == b[1..];
    } else {
      MeaningSumWithoutOne(b[1..], k - 1);
      assert rest[1..] == b[1..][..k - 1] + b[1..][k..];
    }
  }

  lemma {:induction false} MeaningSumOfPermutation(a: seq<string>, b: seq<string>)
    requires AllAmounts(a)
    requires AllAmounts(b)
    requires multiset(a) == multiset(b)
    ensures MeaningSum(a) == MeaningSum(b)
  {
    hide Meaning, Amount, MeaningSum, AllAmounts;
    if |a| == 0 {
      assert |multiset(a)| == |multiset(b)|;
      assert a == b;
    } else {
      assert a[0] in multiset(b);
      var k :| 0 <= k < |b| && b[k] == a[0];
      var x, y := a[..0] + a[1..], b[..k] + b[k + 1..];
      WithoutOne(a, 0);
      WithoutOne(b, k);
      SameRest(a[0], multiset(x), multiset(y));
      MeaningSumWithoutOne(a, 0);
      MeaningSumWithoutOne(b, k);
      MeaningSumOfPermutation(x, y);
    }
  }

  /** The order of the amounts does not matter. */
  lemma SumOfPermutation(a: seq<string>, b: seq<string>)
    requires AllAmounts(a)
    requires AllAmounts(b)
    requires multiset(a) == multiset(b)
    ensures SumMoneyAmounts(a) == SumMoneyAmounts(b)
  {
    TotalIsExact(a, 0);
    TotalIsExact(b, 0);
    MeaningSumOfPermutation(a, b);
  }
}
