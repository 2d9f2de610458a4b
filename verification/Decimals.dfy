/** Decimal digit strings of unbounded numbers. */
module Decimals {

  predicate IsDigit(c: char) {
    '0' <= c <= '9'
  }

  predicate AllDigits(s: string) {
    forall i | 0 <= i < |s| :: IsDigit(s[i])
  }

  function DigitOf(n: nat): char
    requires n < 10
  {
    (n + '0' as int) as char
  }

  /** The number a digit string denotes; nothing denotes zero. */
  function ValueOf(s: string): nat
    requires AllDigits(s)
  {
    if |s| == 0 then 0 else 10 * ValueOf(s[..|s| - 1]) + (s[|s| - 1] as int - '0' as int)
  }

  /** The shortest digit string of a number. */
  function TextOf(n: nat): string {
    if n < 10 then [DigitOf(n)] else TextOf(n / 10) + [DigitOf(n % 10)]
  }

  function Pow10(k: nat): nat {
    if k == 0 then 1 else 10 * Pow10(k - 1)
  }

  function Zeros(k: nat): string {
    seq(k, i => '0')
  }

  function PadStart(s: string, k: nat): string {
    if |s| >= k then s else Zeros(k - |s|) + s
  }

  function StripZeros(s: string): string {
    if |s| > 0 && s[|s| - 1] == '0' then StripZeros(s[..|s| - 1]) else s
  }

  lemma TextIsNotEmpty(n: nat)
    ensures |TextOf(n)| > 0
  {
  }

  lemma SingleDigit(n: nat)
    requires |TextOf(n)| == 1
    ensures n < 10
  {
    if n >= 10 {
      TextIsNotEmpty(n / 10);
    }
  }

  lemma {:induction false} TextOfValue(n: nat)
    ensures AllDigits(TextOf(n)) && ValueOf(TextOf(n)) == n && |TextOf(n)| > 0
    ensures |TextOf(n)| > 1 ==> TextOf(n)[0] != '0'
  {
    if n >= 10 {
      TextOfValue(n / 10);
      var s := TextOf(n);
      assert s[..|s| - 1] == TextOf(n / 10);
      assert s[0] == TextOf(n / 10)[0];
      if |TextOf(n / 10)| == 1 { SingleDigit(n / 10); }
    }
  }

  lemma {:induction false} PowPositive(k: nat)
    ensures Pow10(k) > 0
  {
    if k > 0 { PowPositive(k - 1); }
  }

  lemma {:induction false} ValueBound(s: string)
    requires AllDigits(s)
    ensures ValueOf(s) < Pow10(|s|)
  {
    if |s| > 0 { ValueBound(s[..|s| - 1]); }
  }

  lemma {:induction false} PowAdd(j: nat, k: nat)
    ensures Pow10(j + k) == Pow10(j) * Pow10(k)
  {
    if k > 0 { PowAdd(j, k - 1); }
  }

  lemma ShiftedSum(a: nat, p: nat, c: nat, d: int)
    ensures 10 * (a * p + c) + d == a * (10 * p) + (10 * c + d)
  {
  }

  /** Concatenation is positional. */
  lemma {:induction false} ValueOfJoin(a: string, b: string)
    requires AllDigits(a) && AllDigits(b)
    ensures AllDigits(a + b) && ValueOf(a + b) == ValueOf(a) * Pow10(|b|) + ValueOf(b)
    decreases |b|
  {
    if |b| == 0 {
      assert a + b == a;
    } else {
      var c := b[..|b| - 1];
      ValueOfJoin(a, c);
      assert (a + b)[..|a + b| - 1] == a + c;
      assert (a + b)[|a + b| - 1] == b[|b| - 1];
      ShiftedSum(ValueOf(a), Pow10(|c|), ValueOf(c), b[|b| - 1] as int - '0' as int);
    }
  }

  lemma {:induction false} ValueOfZeros(k: nat)
    ensures AllDigits(Zeros(k)) && ValueOf(Zeros(k)) == 0
  {
    if k > 0 {
      ValueOfZeros(k - 1);
      assert Zeros(k)[..k - 1] == Zeros(k - 1);
    }
  }

  lemma ValueOfPadded(s: string, k: nat)
    requires AllDigits(s)
    ensures AllDigits(PadStart(s, k)) && ValueOf(PadStart(s, k)) == ValueOf(s)
    ensures |s| <= k ==> |PadStart(s, k)| == k
  {
    if |s| < k {
      ValueOfZeros(k - |s|);
      ValueOfJoin(Zeros(k - |s|), s);
    }
  }

  lemma {:induction false} TextLength(n: nat, k: nat)
    requires n < Pow10(k) && k > 0
    ensures |TextOf(n)| <= k
  {
    if n >= 10 {
      assert k > 1 by { assert Pow10(1) == 10 * Pow10(0); }
      TextLength(n / 10, k - 1);
    }
  }

  /** Digit strings of equal length and value are equal. */
  lemma {:induction false} SameValue(a: string, b: string)
    requires AllDigits(a) && AllDigits(b) && |a| == |b| && ValueOf(a) == ValueOf(b)
    ensures a == b
  {
    if |a| > 0 {
      var n := |a| - 1;
      SameValue(a[..n], b[..n]);
      assert a == a[..n] + [a[n]] && b == b[..n] + [b[n]];
    }
  }

  /** What stripping takes away is zeros. */
  lemma {:induction false} StripIsPrefix(s: string)
    ensures var t := StripZeros(s);
            && |t| <= |s| && t + Zeros(|s| - |t|) == s
            && (|t| > 0 ==> t[|t| - 1] != '0')
  {
    if |s| > 0 && s[|s| - 1] == '0' {
      var n := |s| - 1;
      StripIsPrefix(s[..n]);
      var t := StripZeros(s);
      assert Zeros(|s| - |t|) == Zeros(n - |t|) + ['0'];
      assert s == s[..n] + ['0'];
    } else {
      assert s + Zeros(0) == s;
    }
  }

  /** Stripping undoes appending zeros. */
  lemma {:induction false} StripAppended(t: string, k: nat)
    requires |t| > 0 ==> t[|t| - 1] != '0'
    ensures StripZeros(t + Zeros(k)) == t
  {
    if k == 0 {
      assert t + Zeros(0) == t;
    } else {
      StripAppended(t, k - 1);
      assert (t + Zeros(k))[..|t| + k - 1] == t + Zeros(k - 1);
    }
  }

  lemma {:induction false} LeadingDigit(s: string)
    requires AllDigits(s) && |s| > 0 && s[0] != '0'
    ensures ValueOf(s) > 0
  {
    if |s| > 1 { LeadingDigit(s[..|s| - 1]); } else { assert s[..0] == []; }
  }

  /** A number's own text is the only one without a leading zero. */
  lemma {:induction false} TextIsUnique(s: string)
    requires AllDigits(s) && |s| > 0 && (|s| > 1 ==> s[0] != '0')
    ensures TextOf(ValueOf(s)) == s
  {
    var n := |s| - 1;
    var d := s[n] as int - '0' as int;
    if n == 0 {
      assert ValueOf(s[..0]) == 0;
    } else {
      TextIsUnique(s[..n]);
      LeadingDigit(s[..n]);
      assert ValueOf(s) / 10 == ValueOf(s[..n]) && ValueOf(s) % 10 == d;
      assert s == s[..n] + [s[n]];
    }
  }
}
