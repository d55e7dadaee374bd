/**
 * Decimal text of numbers as the invoice code writes and reads it:
 * `str(n)`, `str.zfill`, `int(s)`, the format spec `.2f` and `float(s)`.
 *
 * Money is held exactly, as an integer number of cents: `.2f` of the
 * amount c/100 is `FormatCents(c)` and `float(s)` of a two-decimal text is
 * `ParseDecimal(s)`.
 */
module Numerals {
  import opened Wrappers
  import opened Text

  /** The sign `str` writes in front of a negative number. */
  const Minus: string := "-"

  predicate IsDigit(c: char) {
    '0' <= c <= '9'
  }

  predicate AllDigits(s: string) {
    forall i :: 0 <= i < |s| ==> IsDigit(s[i])
  }

  /** The digit check `int` and `float` make, one character at a time. */
  predicate DigitRun(s: string)
  {
    s == [] || (IsDigit(s[0]) && DigitRun(s[1..]))
  }

  lemma {:induction false} DigitRunAllDigits(s: string)
    ensures DigitRun(s) <==> AllDigits(s)
  {
    if s != [] {
      DigitRunAllDigits(s[1..]);
      assert forall i :: 1 <= i < |s| ==> s[i] == s[1..][i - 1];
    }
  }

  /** Characters a number can be written with: digits, a minus sign and a decimal point. */
  predicate NumericChars(s: string) {
    forall i :: 0 <= i < |s| ==> IsDigit(s[i]) || s[i] == '-' || s[i] == '.'
  }

  lemma {:induction false} NumericCharsNoSpace(s: string)
    requires NumericChars(s)
    ensures NoSpace(s)
  {
  }

  function DigitChar(d: nat): (c: char)
    requires d < 10
    ensures IsDigit(c)
  {
    (('0' as int) + d) as char
  }

  lemma {:induction false} DigitRoundTrip(d: nat)
    requires d < 10
    ensures DigitValue(DigitChar(d)) == d
  {
  }

  /** The value of a decimal digit; any other character counts as 0. */
  function DigitValue(c: char): (d: nat)
    ensures d < 10
  {
    if IsDigit(c) then (c as int) - ('0' as int) else 0
  }

  function Pow10(k: nat): (r: nat)
    ensures r >= 1
  {
    if k == 0 then 1 else 10 * Pow10(k - 1)
  }

  /** `str(n)` for n >= 0: decimal digits, no leading zero. */
  function NatToString(n: nat): (s: string)
    ensures |s| >= 1
  {
    if n < 10 then [DigitChar(n)] else NatToString(n / 10) + [DigitChar(n % 10)]
  }

  lemma {:induction false} NatToStringDigits(n: nat)
    ensures AllDigits(NatToString(n))
  {
    if n >= 10 {
      NatToStringDigits(n / 10);
    }
  }

  /** The value of a run of decimal digits, leading zeros allowed. */
  function DigitsValue(s: string): nat
  {
    if s == [] then 0 else DigitsValue(s[..|s| - 1]) * 10 + DigitValue(s[|s| - 1])
  }

  lemma {:induction false} NatToStringRoundTrip(n: nat)
    ensures DigitsValue(NatToString(n)) == n
  {
    var s := NatToString(n);
    if n >= 10 {
      NatToStringRoundTrip(n / 10);
      assert s[..|s| - 1] == NatToString(n / 10);
    }
  }

  lemma {:induction false} LeadingZero(s: string)
    ensures DigitsValue(['0'] + s) == DigitsValue(s)
    decreases |s|
  {
    if s != [] {
      var t := ['0'] + s;
      assert t[..|t| - 1] == ['0'] + s[..|s| - 1];
      LeadingZero(s[..|s| - 1]);
    }
  }

  /** Zeros in front of a run of digits do not change its value. */
  lemma {:induction false} LeadingZeros(k: nat, s: string)
    ensures DigitsValue(Repeat('0', k) + s) == DigitsValue(s)
    decreases k
  {
    if k == 0 {
      assert Repeat('0', k) + s == s;
    } else {
      LeadingZeros(k - 1, s);
      assert Repeat('0', k) + s == ['0'] + (Repeat('0', k - 1) + s);
      LeadingZero(Repeat('0', k - 1) + s);
    }
  }

  /** Zeros in front of a run of digits leave a run of digits. */
  lemma {:induction false} ZerosThenDigits(k: nat, s: string)
    requires AllDigits(s)
    ensures AllDigits(Repeat('0', k) + s)
  {
    var t := Repeat('0', k) + s;
    forall i | 0 <= i < |t|
      ensures IsDigit(t[i])
    {
      if i < k {
        assert t[i] == '0';
      } else {
        assert t[i] == s[i - k];
      }
    }
  }

  /** `str(n)` has at most k digits when n < 10^k, and more than k when n >= 10^k. */
  lemma {:induction false} NatToStringLength(n: nat, k: nat)
    ensures 1 <= k && n < Pow10(k) ==> |NatToString(n)| <= k
    ensures n >= Pow10(k) ==> |NatToString(n)| > k
  {
    if n >= 10 {
      if k >= 1 {
        assert n < Pow10(k) ==> n / 10 < Pow10(k - 1);
        assert n >= Pow10(k) ==> n / 10 >= Pow10(k - 1);
        NatToStringLength(n / 10, k - 1);
      }
    } else if k >= 1 {
      assert Pow10(k) >= 10 by {
        assert Pow10(k) == 10 * Pow10(k - 1);
      }
    }
  }

  /** `str(i)` for any integer. */
  function IntToString(i: int): (s: string)
    ensures s != []
  {
    if i < 0 then Minus + NatToString(-i) else NatToString(i)
  }

  /** `str(i)` is made of digits and, for a negative i, a leading minus sign. */
  lemma {:induction false} IntToStringChars(i: int)
    ensures NumericChars(IntToString(i))
    ensures i >= 0 ==> AllDigits(IntToString(i))
  {
    if i < 0 {
      NatToStringDigits(-i);
      var s := IntToString(i);
      assert forall j :: 1 <= j < |s| ==> s[j] == NatToString(-i)[j - 1];
    } else {
      NatToStringDigits(i);
    }
  }

  /** `s.zfill(w)`: zeros inserted after an optional sign until the text is w long. */
  function ZFill(s: string, w: nat): (r: string)
    ensures |s| < w ==> |r| == w
  {
    if |s| >= w then s
    else if s != [] && (s[0] == '-' || s[0] == '+') then [s[0]] + Repeat('0', w - |s|) + s[1..]
    else Repeat('0', w - |s|) + s
  }

  /** The value of a non-empty run of decimal digits, read left to right; None when a character is not a digit. */
  function ReadDigits(s: string): Option<nat>
  {
    if s == [] || !IsDigit(s[|s| - 1]) then None
    else if |s| == 1 then Some(DigitValue(s[0]))
    else match ReadDigits(s[..|s| - 1])
      case None => None
      case Some(v) => Some(10 * v + DigitValue(s[|s| - 1]))
  }

  lemma {:induction false} ReadDigitsValue(s: string)
    ensures ReadDigits(s) == if s != [] && AllDigits(s) then Some(DigitsValue(s)) else None
  {
    if |s| >= 2 {
      ReadDigitsValue(s[..|s| - 1]);
      if IsDigit(s[|s| - 1]) && !AllDigits(s) {
        var i :| 0 <= i < |s| && !IsDigit(s[i]);
        assert s[..|s| - 1][i] == s[i];
      }
    } else if |s| == 1 {
      assert s[..0] == [];
    }
  }

  /** `int(s)`: an optional sign and a non-empty run of digits; anything else raises ValueError (None). */
  function ParseInt(s: string): Option<int>
  {
    if |s| >= 1 && (s[0] == '-' || s[0] == '+') then
      match ReadDigits(s[1..])
      case None => None
      case Some(d) => var v: int := d; Some(if s[0] == '-' then -v else v)
    else ReadDigits(s)
  }

  /** Zero-filling a run of digits keeps its value. */
  lemma {:induction false} ZFillDigits(d: string, w: nat)
    requires d != [] && AllDigits(d)
    ensures ParseInt(ZFill(d, w)) == Some(DigitsValue(d))
  {
    if |d| < w {
      ZFillUnsigned(d, w);
      ParseZeros(w - |d|, d);
    } else {
      ReadDigitsValue(d);
    }
  }

  /** `zfill` puts its zeros in front of text that has no sign. */
  lemma {:induction false} ZFillUnsigned(d: string, w: nat)
    requires |d| < w && d != [] && IsDigit(d[0])
    ensures ZFill(d, w) == Repeat('0', w - |d|) + d
  {
  }

  /** Zeros in front of a run of digits do not change the number `int` reads. */
  lemma {:induction false} ParseZeros(k: nat, d: string)
    requires d != [] && AllDigits(d)
    ensures ParseInt(Repeat('0', k) + d) == Some(DigitsValue(d))
  {
    var r := Repeat('0', k) + d;
    LeadingZeros(k, d);
    ZerosThenDigits(k, d);
    ReadDigitsValue(r);
    assert r[0] == '0' || r[0] == d[0];
  }

  /** A minus sign in front of a run of digits reads as its negation. */
  lemma {:induction false} ParseNegative(d: string)
    requires d != [] && AllDigits(d)
    ensures ParseInt(Minus + d) == Some(-(DigitsValue(d) as int))
  {
    var s := Minus + d;
    assert s[0] == '-' && s[1..] == d;
    ReadDigitsValue(d);
  }

  /** `zfill` leaves text that is already wide enough alone. */
  lemma {:induction false} ZFillWide(s: string, w: nat)
    requires |s| >= w
    ensures ZFill(s, w) == s
  {
  }

  /** `zfill` puts its zeros after a minus sign. */
  lemma {:induction false} ZFillMinus(d: string, w: nat)
    requires |d| + 1 < w
    ensures ZFill(Minus + d, w) == Minus + (Repeat('0', w - |d| - 1) + d)
  {
    var s := Minus + d;
    assert s[0] == '-' && s[1..] == d;
  }

  /** Zero-filling after a minus sign keeps the value. */
  lemma {:induction false} ZFillNegative(d: string, w: nat)
    requires d != [] && AllDigits(d)
    ensures ParseInt(ZFill(Minus + d, w)) == Some(-(DigitsValue(d) as int))
  {
    if |d| + 1 < w {
      ZFillNegativePadded(d, w);
    } else {
      ZFillWide(Minus + d, w);
      ParseNegative(d);
    }
  }

  lemma {:induction false} ZFillNegativePadded(d: string, w: nat)
    requires d != [] && AllDigits(d) && |d| + 1 < w
    ensures ParseInt(ZFill(Minus + d, w)) == Some(-(DigitsValue(d) as int))
  {
    ZFillMinus(d, w);
    ParseNegativeZeros(w - |d| - 1, d);
  }

  /** Zeros between the minus sign and the digits do not change the number `int` reads. */
  lemma {:induction false} ParseNegativeZeros(k: nat, d: string)
    requires d != [] && AllDigits(d)
    ensures ParseInt(Minus + (Repeat('0', k) + d)) == Some(-(DigitsValue(d) as int))
  {
    var r := Repeat('0', k) + d;
    var v := DigitsValue(d);
    ReadZeros(k, d);
    ParseMinus(r, v);
  }

  /** Zeros in front of a run of digits: still a run of digits, with the same value. */
  lemma {:induction false} ReadZeros(k: nat, d: string)
    requires d != [] && AllDigits(d)
    ensures ReadDigits(Repeat('0', k) + d) == Some(DigitsValue(d))
  {
    LeadingZeros(k, d);
    ZerosThenDigits(k, d);
    ReadDigitsValue(Repeat('0', k) + d);
  }

  /** A minus sign in front of digits `int` reads as v reads as -v. */
  lemma {:induction false} ParseMinus(r: string, v: nat)
    requires ReadDigits(r) == Some(v)
    ensures ParseInt(Minus + r) == Some(-(v as int))
  {
    var s := Minus + r;
    assert s[0] == '-' && s[1..] == r;
  }

  /** `int(str(i).zfill(w)) == i`: zero padding never changes the number read back. */
  lemma {:induction false} ZFillRoundTrip(i: int, w: nat)
    ensures ParseInt(ZFill(IntToString(i), w)) == Some(i)
  {
    if i < 0 {
      var d := NatToString(-i);
      NatToStringDigits(-i);
      NatToStringRoundTrip(-i);
      assert IntToString(i) == Minus + d;
      ZFillNegative(d, w);
    } else {
      NatToStringDigits(i);
      NatToStringRoundTrip(i);
      ZFillDigits(NatToString(i), w);
    }
  }

  /** `int(str(i)) == i` */
  lemma {:induction false} IntRoundTrip(i: int)
    ensures ParseInt(IntToString(i)) == Some(i)
  {
    ZFillRoundTrip(i, 0);
  }

  /** The text ends in a point and two digits. */
  predicate TwoDecimals(s: string)
  {
    |s| >= 3 && s[|s| - 3] == '.' && IsDigit(s[|s| - 2]) && IsDigit(s[|s| - 1])
  }

  /** `f"{c / 100:.2f}"` for a non-negative amount held as cents. */
  function UnsignedCents(n: nat): (s: string)
    ensures |s| >= 4
  {
    NatToString(n / 100) + "." + [DigitChar(n % 100 / 10), DigitChar(n % 10)]
  }

  /** `f"{c / 100:.2f}"`: the amount c/100 with exactly two decimals. */
  function FormatCents(c: int): (s: string)
    ensures |s| >= 4
  {
    if c < 0 then Minus + UnsignedCents(-c) else UnsignedCents(c)
  }

  /** Text put in front keeps the two decimals at the end. */
  lemma {:induction false} TwoDecimalsAfter(p: string, s: string)
    requires TwoDecimals(s)
    ensures TwoDecimals(p + s)
  {
    var t := p + s;
    assert t[|t| - 3] == s[|s| - 3] && t[|t| - 2] == s[|s| - 2] && t[|t| - 1] == s[|s| - 1];
  }

  /** Zero is written "0.00". */
  lemma {:induction false} FormatCentsZero()
    ensures FormatCents(0) == "0.00"
  {
    assert NatToString(0) == "0";
  }

  /** `.2f` writes exactly two decimals. */
  lemma {:induction false} FormatCentsTwoDecimals(c: int)
    ensures TwoDecimals(FormatCents(c))
  {
    var n: nat := if c < 0 then -c else c;
    var u := UnsignedCents(n);
    assert TwoDecimals(u);
    if c < 0 {
      assert FormatCents(c)[|FormatCents(c)| - 3..] == u[|u| - 3..];
    }
  }

  /** `.2f` writes digits and a point, and a minus sign for a negative amount; it ends with a digit. */
  lemma {:induction false} FormatCentsChars(c: int)
    ensures NumericChars(FormatCents(c))
    ensures IsDigit(FormatCents(c)[|FormatCents(c)| - 1])
  {
    var n: nat := if c < 0 then -c else c;
    var u := UnsignedCents(n);
    UnsignedCentsChars(n);
    if c < 0 {
      MinusThen(u);
    }
  }

  /** A minus sign in front of digits and points leaves text a number can be written with. */
  lemma {:induction false} MinusThen(u: string)
    requires NumericChars(u) && u != []
    ensures NumericChars(Minus + u)
    ensures (Minus + u)[|Minus + u| - 1] == u[|u| - 1]
  {
    var s := Minus + u;
    forall j | 0 <= j < |s|
      ensures IsDigit(s[j]) || s[j] == '-' || s[j] == '.'
    {
      if j > 0 {
        assert s[j] == u[j - 1];
      }
    }
  }

  lemma {:induction false} UnsignedCentsChars(n: nat)
    ensures NumericChars(UnsignedCents(n))
    ensures IsDigit(UnsignedCents(n)[|UnsignedCents(n)| - 1])
  {
    var w := NatToString(n / 100);
    NatToStringDigits(n / 100);
    var u := UnsignedCents(n);
    assert u == w + "." + [DigitChar(n % 100 / 10), DigitChar(n % 10)];
    assert forall j :: 0 <= j < |w| ==> u[j] == w[j];
  }

  /** The cents of up to two fraction digits: "5" is 50, "05" is 5. */
  function FractionCents(f: string): nat
    requires |f| <= 2
  {
    if |f| == 0 then 0 else if |f| == 1 then 10 * DigitsValue(f) else DigitsValue(f)
  }

  /**
   * `float(s)` for text without sign: digits, optionally a point and at most
   * two more digits, at least one digit in all.
   */
  function ParseUnsignedDecimal(s: string): (r: Option<int>)
    ensures r.Some? ==> r.value >= 0
  {
    var dot := IndexOf(s, ".");
    var whole := if dot.Some? then s[..dot.value] else s;
    var frac := if dot.Some? then s[dot.value + 1..] else [];
    if DigitRun(whole) && DigitRun(frac) && |whole| + |frac| >= 1 && |frac| <= 2 then
      Some(DigitsValue(whole) * 100 + FractionCents(frac))
    else None
  }

  /** `float(s)` of a two-decimal amount, in cents; None where float raises ValueError. */
  function ParseDecimal(s: string): Option<int>
  {
    if |s| >= 1 && (s[0] == '-' || s[0] == '+') then
      match ParseUnsignedDecimal(s[1..])
      case None => None
      case Some(v) => Some(if s[0] == '-' then -v else v)
    else ParseUnsignedDecimal(s)
  }

  lemma {:induction false} UnsignedCentsRoundTrip(n: nat)
    ensures ParseUnsignedDecimal(UnsignedCents(n)) == Some(n)
  {
    var w := NatToString(n / 100);
    var f := [DigitChar(n % 100 / 10), DigitChar(n % 10)];
    var s := UnsignedCents(n);
    NatToStringDigits(n / 100);
    assert s == w + "." + f;
    assert At(s, ".", |w|) by {
      assert s[|w|..|w| + 1] == ".";
    }
    IndexOfAt(s, ".", |w|);
    assert s[..|w|] == w;
    assert s[|w| + 1..] == f;
    NatToStringRoundTrip(n / 100);
    TwoDigits(n % 100 / 10, n % 10);
    DigitRunAllDigits(w);
    DigitRunAllDigits(f);
    assert FractionCents(f) == n % 100;
    assert DigitsValue(w) * 100 + FractionCents(f) == n;
  }

  /** The value of two digits. */
  lemma {:induction false} TwoDigits(a: nat, b: nat)
    requires a < 10 && b < 10
    ensures DigitsValue([DigitChar(a), DigitChar(b)]) == 10 * a + b
  {
    var f := [DigitChar(a), DigitChar(b)];
    DigitRoundTrip(a);
    DigitRoundTrip(b);
    assert f[..1] == [DigitChar(a)];
    assert DigitsValue(f[..1]) == a by {
      assert f[..1][..0] == [];
    }
    assert f[|f| - 1] == DigitChar(b);
  }

  /** A minus sign in front of an unsigned amount reads as its negation. */
  lemma {:induction false} ParseDecimalNegative(u: string, n: nat)
    requires ParseUnsignedDecimal(u) == Some(n)
    ensures ParseDecimal(Minus + u) == Some(-(n as int))
  {
    assert (Minus + u)[1..] == u;
  }

  /** An amount that starts with a digit is read without a sign. */
  lemma {:induction false} ParseDecimalUnsigned(u: string)
    requires u != [] && IsDigit(u[0])
    ensures ParseDecimal(u) == ParseUnsignedDecimal(u)
  {
  }

  /** `.2f` of a non-negative amount starts with a digit. */
  lemma {:induction false} UnsignedCentsStart(n: nat)
    ensures IsDigit(UnsignedCents(n)[0])
  {
    var w := NatToString(n / 100);
    NatToStringDigits(n / 100);
    assert UnsignedCents(n)[0] == w[0];
  }

  /** `float(f"{x:.2f}") == x` for every two-decimal amount x. */
  lemma {:induction false} FormatCentsRoundTrip(c: int)
    ensures ParseDecimal(FormatCents(c)) == Some(c)
  {
    if c < 0 {
      UnsignedCentsRoundTrip(-c);
      ParseDecimalNegative(UnsignedCents(-c), -c);
    } else {
      UnsignedCentsRoundTrip(c);
      UnsignedCentsStart(c);
      ParseDecimalUnsigned(UnsignedCents(c));
    }
  }

  /** The width `.2f` needs: at most 9 characters below 1,000,000.00, at least 10 from there on. */
  lemma {:induction false} FormatCentsLength(c: int)
    ensures 0 <= c < 100_000_000 ==> |FormatCents(c)| <= 9
    ensures c >= 100_000_000 ==> |FormatCents(c)| >= 10
  {
    if c >= 0 {
      assert Pow10(6) == 1_000_000;
      NatToStringLength(c / 100, 6);
    }
  }

  /** `str(q)` is at most three characters long for 0 <= q <= 999. */
  lemma {:induction false} IntToStringShort(q: int)
    requires 0 <= q <= 999
    ensures |IntToString(q)| <= 3
  {
    assert Pow10(3) == 1000;
    NatToStringLength(q, 3);
  }

  /** Rounding half up to a whole number of cents: how an exact amount is shown with `.2f`. */
  function RoundHalfUp(x: real): int
  {
    (x + 0.5).Floor
  }

  /** Rounding commutes with adding whole cents. */
  lemma {:induction false} RoundHalfUpShift(n: int, x: real)
    ensures RoundHalfUp(n as real + x) == n + RoundHalfUp(x)
  {
    var f := (x + 0.5).Floor;
    assert f as real <= x + 0.5 < f as real + 1.0;
    assert (n + f) as real <= n as real + x + 0.5 < (n + f) as real + 1.0;
  }
}
