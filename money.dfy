/**
  Exact decimal money addition, `sum_str` of SRC/common.py (the same code is
  repeated in SRC/otpusk.py). Both operands are read as Python `Decimal`s,
  added exactly, quantized to two fractional digits with ROUND_HALF_EVEN and
  printed with `str`.
*/
module Money {
  import opened Wrappers

  /** A finite decimal as Python keeps it: the value is (-1)^neg * coef * 10^exp.
      The sign is separate from the coefficient, so a negative zero exists. */
  datatype Dec = Dec(neg: bool, coef: nat, exp: int)

  /** "0.00": the amount every engine row starts from, the start of every
      running total, and the text the checks compare against. */
  const Zero: string := "0.00"

  function Pow10(k: nat): (r: nat)
    ensures r >= 1
  {
    if k == 0 then 1 else 10 * Pow10(k - 1)
  }

  function Min(a: int, b: int): int { if a <= b then a else b }

  function Abs(x: int): nat { if x < 0 then -x else x }

  // ---------------------------------------------------------------- digits

  predicate IsDigit(c: char) { '0' <= c <= '9' }

  /** A non-empty run of ASCII digits. */
  predicate IsDigits(s: string) { |s| > 0 && forall i :: 0 <= i < |s| ==> IsDigit(s[i]) }

  function DigitValue(c: char): nat
    requires IsDigit(c)
  {
    (c as int - '0' as int) as nat
  }

  function Digit(d: nat): (c: char)
    requires d < 10
    ensures IsDigit(c) && DigitValue(c) == d
  {
    ('0' as int + d) as char
  }

  /** The number a string of digits denotes (0 for the empty string). */
  function DigitsValue(s: string): nat
    requires forall i :: 0 <= i < |s| ==> IsDigit(s[i])
  {
    if s == [] then 0 else 10 * DigitsValue(s[..|s| - 1]) + DigitValue(s[|s| - 1])
  }

  /** Decimal notation of a natural number, as Python's str(int) writes it. */
  function NatStr(n: nat): (s: string)
    ensures IsDigits(s)
    ensures n > 0 ==> s[0] != '0'
    decreases n
  {
    if n < 10 then [Digit(n)] else NatStr(n / 10) + [Digit(n % 10)]
  }

  /** Reading back the notation of n gives n. */
  lemma {:induction false} NatStrRoundTrip(n: nat)
    ensures DigitsValue(NatStr(n)) == n
    decreases n
  {
    if n >= 10 {
      var s := NatStr(n);
      assert s[..|s| - 1] == NatStr(n / 10);
      NatStrRoundTrip(n / 10);
    }
  }

  lemma {:induction false} Pow10Add(i: nat, j: nat)
    ensures Pow10(i + j) == Pow10(i) * Pow10(j)
  {
    if j > 0 {
      Pow10Add(i, j - 1);
      assert Pow10(i + j) == 10 * Pow10(i + j - 1);
    }
  }

  /** The value of a concatenation of digit strings. */
  lemma {:induction false} DigitsValueAppend(x: string, y: string)
    requires forall i :: 0 <= i < |x| ==> IsDigit(x[i])
    requires forall i :: 0 <= i < |y| ==> IsDigit(y[i])
    ensures DigitsValue(x + y) == DigitsValue(x) * Pow10(|y|) + DigitsValue(y)
    decreases |y|
  {
    if y == [] {
      assert x + y == x;
    } else {
      var y' := y[..|y| - 1];
      assert (x + y)[..|x + y| - 1] == x + y';
      DigitsValueAppend(x, y');
      assert y[..|y| - 1] == y' && y[|y| - 1] == (x + y)[|x + y| - 1];
      ShiftDigit(DigitsValue(x), Pow10(|y'|), DigitsValue(y'), DigitValue(y[|y| - 1]));
    }
  }

  lemma ShiftDigit(v: int, p: int, w: int, d: int)
    ensures 10 * (v * p + w) + d == v * (10 * p) + (10 * w + d)
  {
  }

  // ---------------------------------------------------------------- reading

  /** The first position of c in s, if any. */
  function FindChar(s: string, c: char): (r: Option<nat>)
    ensures r.Some? ==> r.value < |s| && s[r.value] == c
    ensures r.Some? ==> forall i :: 0 <= i < r.value ==> s[i] != c
    ensures r.None? ==> forall i :: 0 <= i < |s| ==> s[i] != c
  {
    if s == [] then None
    else if s[0] == c then Some(0)
    else match FindChar(s[1..], c)
      case None => None
      case Some(k) => Some(k + 1)
  }

  /** A numeric text without its leading sign. */
  function Unsigned(s: string): string
  {
    if |s| > 0 && (s[0] == '-' || s[0] == '+') then s[1..] else s
  }

  /** The decimal texts this model reads: [+|-]digits[.digits]. */
  ghost predicate IsDecimalText(s: string)
  {
    var b := Unsigned(s);
    IsDigits(b) ||
    exists k :: 0 < k < |b| && b[k] == '.' && IsDigits(b[..k]) && IsDigits(b[k + 1..])
  }

  /** Decimal(s): the coefficient is all digits read together, the exponent
      minus the number of fractional digits; anything else raises. */
  function Parse(s: string): (r: Option<Dec>)
    ensures r.Some? <==> IsDecimalText(s)
    ensures r.Some? ==> r.value.exp <= 0 && (r.value.neg <==> |s| > 0 && s[0] == '-')
  {
    var b := Unsigned(s);
    var neg := |s| > 0 && s[0] == '-';
    match FindChar(b, '.')
    case None =>
      if IsDigits(b) then Some(Dec(neg, DigitsValue(b), 0)) else None
    case Some(k) =>
      var ip, fp := b[..k], b[k + 1..];
      if IsDigits(ip) && IsDigits(fp) then Some(Dec(neg, DigitsValue(ip + fp), -|fp|)) else None
  }

  // ---------------------------------------------------------------- arithmetic

  /** The signed coefficient. */
  function Signed(d: Dec): int { if d.neg then -(d.coef as int) else d.coef as int }

  /** The value of d counted in units of 10^e. */
  function ScaledAt(d: Dec, e: int): int
    requires e <= d.exp
  {
    Signed(d) * Pow10(d.exp - e)
  }

  /** Exact Decimal addition. The exponent is the smaller one; a zero sum is
      negative only when both operands are negative. */
  function Add(a: Dec, b: Dec): (r: Dec)
    ensures r.exp == Min(a.exp, b.exp)
    ensures Signed(r) == ScaledAt(a, r.exp) + ScaledAt(b, r.exp)
    ensures r.coef == 0 ==> (r.neg <==> a.neg && b.neg)
  {
    var e := Min(a.exp, b.exp);
    var v := ScaledAt(a, e) + ScaledAt(b, e);
    Dec(if v == 0 then a.neg && b.neg else v < 0, Abs(v), e)
  }

  /** q is n / m rounded to the nearest integer, a tie going to the even one. */
  ghost predicate RoundsHalfEven(n: nat, m: nat, q: nat)
  {
    var d := n - q * m;
    m > 0 && -(m as int) <= 2 * d <= m && ((2 * d == m || 2 * d == -(m as int)) ==> q % 2 == 0)
  }

  /** Integer division rounding half to even. */
  function DivHalfEven(n: nat, m: nat): (q: nat)
    requires m > 0
    ensures RoundsHalfEven(n, m, q)
  {
    var q, rem := n / m, n % m;
    DivMod(n, m);
    if 2 * rem > m || (2 * rem == m && q % 2 == 1) then
      RoundUp(n, m, q, rem);
      q + 1
    else
      RoundDown(n, m, q, rem);
      q
  }

  lemma RoundDown(n: nat, m: nat, q: nat, rem: nat)
    requires m > 0 && n == q * m + rem && rem < m
    requires !(2 * rem > m || (2 * rem == m && q % 2 == 1))
    ensures RoundsHalfEven(n, m, q)
  {
  }

  lemma DivMod(n: nat, m: nat)
    requires m > 0
    ensures n == (n / m) * m + n % m && 0 <= n % m < m
  {
  }

  lemma RoundUp(n: nat, m: nat, q: nat, rem: nat)
    requires m > 0 && n == q * m + rem && rem < m
    requires 2 * rem > m || (2 * rem == m && q % 2 == 1)
    ensures RoundsHalfEven(n, m, q + 1)
  {
    assert (q + 1) * m == q * m + m;
  }

  /** At most one quotient rounds half to even. */
  lemma RoundingIsUnique(n: nat, m: nat, q1: nat, q2: nat)
    requires RoundsHalfEven(n, m, q1) && RoundsHalfEven(n, m, q2)
    ensures q1 == q2
  {
    if q1 != q2 {
      var lo, hi := if q1 < q2 then q1 else q2, if q1 < q2 then q2 else q1;
      var k := hi - lo;
      assert hi * m == lo * m + k * m by { MulDist(lo, k, m); }
      assert k * m <= m;
      assert k == 1 by {
        if k >= 2 { MulMono(k, m); }
      }
    }
  }

  lemma MulDist(a: int, b: int, m: int)
    ensures (a + b) * m == a * m + b * m
  {
  }

  lemma MulMono(k: nat, m: nat)
    requires k >= 2
    ensures k * m >= 2 * m
  {
  }

  /** Decimal.quantize(Decimal("0.01"), rounding=ROUND_HALF_EVEN): exponent
      -2, the sign kept, the coefficient rounded when digits are dropped. */
  function Quantize(d: Dec): (r: Dec)
    ensures r.exp == -2 && r.neg == d.neg
    ensures d.exp >= -2 ==> r.coef == d.coef * Pow10(d.exp + 2)
    ensures d.exp < -2 ==> RoundsHalfEven(d.coef, Pow10(-2 - d.exp), r.coef)
  {
    if d.exp >= -2 then Dec(d.neg, d.coef * Pow10(d.exp + 2), -2)
    else Dec(d.neg, DivHalfEven(d.coef, Pow10(-2 - d.exp)), -2)
  }

  // ---------------------------------------------------------------- printing

  /** The shape of every sum_str result: an optional minus, digits, a point
      and exactly two digits, never an exponent. */
  predicate IsMoneyText(s: string)
  {
    var b := if |s| > 0 && s[0] == '-' then s[1..] else s;
    |b| >= 4 && IsDigits(b[..|b| - 3]) && b[|b| - 3] == '.' && IsDigit(b[|b| - 2]) && IsDigit(b[|b| - 1])
  }

  /** The unsigned notation of c hundredths: whole part, point, two digits. */
  function CentsText(c: nat): (s: string)
    ensures |s| >= 4 && IsDigits(s[..|s| - 3]) && s[|s| - 3] == '.'
    ensures IsDigit(s[|s| - 2]) && IsDigit(s[|s| - 1])
  {
    var cents := c % 100;
    NatStr(c / 100) + ['.', Digit(cents / 10), Digit(cents % 10)]
  }

  /** str() of a Decimal whose exponent is -2. */
  function Format(d: Dec): (s: string)
    requires d.exp == -2
    ensures IsMoneyText(s)
    ensures d.neg <==> s[0] == '-'
  {
    var s := (if d.neg then "-" else "") + CentsText(d.coef);
    assert (if d.neg then s[1..] else s) == CentsText(d.coef);
    s
  }

  /** A text whose unsigned part is digits, a point and digits reads as one
      coefficient with an exponent minus the number of fractional digits. */
  lemma ParseWithPoint(s: string, ip: string, fp: string)
    requires IsDigits(ip) && IsDigits(fp) && Unsigned(s) == ip + ['.'] + fp
    ensures Parse(s) == Some(Dec(|s| > 0 && s[0] == '-', DigitsValue(ip + fp), -|fp|))
  {
    var b := Unsigned(s);
    FirstPoint(b, ip, fp);
    assert b[..|ip|] == ip && b[|ip| + 1..] == fp;
  }

  /** The point after a run of digits is the first one. */
  lemma FirstPoint(b: string, ip: string, fp: string)
    requires IsDigits(ip) && b == ip + ['.'] + fp
    ensures FindChar(b, '.') == Some(|ip|)
  {
    assert b[|ip|] == '.';
    assert forall i :: 0 <= i < |ip| ==> b[i] == ip[i] && b[i] != '.';
  }

  /** The digits of CentsText(c) read back as c. */
  lemma CentsTextValue(c: nat)
    ensures var n := NatStr(c / 100);
            var cents := c % 100;
            DigitsValue(n + [Digit(cents / 10), Digit(cents % 10)]) == c
  {
    var n := NatStr(c / 100);
    var cents := c % 100;
    var fp := [Digit(cents / 10), Digit(cents % 10)];
    DigitsValueAppend(n, fp);
    NatStrRoundTrip(c / 100);
    var hi := [Digit(cents / 10)];
    assert fp[..1] == hi && hi[..0] == [];
    assert DigitsValue(hi) == cents / 10;
    assert DigitsValue(fp) == 10 * (cents / 10) + cents % 10;
  }

  /** Printing a two-place decimal and reading it back gives it back. */
  lemma FormatRoundTrip(d: Dec)
    requires d.exp == -2
    ensures Parse(Format(d)) == Some(d)
  {
    var n := NatStr(d.coef / 100);
    var cents := d.coef % 100;
    var fp := [Digit(cents / 10), Digit(cents % 10)];
    UnsignedFormat(d);
    CentsTextValue(d.coef);
    assert IsDigits(fp) && |fp| == 2;
    var s := Format(d);
    assert |s| > 0 && (d.neg <==> s[0] == '-');
    ReadBack(s, n, fp, d);
  }

  /** A text read as digits, a point and two digits that spell d. */
  lemma ReadBack(s: string, n: string, fp: string, d: Dec)
    requires IsDigits(n) && IsDigits(fp) && |fp| == 2 && Unsigned(s) == n + ['.'] + fp
    requires d.exp == -2 && DigitsValue(n + fp) == d.coef && |s| > 0 && (d.neg <==> s[0] == '-')
    ensures Parse(s) == Some(d)
  {
    ParseWithPoint(s, n, fp);
  }

  /** Without its sign, the notation is whole part, point, two digits. */
  lemma UnsignedFormat(d: Dec)
    requires d.exp == -2
    ensures var cents := d.coef % 100;
      Unsigned(Format(d)) == NatStr(d.coef / 100) + ['.'] + [Digit(cents / 10), Digit(cents % 10)]
  {
    var t := CentsText(d.coef);
    CentsTextShape(d.coef);
    if d.neg {
      assert Format(d) == "-" + t && ("-" + t)[1..] == t;
    } else {
      assert Format(d) == t;
    }
  }

  /** The notation of a cent count: whole part, point, two digits, and no
      sign in front. */
  lemma CentsTextShape(c: nat)
    ensures CentsText(c) == NatStr(c / 100) + ['.'] + [Digit(c % 100 / 10), Digit(c % 100 % 10)]
    ensures CentsText(c)[0] != '-' && CentsText(c)[0] != '+'
  {
    var n := NatStr(c / 100);
    assert CentsText(c)[0] == n[0] && IsDigit(n[0]);
  }

  /** Distinct two-place decimals print differently. */
  lemma FormatInjective(d1: Dec, d2: Dec)
    requires d1.exp == -2 && d2.exp == -2
    requires Format(d1) == Format(d2)
    ensures d1 == d2
  {
    FormatRoundTrip(d1);
    FormatRoundTrip(d2);
  }

  /** The text "0.00" the engines compare against is exactly the positive zero. */
  lemma FormatIsZero(d: Dec)
    requires d.exp == -2
    ensures Format(d) == "0.00" <==> d == Dec(false, 0, -2)
  {
    var z := Dec(false, 0, -2);
    assert Format(z) == "0.00";
    if Format(d) == "0.00" {
      FormatInjective(d, z);
    }
  }

  // ---------------------------------------------------------------- sum_str

  /** sum_str(s1, s2): None stands for the exception Decimal raises on a text
      that is not a number. */
  function SumStr(s1: string, s2: string): (r: Option<string>)
    ensures r.Some? <==> IsDecimalText(s1) && IsDecimalText(s2)
    ensures r.Some? ==> IsMoneyText(r.value)
  {
    match (Parse(s1), Parse(s2))
    case (Some(a), Some(b)) => Some(Format(Quantize(Add(a, b))))
    case _ => None
  }

  /** Counting in smaller units multiplies by the power of ten between them. */
  lemma ScaleDown(d: Dec, m: int, e: int)
    requires e <= m <= d.exp
    ensures ScaledAt(d, e) == ScaledAt(d, m) * Pow10(m - e)
  {
    Pow10Add(d.exp - m, m - e);
    assert d.exp - e == (d.exp - m) + (m - e);
    MulAssoc(Signed(d), Pow10(d.exp - m), Pow10(m - e));
  }

  lemma MulAssoc(x: int, y: int, z: int)
    ensures x * (y * z) == (x * y) * z
  {
  }

  lemma MulDistRight(x: int, y: int, p: int)
    ensures x * p + y * p == (x + y) * p
  {
  }

  /** Quantizing an exact sum rounds the sum's magnitude half to even and
      keeps the sign of the sum. */
  lemma QuantizedSum(a: Dec, b: Dec)
    ensures
      var e := Min(Min(a.exp, b.exp), -2);
      var exact := ScaledAt(a, e) + ScaledAt(b, e);
      var c := Quantize(Add(a, b));
      && RoundsHalfEven(Abs(exact), Pow10(-2 - e), c.coef)
      && (c.neg <==> exact < 0 || (exact == 0 && a.neg && b.neg))
  {
    var r := Add(a, b);
    var m := r.exp;
    var e := Min(m, -2);
    ExactAt(a, b, e);
    SignOfScaled(r, Pow10(m - e));
    if m >= -2 {
      QuantizeWhole(r);
    } else {
      assert m - e == 0;
    }
  }

  /** The exact sum counted in units of 10^e. */
  lemma ExactAt(a: Dec, b: Dec, e: int)
    requires e <= Min(a.exp, b.exp)
    ensures ScaledAt(a, e) + ScaledAt(b, e) == Signed(Add(a, b)) * Pow10(Min(a.exp, b.exp) - e)
  {
    var m := Min(a.exp, b.exp);
    ScaleDown(a, m, e);
    ScaleDown(b, m, e);
    MulDistRight(ScaledAt(a, m), ScaledAt(b, m), Pow10(m - e));
  }

  /** Scaling by a positive factor keeps the sign and the zeroness. */
  lemma SignOfScaled(r: Dec, p: nat)
    requires p >= 1
    ensures Signed(r) * p < 0 <==> r.neg && r.coef > 0
    ensures Signed(r) * p == 0 <==> r.coef == 0
  {
    if r.coef > 0 {
      assert r.coef * p >= p;
    }
  }

  /** Quantizing a decimal with at most two places loses nothing. */
  lemma QuantizeWhole(r: Dec)
    requires r.exp >= -2
    ensures Abs(Signed(r) * Pow10(r.exp + 2)) == Quantize(r).coef
  {
    var p := Pow10(r.exp + 2);
    if r.neg {
      assert Signed(r) * p == -(r.coef * p);
    }
  }

  /** The result of sum_str is the exact sum, rounded half to even to whole
      hundredths; its sign is the sign of the exact sum, and a zero sum is
      negative only when both operands are. */
  lemma SumStrIsRoundedExactSum(s1: string, s2: string, a: Dec, b: Dec)
    requires Parse(s1) == Some(a) && Parse(s2) == Some(b)
    ensures SumStr(s1, s2).Some? && Parse(SumStr(s1, s2).value).Some?
    ensures
      var e := Min(Min(a.exp, b.exp), -2);
      var exact := ScaledAt(a, e) + ScaledAt(b, e);
      var c := Parse(SumStr(s1, s2).value).value;
      && c.exp == -2
      && RoundsHalfEven(Abs(exact), Pow10(-2 - e), c.coef)
      && (c.neg <==> exact < 0 || (exact == 0 && a.neg && b.neg))
  {
    var c := Quantize(Add(a, b));
    SumOf(s1, s2, a, b);
    FormatRoundTrip(c);
    QuantizedSum(a, b);
  }


  /** sum_str does not depend on the order of its operands. */
  lemma SumStrCommutes(s1: string, s2: string)
    ensures SumStr(s1, s2) == SumStr(s2, s1)
  {
    match (Parse(s1), Parse(s2))
    case (Some(a), Some(b)) =>
      assert Add(a, b) == Add(b, a);
    case _ =>
  }

  /** "0.00" reads as the positive zero with two fractional digits. */
  lemma ParseZero()
    ensures Parse("0.00") == Some(Dec(false, 0, -2))
  {
    ZeroPrinted(false);
    FormatRoundTrip(Dec(false, 0, -2));
  }

  /** Adding "0.00" to a two-place amount prints that amount again (except a
      negative zero, which the positive zero absorbs). */
  lemma ZeroIsIdentity(d: Dec)
    requires d.exp == -2 && (d.coef > 0 || !d.neg)
    ensures SumStr("0.00", Format(d)) == Some(Format(d))
  {
    var z := Dec(false, 0, -2);
    FormatRoundTrip(d);
    ParseZero();
    assert SumStr("0.00", Format(d)) == Some(Format(Quantize(Add(z, d))));
    assert Add(z, d) == d;
    assert Quantize(d) == d;
  }

  /** A text whose unsigned part is digits only reads with exponent 0. */
  lemma ParseInteger(s: string)
    requires IsDigits(Unsigned(s))
    ensures Parse(s) == Some(Dec(|s| > 0 && s[0] == '-', DigitsValue(Unsigned(s)), 0))
  {
    var b := Unsigned(s);
    assert forall i :: 0 <= i < |b| ==> b[i] != '.';
  }

  /** When both texts read, sum_str prints the quantized exact sum. */
  lemma SumOf(s1: string, s2: string, a: Dec, b: Dec)
    requires Parse(s1) == Some(a) && Parse(s2) == Some(b)
    ensures SumStr(s1, s2) == Some(Format(Quantize(Add(a, b))))
  {
  }

  /** The same, one step at a time: the exact sum, its quantization and its
      notation. */
  lemma SumSteps(s1: string, s2: string, a: Dec, b: Dec, e: Dec, q: Dec, t: string)
    requires Parse(s1) == Some(a) && Parse(s2) == Some(b)
    requires Add(a, b) == e && Quantize(e) == q && q.exp == -2 && Format(q) == t
    ensures SumStr(s1, s2) == Some(t)
  {
    SumOf(s1, s2, a, b);
  }

  /** The notation of a two-place decimal, digit by digit. */
  lemma FormatDigits(d: Dec, w: string, hi: char, lo: char)
    requires d.exp == -2 && NatStr(d.coef / 100) == w
    requires hi == Digit(d.coef % 100 / 10) && lo == Digit(d.coef % 100 % 10)
    ensures Format(d) == (if d.neg then "-" else "") + w + ['.', hi, lo]
  {
  }

  lemma NatStrDigit(n: nat)
    requires n < 10
    ensures NatStr(n) == [Digit(n)]
  {
  }

  // Readings of the literal texts the examples below use.

  lemma ParseSeven() ensures Parse("7") == Some(Dec(false, 7, 0)) { ParseInteger("7"); }

  lemma ParseOne() ensures Parse("1") == Some(Dec(false, 1, 0)) { ParseInteger("1"); }

  lemma ParseNought() ensures Parse("0") == Some(Dec(false, 0, 0)) { ParseInteger("0"); }

  lemma ParseMinusNought() ensures Parse("-0") == Some(Dec(true, 0, 0)) { ParseInteger("-0"); }

  lemma ParseMinusZero() ensures Parse("-0.00") == Some(Dec(true, 0, -2))
  {
    ZeroPrinted(true);
    FormatRoundTrip(Dec(true, 0, -2));
  }

  /** The value of four digits. */
  lemma DigitsValueFour(u: string)
    requires |u| == 4 && IsDigit(u[0]) && IsDigit(u[1]) && IsDigit(u[2]) && IsDigit(u[3])
    ensures DigitsValue(u) == 1000 * DigitValue(u[0]) + 100 * DigitValue(u[1]) + 10 * DigitValue(u[2]) + DigitValue(u[3])
  {
    var a, b, c := u[..3], u[..2], u[..1];
    assert a[..2] == b && b[..1] == c && c[..0] == [];
    assert a[2] == u[2] && b[1] == u[1] && c[0] == u[0];
    assert DigitsValue(c) == DigitValue(u[0]);
    assert DigitsValue(b) == 10 * DigitsValue(c) + DigitValue(u[1]);
    assert DigitsValue(a) == 10 * DigitsValue(b) + DigitValue(u[2]);
    assert DigitsValue(u) == 10 * DigitsValue(a) + DigitValue(u[3]);
  }

  /** A text d.ddd, with or without a minus, reads with three places. */
  lemma ParseThreePlaces(s: string, t: string)
    requires |t| == 5 && t[1] == '.' && IsDigit(t[0]) && IsDigit(t[2]) && IsDigit(t[3]) && IsDigit(t[4])
    requires s == t || s == ['-'] + t
    ensures Parse(s) == Some(Dec(s[0] == '-',
      1000 * DigitValue(t[0]) + 100 * DigitValue(t[2]) + 10 * DigitValue(t[3]) + DigitValue(t[4]), -3))
  {
    var ip, fp := [t[0]], [t[2], t[3], t[4]];
    assert t == ip + ['.'] + fp;
    UnsignedOfSigned(s, t);
    ParseWithPoint(s, ip, fp);
    FourDigits(t[0], t[2], t[3], t[4]);
  }

  lemma UnsignedOfSigned(s: string, t: string)
    requires |t| > 0 && IsDigit(t[0]) && (s == t || s == ['-'] + t)
    ensures Unsigned(s) == t && |s| > 0
  {
    if s != t {
      assert s[1..] == t;
    }
  }

  lemma FourDigits(a: char, b: char, c: char, d: char)
    requires IsDigit(a) && IsDigit(b) && IsDigit(c) && IsDigit(d)
    ensures DigitsValue([a] + [b, c, d]) == 1000 * DigitValue(a) + 100 * DigitValue(b) + 10 * DigitValue(c) + DigitValue(d)
  {
    var u := [a] + [b, c, d];
    assert u == [a, b, c, d];
    DigitsValueFour(u);
  }

  lemma ParseFiveThree() ensures Parse("5.321") == Some(Dec(false, 5321, -3))
  {
    ParseThreePlaces("5.321", "5.321");
  }

  lemma ParseMinusThreeSix() ensures Parse("-3.617") == Some(Dec(true, 3617, -3))
  {
    ParseThreePlaces("-3.617", "3.617");
  }

  lemma ParseHalfCent() ensures Parse("0.005") == Some(Dec(false, 5, -3))
  {
    ParseThreePlaces("0.005", "0.005");
  }

  lemma ParseThreeHalfCents() ensures Parse("0.015") == Some(Dec(false, 15, -3))
  {
    ParseThreePlaces("0.015", "0.015");
  }

  lemma ParseMinusMill() ensures Parse("-0.001") == Some(Dec(true, 1, -3))
  {
    ParseThreePlaces("-0.001", "0.001");
  }

  /** sum_str("7", "1") == "8.00": whole numbers gain two zero places. */
  lemma SumStrWholeNumbers()
    ensures SumStr("7", "1") == Some("8.00")
  {
    ParseSeven();
    ParseOne();
    var e := Dec(false, 8, 0);
    assert Add(Dec(false, 7, 0), Dec(false, 1, 0)) == e;
    assert Quantize(e) == Dec(false, 800, -2);
    EightPrinted();
    SumSteps("7", "1", Dec(false, 7, 0), Dec(false, 1, 0), e, Dec(false, 800, -2), "8.00");
  }

  lemma EightPrinted() ensures Format(Dec(false, 800, -2)) == "8.00"
  {
    NatStrDigit(8);
    FormatDigits(Dec(false, 800, -2), "8", '0', '0');
  }

  /** sum_str("5.321", "-3.617") == "1.70": three places rounded to two. */
  lemma SumStrMixedSigns()
    ensures SumStr("5.321", "-3.617") == Some("1.70")
  {
    ParseFiveThree();
    ParseMinusThreeSix();
    MixedAdd();
    MixedQuantize();
    MixedPrinted();
    SumSteps("5.321", "-3.617", Dec(false, 5321, -3), Dec(true, 3617, -3), Dec(false, 1704, -3), Dec(false, 170, -2), "1.70");
  }

  lemma MixedAdd() ensures Add(Dec(false, 5321, -3), Dec(true, 3617, -3)) == Dec(false, 1704, -3)
  {
    assert ScaledAt(Dec(false, 5321, -3), -3) == 5321;
    assert ScaledAt(Dec(true, 3617, -3), -3) == -3617;
  }

  lemma MixedQuantize() ensures Quantize(Dec(false, 1704, -3)) == Dec(false, 170, -2)
  {
    assert Pow10(1) == 10;
    assert DivHalfEven(1704, 10) == 170;
  }

  lemma MixedPrinted() ensures Format(Dec(false, 170, -2)) == "1.70"
  {
    NatStrDigit(1);
    FormatDigits(Dec(false, 170, -2), "1", '7', '0');
  }

  /** A text that is not a number makes sum_str fail. */
  lemma SumStrRejectsText()
    ensures SumStr("3.t", "-3.617") == None
  {
    NotANumber();
  }

  lemma NotANumber() ensures Parse("3.t") == None
  {
    var b := Unsigned("3.t");
    assert b == "3.t";
    assert FindChar(b, '.') == Some(1) by {
      assert b[0] != '.' && b[1] == '.';
      assert FindChar(b[1..], '.') == Some(0);
    }
    assert b[2..] == "t";
    assert !IsDigit('t');
  }

  /** The amount "3t14" of the bad-sum test is not a number, so any sum
      with it fails. */
  lemma SumStrRejectsBadAmount(a: string)
    ensures SumStr(a, "3t14") == None
  {
    var b := Unsigned("3t14");
    assert b == "3t14";
    assert !IsDigit(b[1]);
    assert Parse("3t14") == None by {
      assert forall k :: 0 < k < |b| && b[k] == '.' ==> false;
    }
  }

  /** The half-even boundary: 0.005 is a tie and rounds down to the even 0.00. */
  lemma SumStrTieDown()
    ensures SumStr("0.005", "0") == Some("0.00")
  {
    ParseHalfCent();
    ParseNought();
    var e := Dec(false, 5, -3);
    AddNought(e);
    TieDownQuantize();
    ZeroPrinted(false);
    SumSteps("0.005", "0", Dec(false, 5, -3), Dec(false, 0, 0), e, Dec(false, 0, -2), "0.00");
  }

  /** Adding the integer 0 to a non-zero decimal with a fraction changes
      nothing. */
  lemma AddNought(d: Dec)
    requires d.exp <= 0 && d.coef > 0
    ensures Add(d, Dec(false, 0, 0)) == d
  {
    assert ScaledAt(Dec(false, 0, 0), d.exp) == 0;
    assert Pow10(0) == 1;
    assert ScaledAt(d, d.exp) == Signed(d);
  }

  lemma TieDownQuantize() ensures Quantize(Dec(false, 5, -3)) == Dec(false, 0, -2)
  {
    assert Pow10(1) == 10;
    assert DivHalfEven(5, 10) == 0;
  }

  lemma ZeroPrinted(neg: bool) ensures Format(Dec(neg, 0, -2)) == if neg then "-0.00" else "0.00"
  {
    NatStrDigit(0);
    FormatDigits(Dec(neg, 0, -2), "0", '0', '0');
  }

  /** ... and 0.015 is a tie that rounds up to the even 0.02. */
  lemma SumStrTieUp()
    ensures SumStr("0.015", "0") == Some("0.02")
  {
    ParseThreeHalfCents();
    ParseNought();
    var e := Dec(false, 15, -3);
    AddNought(e);
    TieUpQuantize();
    TwoCentsPrinted();
    SumSteps("0.015", "0", Dec(false, 15, -3), Dec(false, 0, 0), e, Dec(false, 2, -2), "0.02");
  }

  lemma TieUpQuantize() ensures Quantize(Dec(false, 15, -3)) == Dec(false, 2, -2)
  {
    assert Pow10(1) == 10;
    assert DivHalfEven(15, 10) == 2;
  }

  lemma TwoCentsPrinted() ensures Format(Dec(false, 2, -2)) == "0.02"
  {
    NatStrDigit(0);
    FormatDigits(Dec(false, 2, -2), "0", '0', '2');
  }

  /** A negative sum that rounds to zero prints as "-0.00". */
  lemma SumStrNegativeRoundsToZero()
    ensures SumStr("-0.001", "0") == Some("-0.00")
  {
    ParseMinusMill();
    ParseNought();
    var e := Dec(true, 1, -3);
    AddNought(e);
    MillQuantize();
    ZeroPrinted(true);
    SumSteps("-0.001", "0", Dec(true, 1, -3), Dec(false, 0, 0), e, Dec(true, 0, -2), "-0.00");
  }

  lemma MillQuantize() ensures Quantize(Dec(true, 1, -3)) == Dec(true, 0, -2)
  {
    assert Pow10(1) == 10;
    assert DivHalfEven(1, 10) == 0;
  }

  /** The sum of two negative zeros is a negative zero. */
  lemma SumStrNegativeZeros()
    ensures SumStr("-0", "-0.00") == Some("-0.00")
  {
    ParseMinusNought();
    ParseMinusZero();
    var e := Dec(true, 0, -2);
    assert Add(Dec(true, 0, 0), Dec(true, 0, -2)) == e by {
      assert ScaledAt(Dec(true, 0, 0), -2) == 0;
      assert ScaledAt(Dec(true, 0, -2), -2) == 0;
    }
    assert Quantize(e) == e;
    ZeroPrinted(true);
    SumSteps("-0", "-0.00", Dec(true, 0, 0), Dec(true, 0, -2), e, e, "-0.00");
  }
}
