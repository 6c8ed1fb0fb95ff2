/**
 * Java's `int` arithmetic and the two number parsers the engine calls:
 * `Integer.parseInt` and (a documented subset of) `Double.parseDouble`.
 * Measurements are exact reals here, not IEEE doubles.
 */
module Numbers {
  import opened Wrappers
  import opened JavaText

  const MinInt32: int := -0x8000_0000
  const MaxInt32: int := 0x7FFF_FFFF

  /** The values of a Java `int`. */
  type Int32 = x: int | MinInt32 <= x <= MaxInt32

  /** Java `int` addition: two's-complement wrap-around at 32 bits. */
  function AddInt32(a: Int32, b: Int32): (r: Int32)
    ensures MinInt32 <= a + b <= MaxInt32 ==> r == a + b
    ensures (a + b - r) % 0x1_0000_0000 == 0
  {
    var s := a + b;
    if s > MaxInt32 then s - 0x1_0000_0000
    else if s < MinInt32 then s + 0x1_0000_0000
    else s
  }

  /** Java's integer `/` on a positive divisor: the quotient is truncated toward zero. */
  function JavaDiv(a: int, b: int): (q: int)
    requires b > 0
    ensures a >= 0 ==> q >= 0 && q * b <= a < q * b + b
    ensures a < 0 ==> q <= 0 && q * b - b < a <= q * b
  {
    if a >= 0 then
      assert a == (a / b) * b + a % b;
      a / b
    else
      var n := -a;
      assert n == (n / b) * b + n % b;
      -(n / b)
  }

  /** Java's `%` on a positive divisor: the remainder takes the sign of the dividend. */
  function JavaRem(a: int, b: int): (r: int)
    requires b > 0
    ensures a == JavaDiv(a, b) * b + r
    ensures a >= 0 ==> 0 <= r < b
    ensures a < 0 ==> -b < r <= 0
  {
    a - JavaDiv(a, b) * b
  }

  predicate IsDigit(c: char) {
    '0' <= c <= '9'
  }

  predicate AllDigits(s: string) {
    forall i :: 0 <= i < |s| ==> IsDigit(s[i])
  }

  function DigitValue(c: char): (v: nat)
    requires IsDigit(c)
    ensures v < 10
  {
    (c as int) - ('0' as int)
  }

  function DigitChar(d: nat): (c: char)
    requires d < 10
    ensures IsDigit(c) && DigitValue(c) == d
  {
    (('0' as int) + d) as char
  }

  /** The number a string of decimal digits denotes (most significant first). */
  function DigitsValue(s: string): nat
    requires AllDigits(s)
  {
    if s == [] then 0 else DigitsValue(s[..|s| - 1]) * 10 + DigitValue(s[|s| - 1])
  }

  function Pow10(n: nat): (p: nat)
    ensures p >= 1
  {
    if n == 0 then 1 else 10 * Pow10(n - 1)
  }

  /** Reading a concatenation shifts the first part by the length of the second. */
  lemma {:induction false} DigitsValueAppend(a: string, b: string)
    requires AllDigits(a) && AllDigits(b)
    ensures AllDigits(a + b)
    ensures DigitsValue(a + b) == DigitsValue(a) * Pow10(|b|) + DigitsValue(b)
    decreases |b|
  {
    if b == [] {
      assert a + b == a;
    } else {
      var b', d := b[..|b| - 1], DigitValue(b[|b| - 1]);
      assert (a + b)[..|a + b| - 1] == a + b';
      assert (a + b)[|a + b| - 1] == b[|b| - 1];
      DigitsValueAppend(a, b');
      var x, p := DigitsValue(a), Pow10(|b'|);
      assert DigitsValue(a + b) == (x * p + DigitsValue(b')) * 10 + d;
      ShiftDigit(x, p, DigitsValue(b'), d);
      assert Pow10(|b|) == 10 * p;
    }
  }

  /** Appending a digit to the low part of `x * p + v` is the same as shifting both parts one place. */
  lemma ShiftDigit(x: int, p: int, v: int, d: int)
    ensures (x * p + v) * 10 + d == x * (10 * p) + (v * 10 + d)
  {
  }

  /** The shortest decimal rendering of a natural number, as Java's `Integer.toString` writes it. */
  function DecimalDigits(n: nat): (s: string)
    ensures s != [] && AllDigits(s)
    ensures DigitsValue(s) == n
    decreases n
  {
    if n < 10 then
      assert [DigitChar(n)][..0] == [];
      [DigitChar(n)]
    else
      var front := DecimalDigits(n / 10);
      var s := front + [DigitChar(n % 10)];
      assert s[..|s| - 1] == front;
      s
  }

  /** An optional leading `-` or `+`, and the text after it. */
  function SignAndBody(s: string): (bool, string)
  {
    if s != [] && s[0] == '-' then (true, s[1..])
    else if s != [] && s[0] == '+' then (false, s[1..])
    else (false, s)
  }

  /**
   * `Integer.parseInt`: an optional sign and at least one ASCII digit, with a
   * value that fits in an `int`; anything else is a NumberFormatException,
   * modelled as None. No whitespace is tolerated.
   */
  function ParseInt(s: string): (r: Option<Int32>)
    ensures r.Some? ==> s != [] && forall i :: 0 <= i < |s| ==> IsDigit(s[i]) || (i == 0 && (s[i] == '-' || s[i] == '+'))
  {
    var (negative, body) := SignAndBody(s);
    if body == [] || !AllDigits(body) then None
    else
      var v: int := if negative then -(DigitsValue(body) as int) else DigitsValue(body);
      if MinInt32 <= v <= MaxInt32 then Some(v) else None
  }

  /** A rendered natural number is read back exactly when it fits in an `int`. */
  lemma ParseIntDecimal(n: nat)
    ensures ParseInt(DecimalDigits(n)).Some? <==> n <= MaxInt32
    ensures n <= MaxInt32 ==> ParseInt(DecimalDigits(n)) == Some(n)
  {
    var s := DecimalDigits(n);
    assert IsDigit(s[0]);
    assert SignAndBody(s) == (false, s);
  }

  /** A negative number is read back exactly when it is at least the smallest `int`. */
  lemma ParseIntNegative(n: nat)
    ensures ParseInt("-" + DecimalDigits(n)).Some? <==> n <= 0x8000_0000
    ensures n <= 0x8000_0000 ==> ParseInt("-" + DecimalDigits(n)) == Some(-(n as int))
  {
    var s := "-" + DecimalDigits(n);
    assert s[1..] == DecimalDigits(n);
  }

  /** The digits after a decimal point as a fraction: their value over ten to the power of their count. */
  function Fraction(frac: string): (f: real)
    requires AllDigits(frac)
    ensures 0.0 <= f < 1.0
  {
    DigitsBelowPow10(frac);
    QuotientBelow(DigitsValue(frac) as real, Pow10(|frac|) as real, 1.0);
    DigitsValue(frac) as real / Pow10(|frac|) as real
  }

  /** `n` digits are worth less than ten to the `n`. */
  lemma {:induction false} DigitsBelowPow10(s: string)
    requires AllDigits(s)
    ensures DigitsValue(s) < Pow10(|s|)
    decreases |s|
  {
    if s != [] {
      var s' := s[..|s| - 1];
      DigitsBelowPow10(s');
      assert DigitsValue(s) == DigitsValue(s') * 10 + DigitValue(s[|s| - 1]);
      assert DigitsValue(s') * 10 <= (Pow10(|s'|) - 1) * 10;
    }
  }

  function DecimalMagnitude(body: string): (r: Option<real>)
    ensures r.Some? ==> r.value >= 0.0
  {
    match SplitAtFirst(body, '.')
    case None =>
      if body != [] && AllDigits(body) then Some(DigitsValue(body) as real) else None
    case Some(parts) =>
      var (whole, frac) := parts;
      if (whole != [] || frac != []) && AllDigits(whole) && AllDigits(frac) then
        Some(DigitsValue(whole) as real + Fraction(frac))
      else None
  }

  /**
   * `Double.parseDouble` on the plain decimal subset of its grammar:
   * surrounding whitespace is trimmed (as Java does), then an optional sign
   * and an unsigned decimal. Exponents, hexadecimal, `NaN`, `Infinity` and
   * the `d`/`f` suffixes are not modelled. A rejected text is a
   * NumberFormatException, modelled as None.
   */
  function ParseDouble(s: string): (r: Option<real>)
    ensures r.Some? ==> Trim(s) != []
    ensures r.Some? <==> DecimalText(Trim(s))
  {
    DecimalMagnitudeAccepts(SignAndBody(Trim(s)).1);
    SignedDecimal(Trim(s))
  }

  /**
   * The texts the plain decimal grammar accepts: after an optional sign, a
   * non-empty run of ASCII digits and at most one point, other than a lone
   * point.
   */
  predicate DecimalText(t: string) {
    UnsignedDecimalText(SignAndBody(t).1)
  }

  predicate UnsignedDecimalText(body: string) {
    && body != [] && body != "."
    && (forall i :: 0 <= i < |body| ==> IsDigit(body[i]) || body[i] == '.')
    && (forall i, j :: 0 <= i < j < |body| && body[i] == '.' ==> body[j] != '.')
  }

  /** The unsigned part is read exactly when it has the decimal shape. */
  lemma DecimalMagnitudeAccepts(body: string)
    ensures DecimalMagnitude(body).Some? <==> UnsignedDecimalText(body)
  {
    SplitAtFirstSpec(body, '.');
    if SplitAtFirst(body, '.').Some? {
      var (a, b) := SplitAtFirst(body, '.').value;
      assert forall i :: 0 <= i < |a| ==> body[i] == a[i];
      assert body[|a|] == '.';
      assert forall i :: 0 <= i < |b| ==> body[|a| + 1 + i] == b[i];
    }
  }

  /** An optional sign followed by an unsigned decimal. */
  function SignedDecimal(t: string): (r: Option<real>)
    ensures r.Some? ==> t != []
  {
    var (negative, body) := SignAndBody(t);
    match DecimalMagnitude(body)
    case None => None
    case Some(m) => Some(if negative then -m else m)
  }

  /**
   * `Double.parseDouble(field.trim())`, the way the log loops read a number:
   * the explicit trim adds nothing, since `parseDouble` trims its argument
   * itself (`ReadDoubleTrims`).
   */
  function ReadDouble(field: string): (r: Option<real>)
    ensures r.Some? ==> Trim(field) != []
  {
    ParseDouble(field)
  }

  /** Reading a field is parsing its trimmed text. */
  lemma ReadDoubleTrims(field: string)
    ensures ReadDouble(field) == ParseDouble(Trim(field))
  {
    TrimIdempotent(field);
  }

  /** A rendered natural number reads back as the same real number. */
  lemma ParseDoubleDecimal(n: nat)
    ensures ParseDouble(DecimalDigits(n)) == Some(n as real)
  {
    var s := DecimalDigits(n);
    assert !IsTrimmable(s[0]) && !IsTrimmable(s[|s| - 1]);
    assert SignAndBody(s) == (false, s);
    assert forall i :: 0 <= i < |s| ==> s[i] != '.';
    SplitAtFirstSpec(s, '.');
  }

  /** A body of digits, a point and digits is the whole part plus the fraction. */
  lemma DecimalMagnitudeWithFraction(w: string, f: string)
    requires AllDigits(w) && AllDigits(f) && (w != [] || f != [])
    ensures DecimalMagnitude(w + "." + f) == Some(DigitsValue(w) as real + Fraction(f))
  {
    assert forall i :: 0 <= i < |w| ==> w[i] != '.';
    assert w + "." + f == w + ['.'] + f;
    SplitAtFirstUnique(w, f, '.');
  }

  /** A literal `w.f` of ASCII digits reads as the whole part `w` plus `f` over ten to the power of its length. */
  lemma ParseDoubleWithFraction(w: string, f: string)
    requires w != [] && AllDigits(w) && AllDigits(f)
    ensures ParseDouble(w + "." + f) == Some(DigitsValue(w) as real + Fraction(f))
    ensures DigitsValue(w) as real <= ParseDouble(w + "." + f).value < DigitsValue(w) as real + 1.0
  {
    var s := w + "." + f;
    assert s[0] == w[0] && IsDigit(w[0]);
    assert !IsTrimmable(s[|s| - 1]) by {
      if f != [] {
        assert s[|s| - 1] == f[|f| - 1];
        assert IsDigit(f[|f| - 1]);
      }
    }
    assert Trim(s) == s;
    assert SignAndBody(s) == (false, s);
    DecimalMagnitudeWithFraction(w, f);
  }

  /** With a leading minus, the same literal reads as the negated value. */
  lemma ParseDoubleNegativeFraction(w: string, f: string)
    requires w != [] && AllDigits(w) && AllDigits(f)
    ensures ParseDouble("-" + w + "." + f) == Some(-(DigitsValue(w) as real + Fraction(f)))
  {
    var body := w + "." + f;
    var s := "-" + body;
    assert s == "-" + w + "." + f;
    assert !IsTrimmable(s[0]);
    assert !IsTrimmable(s[|s| - 1]) by {
      if f != [] {
        assert s[|s| - 1] == f[|f| - 1];
        assert IsDigit(f[|f| - 1]);
      } else {
        assert s[|s| - 1] == '.';
      }
    }
    assert Trim(s) == s;
    assert SignAndBody(s) == (true, body);
    DecimalMagnitudeWithFraction(w, f);
  }

  /** A lone point, a second point and a doubled sign are all rejected. */
  lemma ParseDoubleRejectsExamples()
    ensures ParseDouble(".") == None
    ensures ParseDouble("1.2.3") == None
    ensures ParseDouble("+-5") == None
  {
    assert !UnsignedDecimalText("1.2.3") by {
      assert "1.2.3"[1] == '.' && "1.2.3"[3] == '.';
    }
    assert SignAndBody("+-5").1 == "-5";
    assert !UnsignedDecimalText("-5") by {
      assert !IsDigit("-5"[0]);
    }
  }

  /** A temperature as the log writes it. */
  lemma ParseDoubleExample()
    ensures ParseDouble("37.5") == Some(37.5)
  {
    ParseDoubleWithFraction("37", "5");
    assert "37" + "." + "5" == "37.5";
    assert DigitsValue("37") == 37 by {
      assert "37"[..1] == "3" && "3"[..0] == [];
    }
    assert DigitsValue("5") == 5 by {
      assert "5"[..0] == [];
    }
    assert Fraction("5") == 0.5;
  }

  /** A negative literal with a zero whole part. */
  lemma ParseDoubleNegativeExample()
    ensures ParseDouble("-0.25") == Some(-0.25)
  {
    ParseDoubleNegativeFraction("0", "25");
    assert "-" + "0" + "." + "25" == "-0.25";
    assert DigitsValue("0") == 0 by {
      assert "0"[..0] == [];
    }
    assert DigitsValue("25") == 25 by {
      assert "25"[..1] == "2" && "2"[..0] == [];
    }
    assert Pow10(2) == 100;
    assert Fraction("25") == 0.25;
  }


  /**
   * `Double.parseDouble` trims its argument but `Integer.parseInt` does not:
   * a leading blank is ignored by one and rejected by the other.
   */
  lemma LeadingBlank(c: char, s: string)
    requires IsTrimmable(c)
    ensures ParseDouble([c] + s) == ParseDouble(s)
    ensures ParseInt([c] + s) == None
  {
    LeadingBlankTrim(c, s);
    LeadingBlankInt(c, s);
  }

  lemma LeadingBlankInt(c: char, s: string)
    requires IsTrimmable(c)
    ensures ParseInt([c] + s) == None
  {
    var t := [c] + s;
    assert t[0] == c && !IsDigit(c) && c != '-' && c != '+';
  }

  lemma LeadingBlankTrim(c: char, s: string)
    requires IsTrimmable(c)
    ensures Trim([c] + s) == Trim(s)
  {
    var t := [c] + s;
    assert t[1..] == s;
    assert TrimStart(t) == TrimStart(s);
  }

  /** Multiplying both sides by a positive factor keeps a strict comparison. */
  lemma ScaleLess(a: real, b: real, k: real)
    requires k > 0.0
    ensures a < b <==> a * k < b * k
  {
  }

  /** A quotient by a positive divisor is below `c` exactly when the dividend is below `c` times the divisor. */
  lemma QuotientBelow(a: real, d: real, c: real)
    requires d > 0.0
    ensures a / d < c <==> a < c * d
  {
    ScaleLess(a / d, c, d);
  }

  /** Dividing by a negated divisor negates the quotient. */
  lemma NegateDivisor(x: real, d: real)
    requires d != 0.0
    ensures x / (-d) == -(x / d)
  {
    assert (x / d) * d == x;
    assert -(x / d) * (-d) == x;
  }

  /**
   * Dividing twice by a non-zero `m` stays below `c` exactly when the
   * dividend is below `c` times the square of `m`, whatever the sign of `m`.
   */
  lemma TwiceQuotientBelow(a: real, m: real, c: real)
    requires m != 0.0
    ensures a / m / m < c <==> a < c * (m * m)
  {
    if m > 0.0 {
      PositiveTwiceQuotientBelow(a, m, c);
    } else {
      DivideTwiceByNegation(a, m);
      PositiveTwiceQuotientBelow(a, -m, c);
      assert (-m) * (-m) == m * m;
    }
  }

  lemma PositiveTwiceQuotientBelow(a: real, m: real, c: real)
    requires m > 0.0
    ensures a / m / m < c <==> a < c * (m * m)
  {
    QuotientBelow(a / m, m, c);
    QuotientBelow(a, m, c * m);
  }

  /** Dividing twice by `m` or twice by `-m` gives the same quotient. */
  lemma DivideTwiceByNegation(a: real, m: real)
    requires m != 0.0
    ensures a / m / m == a / (-m) / (-m)
  {
    NegateDivisor(a, m);
    NegateDivisor(a / (-m), m);
  }
}
