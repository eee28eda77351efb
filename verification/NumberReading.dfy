/** The text of a number, read again as decimal notation: it denotes the number it was made from. */
module NumberReading {
  import opened Utf16
  import opened JsonText

  function Pow10(n: nat): int {
    if n == 0 then 1 else 10 * Pow10(n - 1)
  }

  /** The digits of a text as one number, whatever else is in it. */
  function Figures(t: Text): int {
    if t == [] then 0
    else
      var c, init := t[|t| - 1], Figures(t[..|t| - 1]);
      if 0x30 <= c < 0x3A then 10 * init + (c - 0x30) else init
  }

  /** How many units follow the decimal point, none if there is no point. */
  function Decimals(t: Text): nat {
    if 0x2E !in t || t[|t| - 1] == 0x2E then 0 else 1 + Decimals(t[..|t| - 1])
  }

  /** A text in decimal notation without a sign: digits with at most one point, and perhaps an exponent after an `e`. */
  datatype Notation = Notation(mantissa: Text, exponent: int)

  ghost predicate Reads(t: Text, n: Notation) {
    || (t == n.mantissa && 0x65 !in t && n.exponent == 0)
    || (exists sign: CodeUnit, digits: Text ::
          t == n.mantissa + [0x65, sign] + digits && 0x65 !in n.mantissa && digits != [] && AllDigits(digits)
          && ((sign == 0x2B && n.exponent == Figures(digits)) || (sign == 0x2D && n.exponent == -Figures(digits))))
  }

  /** The digits of a number as one number. */
  function Value(d: seq<int>): int {
    if d == [] then 0 else 10 * Value(d[..|d| - 1]) + d[|d| - 1]
  }

  lemma OneMoreUnit(t: Text, c: CodeUnit)
    ensures Figures(t + [c]) == if 0x30 <= c < 0x3A then 10 * Figures(t) + (c - 0x30) else Figures(t)
  {
    assert (t + [c])[..|t|] == t;
  }

  lemma OneMoreDigit(d: seq<int>, x: int)
    requires AreDigits(d) && 0 <= x < 10
    ensures Value(d + [x]) == 10 * Value(d) + x && AreDigits(d + [x]) && DigitsText(d + [x]) == DigitsText(d) + [ZERO + x]
  {
    assert (d + [x])[..|d|] == d;
  }

  lemma {:induction false} FiguresOfDigits(d: seq<int>)
    requires AreDigits(d)
    ensures Figures(DigitsText(d)) == Value(d)
    decreases |d|
  {
    if d != [] {
      FiguresOfDigits(d[..|d| - 1]);
      assert DigitsText(d)[..|d| - 1] == DigitsText(d[..|d| - 1]);
    }
  }

  lemma {:induction false} FiguresOfNat(n: nat)
    ensures Figures(NatText(n)) == n
    decreases n
  {
    if n >= 10 {
      FiguresOfNat(n / 10);
      assert NatText(n)[..|NatText(n)| - 1] == NatText(n / 10);
    } else {
      assert [ZERO + n][..0] == [];
    }
  }

  /** Zeros after the digits multiply by ten. */
  lemma {:induction false} FiguresWithZeros(t: Text, n: nat)
    ensures Figures(t + Zeros(n)) == Figures(t) * Pow10(n)
    decreases n
  {
    if n == 0 {
      assert t + Zeros(0) == t;
    } else {
      FiguresWithZeros(t, n - 1);
      assert (t + Zeros(n))[..|t| + n - 1] == t + Zeros(n - 1);
    }
  }

  lemma NoFigures()
    ensures Figures([]) == 0 && Value([]) == 0
  {
  }

  /** Zeros before the digits count for nothing. */
  lemma {:induction false} ZerosBefore(n: nat)
    ensures Figures([ZERO, POINT] + Zeros(n)) == 0
    decreases n
  {
    hide Figures;
    if n == 0 {
      NoFigures();
      OneMoreUnit([], ZERO);
      OneMoreUnit([ZERO], POINT);
      assert [] + [ZERO] == [ZERO] && [ZERO, POINT] + Zeros(0) == [ZERO] + [POINT];
    } else {
      ZerosBefore(n - 1);
      OneMoreUnit([ZERO, POINT] + Zeros(n - 1), ZERO);
      assert [ZERO, POINT] + Zeros(n) == [ZERO, POINT] + Zeros(n - 1) + [ZERO];
    }
  }

  lemma {:induction false} FiguresGoOn(t: Text, d: seq<int>, e: seq<int>)
    requires AreDigits(d) && AreDigits(e) && Figures(t) == Value(d)
    ensures AreDigits(d + e) && Figures(t + DigitsText(e)) == Value(d + e)
    decreases |e|
  {
    hide Figures, Value;
    if e == [] {
      assert t + DigitsText(e) == t && d + e == d;
    } else {
      var init, x := e[..|e| - 1], e[|e| - 1];
      FiguresGoOn(t, d, init);
      OneMoreDigit(init, x);
      OneMoreDigit(d + init, x);
      OneMoreUnit(t + DigitsText(init), ZERO + x);
      assert init + [x] == e && d + init + [x] == d + e;
      assert t + DigitsText(init) + [ZERO + x] == t + DigitsText(e);
    }
  }

  lemma {:induction false} DecimalsAfterPoint(a: Text, b: Text)
    requires 0x2E !in b
    ensures Decimals(a + [0x2E] + b) == |b|
    decreases |b|
  {
    var t := a + [0x2E] + b;
    assert t[|a|] == 0x2E;
    if b != [] {
      assert t[..|t| - 1] == a + [0x2E] + b[..|b| - 1];
      DecimalsAfterPoint(a, b[..|b| - 1]);
    }
  }

  lemma DigitsHaveNoMarks(d: seq<int>)
    requires AreDigits(d)
    ensures 0x2E !in DigitsText(d) && 0x65 !in DigitsText(d)
  {
  }

  /**
   The text of a positive number with the digits `d` and the point before the first of them shifted `point` places:
   read as mantissa and exponent it is worth exactly 0.d times ten to the power `point`.
   */
  ghost predicate Denotes(n: Notation, d: seq<int>, point: int) {
    var scale := point - |d| - (n.exponent - Decimals(n.mantissa));
    scale >= 0 && Figures(n.mantissa) == Value(d) * Pow10(scale)
  }

  lemma IntegerReads(d: Digits, point: int) returns (n: Notation)
    requires |d| <= point <= 21
    ensures Reads(Magnitude(d, point), n) && Denotes(n, d, point)
  {
    n := Notation(Magnitude(d, point), 0);
    DigitsHaveNoMarks(d);
    FiguresOfDigits(d);
    FiguresWithZeros(DigitsText(d), point - |d|);
    assert 0x2E !in n.mantissa && 0x65 !in n.mantissa;
  }

  lemma MixedReads(d: Digits, point: int) returns (n: Notation)
    requires 0 < point < |d| && point <= 21
    ensures Reads(Magnitude(d, point), n) && Denotes(n, d, point)
  {
    n := Notation(Magnitude(d, point), 0);
    PointReads(d, point);
  }

  /** Digits with a point after some of them. */
  lemma PointReads(d: Digits, point: int)
    requires 0 < point < |d|
    ensures var t := DigitsText(d[..point]) + [POINT] + DigitsText(d[point..]);
            Figures(t) == Value(d) && Decimals(t) == |d| - point && 0x65 !in t
  {
    hide Figures, Value, Decimals;
    var a, b := DigitsText(d[..point]), DigitsText(d[point..]);
    DigitsHaveNoMarks(d[..point]);
    DigitsHaveNoMarks(d[point..]);
    assert a + [POINT] + b == a + [0x2E] + b;
    DecimalsAfterPoint(a, b);
    FiguresOfDigits(d[..point]);
    OneMoreUnit(a, POINT);
    FiguresGoOn(a + [POINT], d[..point], d[point..]);
    assert d[..point] + d[point..] == d;
  }

  lemma FractionReads(d: Digits, point: int) returns (n: Notation)
    requires -6 < point <= 0
    ensures Reads(Magnitude(d, point), n) && Denotes(n, d, point)
  {
    n := Notation(Magnitude(d, point), 0);
    LeadingZeros(d, -point);
  }

  /** Zeros between the point and the digits. */
  lemma LeadingZeros(d: Digits, zeros: nat)
    ensures var t := [ZERO, POINT] + Zeros(zeros) + DigitsText(d);
            Figures(t) == Value(d) && Decimals(t) == zeros + |d| && 0x65 !in t
  {
    hide Figures, Value, Decimals, Zeros, DigitsText;
    NoFigures();
    ZerosBefore(zeros);
    FiguresGoOn([ZERO, POINT] + Zeros(zeros), [], d);
    assert [] + d == d;
    PlainDigits(d, zeros);
    DecimalsAfterPoint([ZERO], Zeros(zeros) + DigitsText(d));
    SameText(Zeros(zeros), DigitsText(d));
  }

  lemma PlainDigits(d: Digits, zeros: nat)
    ensures var b := Zeros(zeros) + DigitsText(d); |b| == zeros + |d| && 0x2E !in b && 0x65 !in b
  {
  }

  lemma SameText(a: Text, b: Text)
    ensures [ZERO] + [0x2E] + (a + b) == [ZERO, POINT] + a + b
    ensures 0x65 !in a + b ==> 0x65 !in [ZERO, POINT] + a + b
  {
    assert [ZERO] + [0x2E] + (a + b) == [ZERO, POINT] + (a + b);
    assert [ZERO, POINT] + a + b == [ZERO, POINT] + (a + b);
  }

  lemma MantissaReads(d: Digits)
    ensures Figures(Mantissa(d)) == Value(d) && Decimals(Mantissa(d)) == |d| - 1 && 0x65 !in Mantissa(d)
  {
    if |d| == 1 {
      DigitsHaveNoMarks(d);
      FiguresOfDigits(d);
      assert d[..1] == d && Mantissa(d) == DigitsText(d);
    } else {
      PointReads(d, 1);
      assert Mantissa(d) == DigitsText(d[..1]) + [POINT] + DigitsText(d[1..]);
    }
  }

  lemma ExponentialReads(d: Digits, point: int) returns (n: Notation)
    requires LayoutOf(d, point).Exponential?
    ensures Reads(Magnitude(d, point), n) && Denotes(n, d, point)
  {
    hide Figures, Value, Decimals, Mantissa, NatText;
    n := Notation(Mantissa(d), point - 1);
    MantissaReads(d);
    var e := if point < 1 then 1 - point else point - 1;
    var sign: CodeUnit, digits := if point < 1 then MINUS else PLUS, NatText(e);
    FiguresOfNat(e);
    assert Magnitude(d, point) == n.mantissa + [0x65, sign] + digits;
  }

  /**
   Every number text denotes its number: a minus sign exactly for a negative one, and then a text worth its digits at its
   point. An exponent is used exactly for numbers from 1e21 on and below 1e-6.
   */
  lemma NumberReadsBack(negative: bool, d: Digits, point: int) returns (n: Notation)
    ensures NumberText(Decimal(negative, d, point)) == (if negative then [0x2D] else []) + Magnitude(d, point)
    ensures Reads(Magnitude(d, point), n) && Denotes(n, d, point)
    ensures 0x65 in Magnitude(d, point) <==> point > 21 || point <= -6
  {
    LayoutFromText(d, point);
    match LayoutOf(d, point)
    case Integer => n := IntegerReads(d, point);
    case Mixed => n := MixedReads(d, point);
    case Fraction => n := FractionReads(d, point);
    case Exponential => n := ExponentialReads(d, point);
  }

  /** No digit too many: a whole number has no point, a fraction one zero before it, an exponent one digit before its point. */
  lemma NumberHasNoPadding(d: Digits, point: int)
    ensures
      var t, e := Magnitude(d, point), if point < 1 then 1 - point else point - 1;
      if point > 21 || point <= -6 then
        |t| == (if |d| == 1 then 1 else |d| + 1) + 2 + |NatText(e)| && (|d| > 1 ==> t[1] == 0x2E)
      else if point <= 0 then |t| == 2 - point + |d| && t[1] == 0x2E
      else |t| == if point < |d| then |d| + 1 else point
  {
    hide NatText, Mantissa;
    if LayoutOf(d, point).Exponential? { ExponentialLength(d, point); }
  }

  lemma ExponentialLength(d: Digits, point: int)
    requires LayoutOf(d, point).Exponential?
    ensures var e := if point < 1 then 1 - point else point - 1;
            |Magnitude(d, point)| == (if |d| == 1 then 1 else |d| + 1) + 2 + |NatText(e)| && (|d| > 1 ==> Magnitude(d, point)[1] == 0x2E)
  {
    hide NatText, DigitsText;
    assert |Mantissa(d)| == if |d| == 1 then 1 else |d| + 1;
    assert |d| > 1 ==> Mantissa(d)[1] == 0x2E;
  }

  /** Nor does a natural number: its first digit is no zero, but for zero itself. */
  lemma {:induction false} NatHasNoPadding(n: nat)
    ensures NatText(n)[0] == 0x30 <==> n == 0
    decreases n
  {
    if n >= 10 { NatHasNoPadding(n / 10); }
  }
}
