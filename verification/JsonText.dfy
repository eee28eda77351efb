/** The texts of JSON scalars: Number::toString of section 6.1.6.1.20 and QuoteJSONString of section 25.5.2.3 of ECMA-262. */
module JsonText {
  import opened Utf16

  /* ---------- numbers ---------- */

  predicate AreDigits(d: seq<int>) {
    forall i :: 0 <= i < |d| ==> 0 <= d[i] < 10
  }

  predicate Shortest(d: seq<int>) {
    |d| > 0 && AreDigits(d) && d[0] != 0 && d[|d| - 1] != 0
  }

  /** The shortest decimal digits that identify a number. */
  type Digits = d: seq<int> | Shortest(d) witness [1]

  /** A finite number: a zero with a sign, or 0.d1d2... times ten to the power `point`. */
  datatype Number = Zero(negative: bool) | Decimal(negative: bool, digits: Digits, point: int)

  const PLUS: CodeUnit := 0x2B
  const MINUS: CodeUnit := 0x2D
  const POINT: CodeUnit := 0x2E
  const ZERO: CodeUnit := 0x30
  const LETTER_E: CodeUnit := 0x65

  predicate IsDigit(c: CodeUnit) { ZERO <= c < ZERO + 10 }

  predicate IsNumberUnit(c: CodeUnit) { IsDigit(c) || c == PLUS || c == MINUS || c == POINT || c == LETTER_E }

  predicate AllDigits(t: Text) { forall i :: 0 <= i < |t| ==> IsDigit(t[i]) }

  predicate AllNumberUnits(t: Text) { forall i :: 0 <= i < |t| ==> IsNumberUnit(t[i]) }

  function DigitsText(d: seq<int>): (t: Text)
    requires AreDigits(d)
    ensures |t| == |d| && AllDigits(t) && forall i :: 0 <= i < |d| ==> t[i] == ZERO + d[i]
  {
    seq(|d|, i requires 0 <= i < |d| => ZERO + d[i])
  }

  function Zeros(n: nat): (t: Text)
    ensures |t| == n && AllDigits(t) && forall i :: 0 <= i < n ==> t[i] == ZERO
  {
    seq(n, i => ZERO)
  }

  function NatText(n: nat): (t: Text)
    ensures |t| > 0 && AllDigits(t)
  {
    if n < 10 then [ZERO + n] else NatText(n / 10) + [ZERO + n % 10]
  }

  lemma {:induction false} NatTextIsInjective(m: nat, n: nat)
    requires NatText(m) == NatText(n)
    ensures m == n
    decreases m
  {
    var t, u := NatText(m), NatText(n);
    assert t[|t| - 1] == ZERO + m % 10 && u[|u| - 1] == ZERO + n % 10;
    if m >= 10 && n >= 10 {
      assert NatText(m / 10) == t[..|t| - 1] && NatText(n / 10) == u[..|u| - 1];
      NatTextIsInjective(m / 10, n / 10);
    }
  }

  /** The mantissa of the exponential form: one digit, and the others after a point. */
  function Mantissa(d: Digits): Text {
    DigitsText(d[..1]) + if |d| == 1 then [] else [POINT] + DigitsText(d[1..])
  }

  function Exponent(e: int): Text {
    if e < 0 then [MINUS] + NatText(-e) else [PLUS] + NatText(e)
  }

  datatype Layout = Integer | Mixed | Fraction | Exponential

  function LayoutOf(d: Digits, point: int): Layout {
    if |d| <= point <= 21 then Integer else if 0 < point <= 21 then Mixed else if -6 < point <= 0 then Fraction else Exponential
  }

  function Magnitude(d: Digits, point: int): Text {
    match LayoutOf(d, point)
    case Integer => DigitsText(d) + Zeros(point - |d|)
    case Mixed => DigitsText(d[..point]) + [POINT] + DigitsText(d[point..])
    case Fraction => [ZERO, POINT] + Zeros(-point) + DigitsText(d)
    case Exponential => Mantissa(d) + [LETTER_E] + Exponent(point - 1)
  }

  function NumberText(x: Number): Text {
    match x
    case Zero(_) => [ZERO]
    case Decimal(negative, d, point) => (if negative then [MINUS] else []) + Magnitude(d, point)
  }

  lemma MantissaUnits(d: Digits)
    ensures |Mantissa(d)| == if |d| == 1 then 1 else |d| + 1
    ensures Mantissa(d)[0] == ZERO + d[0]
    ensures forall i :: 1 <= i < |d| ==> Mantissa(d)[i + 1] == ZERO + d[i]
  {
  }

  lemma ConcatUnits(a: Text, b: Text)
    requires AllNumberUnits(a) && AllNumberUnits(b)
    ensures AllNumberUnits(a + b)
  {
  }

  lemma ExponentialUnits(d: Digits, e: int)
    ensures AllNumberUnits(Mantissa(d) + [LETTER_E] + Exponent(e))
  {
    MantissaUnits(d);
    forall i | 0 <= i < |Mantissa(d)| ensures IsNumberUnit(Mantissa(d)[i]) {
      if i > 1 { assert Mantissa(d)[i - 1 + 1] == ZERO + d[i - 1]; }
    }
    ConcatUnits(Mantissa(d), [LETTER_E]);
    ConcatUnits(Mantissa(d) + [LETTER_E], Exponent(e));
  }

  lemma MagnitudeUnits(d: Digits, point: int)
    ensures |Magnitude(d, point)| > 0 && AllNumberUnits(Magnitude(d, point)) && IsDigit(Magnitude(d, point)[0])
  {
    match LayoutOf(d, point)
    case Integer =>
    case Mixed =>
    case Fraction =>
    case Exponential => ExponentialUnits(d, point - 1); MantissaUnits(d);
  }

  lemma NumberUnits(x: Number)
    ensures |NumberText(x)| > 0 && AllNumberUnits(NumberText(x)) && (NumberText(x)[0] == MINUS || IsDigit(NumberText(x)[0]))
  {
    if x.Decimal? { MagnitudeUnits(x.digits, x.point); }
  }

  /** The layout can be read off the text. */
  lemma LayoutFromText(d: Digits, point: int)
    ensures LayoutOf(d, point).Exponential? <==> LETTER_E in Magnitude(d, point)
    ensures LayoutOf(d, point).Integer? <==> LETTER_E !in Magnitude(d, point) && POINT !in Magnitude(d, point)
    ensures LayoutOf(d, point).Fraction? <==> LETTER_E !in Magnitude(d, point) && Magnitude(d, point)[0] == ZERO
  {
    var t := Magnitude(d, point);
    match LayoutOf(d, point)
    case Integer =>
    case Mixed => assert t[point] == POINT;
    case Fraction => assert t[1] == POINT;
    case Exponential => assert t[|Mantissa(d)|] == LETTER_E;
  }

  lemma IntegerIsInjective(d: Digits, m: int, e: Digits, n: int)
    requires LayoutOf(d, m).Integer? && LayoutOf(e, n).Integer? && Magnitude(d, m) == Magnitude(e, n)
    ensures d == e && m == n
  {
    var t := Magnitude(d, m);
    assert |t| == m && |t| == n;
    assert t[|d| - 1] != ZERO && forall k :: |d| <= k < |t| ==> t[k] == ZERO;
    assert t[|e| - 1] != ZERO && forall k :: |e| <= k < |t| ==> t[k] == ZERO;
    assert DigitsText(d) == t[..|d|] && DigitsText(e) == t[..|d|];
    SameDigits(d, e);
  }

  lemma SameDigits(d: seq<int>, e: seq<int>)
    requires AreDigits(d) && AreDigits(e) && DigitsText(d) == DigitsText(e)
    ensures d == e
  {
    forall i | 0 <= i < |d| ensures d[i] == e[i] {
      assert DigitsText(d)[i] == DigitsText(e)[i];
    }
  }

  /** A unit that one side lacks splits both texts at the same place. */
  lemma SplitAtMark(a: Text, b: Text, c: Text, d: Text, mark: CodeUnit)
    requires a + [mark] + b == c + [mark] + d && mark !in a && mark !in c
    ensures a == c && b == d
  {
    var t := a + [mark] + b;
    assert t[|a|] == mark && t[|c|] == mark;
    assert forall k :: 0 <= k < |a| ==> t[k] == a[k] != mark;
    assert forall k :: 0 <= k < |c| ==> t[k] == c[k] != mark;
    assert a == t[..|a|] && c == t[..|c|] && b == t[|a| + 1..] && d == t[|c| + 1..];
  }

  lemma MixedIsInjective(d: Digits, m: int, e: Digits, n: int)
    requires LayoutOf(d, m).Mixed? && LayoutOf(e, n).Mixed? && Magnitude(d, m) == Magnitude(e, n)
    ensures d == e && m == n
  {
    SplitAtMark(DigitsText(d[..m]), DigitsText(d[m..]), DigitsText(e[..n]), DigitsText(e[n..]), POINT);
    SameDigits(d[..m], e[..n]);
    SameDigits(d[m..], e[n..]);
    assert d == d[..m] + d[m..] && e == e[..n] + e[n..];
  }

  lemma FractionIsInjective(d: Digits, m: int, e: Digits, n: int)
    requires LayoutOf(d, m).Fraction? && LayoutOf(e, n).Fraction? && Magnitude(d, m) == Magnitude(e, n)
    ensures d == e && m == n
  {
    var t := Magnitude(d, m);
    assert t[2 - m] == ZERO + d[0] && forall k :: 2 <= k < 2 - m ==> t[k] == ZERO;
    assert t[2 - n] == ZERO + e[0] && forall k :: 2 <= k < 2 - n ==> t[k] == ZERO;
    assert DigitsText(d) == t[2 - m..] && DigitsText(e) == t[2 - n..];
    SameDigits(d, e);
  }

  lemma MantissaIsInjective(d: Digits, e: Digits)
    requires Mantissa(d) == Mantissa(e)
    ensures d == e
  {
    MantissaUnits(d);
    MantissaUnits(e);
    forall i | 0 <= i < |d| ensures d[i] == e[i] {
      assert i > 0 ==> Mantissa(d)[i + 1] == Mantissa(e)[i + 1];
    }
  }

  lemma ExponentialIsInjective(d: Digits, m: int, e: Digits, n: int)
    requires LayoutOf(d, m).Exponential? && LayoutOf(e, n).Exponential? && Magnitude(d, m) == Magnitude(e, n)
    ensures d == e && m == n
  {
    SplitAtMark(Mantissa(d), Exponent(m - 1), Mantissa(e), Exponent(n - 1), LETTER_E);
    MantissaIsInjective(d, e);
    assert Exponent(m - 1)[0] == Exponent(n - 1)[0];
    var i, j := if m < 1 then 1 - m else m - 1, if n < 1 then 1 - n else n - 1;
    assert NatText(i) == Exponent(m - 1)[1..] && NatText(j) == Exponent(n - 1)[1..];
    NatTextIsInjective(i, j);
  }

  lemma MagnitudeIsInjective(d: Digits, m: int, e: Digits, n: int)
    requires Magnitude(d, m) == Magnitude(e, n)
    ensures d == e && m == n
  {
    LayoutFromText(d, m);
    LayoutFromText(e, n);
    match LayoutOf(d, m)
    case Integer => IntegerIsInjective(d, m, e, n);
    case Mixed => MixedIsInjective(d, m, e, n);
    case Fraction => FractionIsInjective(d, m, e, n);
    case Exponential => ExponentialIsInjective(d, m, e, n);
  }

  /** No text but that of zero is a single 0. */
  lemma OnlyZeroIsZero(x: Number)
    ensures NumberText(x) == [ZERO] <==> x.Zero?
  {
    if x.Decimal? {
      MagnitudeUnits(x.digits, x.point);
      LayoutFromText(x.digits, x.point);
      if LayoutOf(x.digits, x.point).Fraction? { assert |Magnitude(x.digits, x.point)| >= 3; }
      assert NumberText(x) == Magnitude(x.digits, x.point) || NumberText(x)[0] == MINUS;
      assert Magnitude(x.digits, x.point)[0] == ZERO || NumberText(x)[0] != ZERO;
    }
  }

  /** The number without the sign of zero, which its text does not show. */
  function Unsigned(x: Number): Number {
    if x.Zero? then Zero(false) else x
  }

  /** The text of a number determines it, but for the sign of zero. */
  lemma NumberTextIsInjective(x: Number, y: Number)
    ensures NumberText(x) == NumberText(y) <==> Unsigned(x) == Unsigned(y)
  {
    if NumberText(x) == NumberText(y) {
      OnlyZeroIsZero(x);
      OnlyZeroIsZero(y);
      if x.Decimal? && y.Decimal? {
        MagnitudeUnits(x.digits, x.point);
        MagnitudeUnits(y.digits, y.point);
        assert NumberText(x)[0] == MINUS <==> x.negative;
        assert NumberText(y)[0] == MINUS <==> y.negative;
        assert Magnitude(x.digits, x.point) == NumberText(x)[if x.negative then 1 else 0..];
        assert Magnitude(y.digits, y.point) == NumberText(y)[if y.negative then 1 else 0..];
        MagnitudeIsInjective(x.digits, x.point, y.digits, y.point);
      }
    }
  }

  /* ---------- strings ---------- */

  const QUOTE: CodeUnit := 0x22
  const BACKSLASH: CodeUnit := 0x5C
  const LETTER_U: CodeUnit := 0x75

  function HexDigit(n: int): CodeUnit
    requires 0 <= n < 16
  {
    if n < 10 then ZERO + n else 0x57 + n
  }

  function Hex(c: CodeUnit): Text {
    [HexDigit(c / 0x10 / 0x10 / 0x10), HexDigit(c / 0x10 / 0x10 % 0x10), HexDigit(c / 0x10 % 0x10), HexDigit(c % 0x10)]
  }

  /** The letter of a two-unit escape. */
  function Short(c: CodeUnit): CodeUnit {
    if c == 0x08 then 0x62 else if c == 0x09 then 0x74 else if c == 0x0A then 0x6E else if c == 0x0C then 0x66
    else if c == 0x0D then 0x72 else if c == QUOTE then QUOTE else if c == BACKSLASH then BACKSLASH else 0
  }

  /** One code unit that is not half of a pair: as it is, or escaped. */
  function QuoteUnit(c: CodeUnit): Text {
    if Short(c) != 0 then [BACKSLASH, Short(c)]
    else if c < 0x20 || IsHigh(c) || IsLow(c) then [BACKSLASH, LETTER_U] + Hex(c)
    else [c]
  }

  function QuoteBody(t: Text): Text {
    if t == [] then [] else if StartsPair(t) then t[..2] + QuoteBody(t[2..]) else QuoteUnit(t[0]) + QuoteBody(t[1..])
  }

  function Quote(t: Text): Text {
    [QUOTE] + QuoteBody(t) + [QUOTE]
  }

  lemma HexIsInjective(c: CodeUnit, d: CodeUnit)
    requires Hex(c) == Hex(d)
    ensures c == d
  {
    assert Hex(c)[0] == Hex(d)[0] && Hex(c)[1] == Hex(d)[1];
    assert c / 0x10 / 0x10 == d / 0x10 / 0x10;
    assert Hex(c)[2] == Hex(d)[2] && Hex(c)[3] == Hex(d)[3];
    assert c / 0x10 == d / 0x10;
  }

  /** Two quoted units followed by anything: the first unit and what follows it are determined. */
  lemma UnitSplit(c: CodeUnit, d: CodeUnit, x: Text, y: Text)
    requires QuoteUnit(c) + x == QuoteUnit(d) + y
    ensures c == d && x == y
  {
    var t := QuoteUnit(c) + x;
    assert t[0] == QuoteUnit(c)[0] && t[0] == QuoteUnit(d)[0];
    if t[0] == BACKSLASH {
      assert t[1] == QuoteUnit(c)[1] && t[1] == QuoteUnit(d)[1];
      if t[1] == LETTER_U {
        assert Hex(c) == t[2..6] && Hex(d) == t[2..6];
        HexIsInjective(c, d);
      }
    }
    assert x == t[|QuoteUnit(c)|..] && y == t[|QuoteUnit(d)|..];
  }

  /** What quoting makes of the first character of a text, and the text after it. */
  function Piece(t: Text): Text
    requires t != []
  {
    if StartsPair(t) then t[..2] else QuoteUnit(t[0])
  }

  function Rest(t: Text): Text
    requires t != []
  {
    if StartsPair(t) then t[2..] else t[1..]
  }

  lemma PieceBegins(t: Text)
    requires t != []
    ensures Piece(t) != [] && Piece(t)[0] != QUOTE && (IsHigh(Piece(t)[0]) <==> StartsPair(t))
  {
  }

  /** The first character can be read back, whatever follows. */
  lemma PieceSplit(s: Text, t: Text, x: Text, y: Text)
    requires s != [] && t != [] && Piece(s) + x == Piece(t) + y
    ensures x == y && (Rest(s) == Rest(t) ==> s == t)
  {
    PieceBegins(s);
    PieceBegins(t);
    var whole := Piece(s) + x;
    assert whole[0] == Piece(s)[0] && whole[0] == Piece(t)[0];
    if StartsPair(s) {
      assert s[..2] == whole[..2] && t[..2] == whole[..2] && x == whole[2..] && y == whole[2..];
      assert s == s[..2] + s[2..] && t == t[..2] + t[2..];
    } else {
      UnitSplit(s[0], t[0], x, y);
      assert s == [s[0]] + s[1..] && t == [t[0]] + t[1..];
    }
  }

  /** The quotes delimit: a quoted string followed by anything can be read back. */
  lemma {:induction false} BodySplit(s: Text, t: Text, x: Text, y: Text)
    requires QuoteBody(s) + [QUOTE] + x == QuoteBody(t) + [QUOTE] + y
    ensures s == t && x == y
    decreases |s|
  {
    var whole := QuoteBody(s) + [QUOTE] + x;
    BodyBegins(s, x);
    BodyBegins(t, y);
    if s == [] {
      assert x == whole[1..] && y == whole[1..];
    } else {
      var s', t' := QuoteBody(Rest(s)) + [QUOTE] + x, QuoteBody(Rest(t)) + [QUOTE] + y;
      assert whole == Piece(s) + s' && whole == Piece(t) + t';
      PieceSplit(s, t, s', t');
      BodySplit(Rest(s), Rest(t), x, y);
    }
  }

  lemma BodyBegins(t: Text, x: Text)
    ensures t == [] <==> (QuoteBody(t) + [QUOTE] + x)[0] == QUOTE
    ensures t != [] ==> QuoteBody(t) + [QUOTE] + x == Piece(t) + (QuoteBody(Rest(t)) + [QUOTE] + x)
  {
    if t != [] { PieceBegins(t); }
  }

  lemma QuoteSplit(s: Text, t: Text, x: Text, y: Text)
    requires Quote(s) + x == Quote(t) + y
    ensures s == t && x == y
  {
    var whole := Quote(s) + x;
    assert whole[1..] == QuoteBody(s) + [QUOTE] + x && whole[1..] == QuoteBody(t) + [QUOTE] + y;
    BodySplit(s, t, x, y);
  }

  /** Quoting leaves no lone surrogate, whatever the string. */
  lemma {:induction false} QuoteBodyIsWellFormed(t: Text)
    ensures WellFormed(QuoteBody(t))
    decreases |t|
  {
    if t != [] {
      if StartsPair(t) {
        assert WellFormed(t[..2]) by { assert t[..2][2..] == []; }
        QuoteBodyIsWellFormed(t[2..]);
        WellFormedConcat(t[..2], QuoteBody(t[2..]));
      } else {
        PlainIsWellFormed(QuoteUnit(t[0]));
        QuoteBodyIsWellFormed(t[1..]);
        WellFormedConcat(QuoteUnit(t[0]), QuoteBody(t[1..]));
      }
    }
  }

  lemma {:induction false} PlainIsWellFormed(t: Text)
    requires forall i :: 0 <= i < |t| ==> !IsHigh(t[i]) && !IsLow(t[i])
    ensures WellFormed(t)
    decreases |t|
  {
    if t != [] { PlainIsWellFormed(t[1..]); }
  }

  lemma QuoteIsWellFormed(t: Text)
    ensures WellFormed(Quote(t))
  {
    QuoteBodyIsWellFormed(t);
    PlainIsWellFormed([QUOTE]);
    WellFormedConcat([QUOTE], QuoteBody(t));
    WellFormedConcat([QUOTE] + QuoteBody(t), [QUOTE]);
  }
}
