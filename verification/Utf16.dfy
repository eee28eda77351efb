/** Strings of the runtime: UTF-16 code units, and their UTF-8 encoding, where a lone surrogate becomes U+FFFD. */
module Utf16 {

  type CodeUnit = c: int | 0 <= c < 0x1_0000

  type Text = seq<CodeUnit>

  type Byte = b: int | 0 <= b < 0x100

  predicate IsHigh(c: CodeUnit) { 0xD800 <= c < 0xDC00 }

  predicate IsLow(c: CodeUnit) { 0xDC00 <= c < 0xE000 }

  predicate StartsPair(t: Text) { |t| >= 2 && IsHigh(t[0]) && IsLow(t[1]) }

  /** Every surrogate is half of a pair. */
  predicate WellFormed(t: Text) {
    t == [] || if StartsPair(t) then WellFormed(t[2..]) else !IsHigh(t[0]) && !IsLow(t[0]) && WellFormed(t[1..])
  }

  lemma {:induction false} WellFormedConcat(a: Text, b: Text)
    requires WellFormed(a) && WellFormed(b)
    ensures WellFormed(a + b)
    decreases |a|
  {
    if a == [] {
      assert a + b == b;
    } else if StartsPair(a) {
      assert (a + b)[2..] == a[2..] + b;
      WellFormedConcat(a[2..], b);
    } else {
      assert (a + b)[1..] == a[1..] + b;
      WellFormedConcat(a[1..], b);
    }
  }

  /* ---------- UTF-8 ---------- */

  function EncodeUnit(c: CodeUnit): seq<Byte> {
    if c < 0x80 then [c]
    else if c < 0x800 then [0xC0 + c / 0x40, 0x80 + c % 0x40]
    else if IsHigh(c) || IsLow(c) then [0xEF, 0xBF, 0xBD]
    else [0xE0 + c / 0x1000, 0x80 + c / 0x40 % 0x40, 0x80 + c % 0x40]
  }

  function CodePoint(high: CodeUnit, low: CodeUnit): int
    requires IsHigh(high) && IsLow(low)
  {
    0x1_0000 + (high - 0xD800) * 0x400 + (low - 0xDC00)
  }

  function EncodePair(high: CodeUnit, low: CodeUnit): seq<Byte>
    requires IsHigh(high) && IsLow(low)
  {
    var point := CodePoint(high, low);
    var upper := point / 0x40 / 0x40;
    [0xF0 + upper / 0x40, 0x80 + upper % 0x40, 0x80 + point / 0x40 % 0x40, 0x80 + point % 0x40]
  }

  function Encode(t: Text): seq<Byte> {
    if t == [] then [] else if StartsPair(t) then EncodePair(t[0], t[1]) + Encode(t[2..]) else EncodeUnit(t[0]) + Encode(t[1..])
  }

  function ByteLength(t: Text): nat {
    |Encode(t)|
  }

  /** Encoding works piece by piece as long as the seam does not join a surrogate pair. */
  lemma {:induction false} EncodeConcat(a: Text, b: Text)
    requires b != [] ==> !IsLow(b[0])
    ensures Encode(a + b) == Encode(a) + Encode(b)
    decreases |a|
  {
    if a == [] {
      assert a + b == b;
    } else if StartsPair(a) {
      assert (a + b)[2..] == a[2..] + b;
      EncodeConcat(a[2..], b);
    } else {
      assert (a + b)[1..] == a[1..] + b;
      EncodeConcat(a[1..], b);
    }
  }

  /** A continuation byte carries six bits. */
  predicate Continues(b: Byte) { 0x80 <= b < 0xC0 }

  function Bits(b: Byte, mark: int): int { b - mark }

  /** The bytes of a code unit that is no surrogate, read as RFC 3629 reads them, are its value again; a lone surrogate is U+FFFD. */
  lemma UnitReadsBack(c: CodeUnit)
    ensures var b := EncodeUnit(c);
            if 0xD800 <= c < 0xE000 then b == [0xEF, 0xBF, 0xBD]
            else if c < 0x80 then b == [c]
            else if c < 0x800 then |b| == 2 && 0xC2 <= b[0] < 0xE0 && Continues(b[1]) && Bits(b[0], 0xC0) * 0x40 + Bits(b[1], 0x80) == c
            else |b| == 3 && 0xE0 <= b[0] < 0xF0 && Continues(b[1]) && Continues(b[2])
                 && Bits(b[0], 0xE0) * 0x1000 + Bits(b[1], 0x80) * 0x40 + Bits(b[2], 0x80) == c
  {
  }

  lemma PairReadsBack(high: CodeUnit, low: CodeUnit)
    requires 0xD800 <= high < 0xDC00 && 0xDC00 <= low < 0xE000
    ensures var b := EncodePair(high, low);
            |b| == 4 && 0xF0 <= b[0] < 0xF5 && Continues(b[1]) && Continues(b[2]) && Continues(b[3])
            && Bits(b[0], 0xF0) * 0x4_0000 + Bits(b[1], 0x80) * 0x1000 + Bits(b[2], 0x80) * 0x40 + Bits(b[3], 0x80)
               == 0x1_0000 + (high - 0xD800) * 0x400 + (low - 0xDC00)
  {
  }

  /** A text is encoded piece by piece; a high surrogate and the low one behind it are one piece. */
  lemma PiecesAreEncoded(t: Text)
    ensures Encode([]) == []
    ensures t != [] ==>
              Encode(t) == if |t| >= 2 && 0xD800 <= t[0] < 0xDC00 && 0xDC00 <= t[1] < 0xE000 then EncodePair(t[0], t[1]) + Encode(t[2..])
                           else EncodeUnit(t[0]) + Encode(t[1..])
  {
  }

  lemma UnitFromBytes(c: CodeUnit, d: CodeUnit)
    requires !IsHigh(c) && !IsLow(c) && !IsHigh(d) && !IsLow(d) && EncodeUnit(c) == EncodeUnit(d)
    ensures c == d
  {
    hide EncodeUnit;
    UnitReadsBack(c);
    UnitReadsBack(d);
  }

  lemma PairFromBytes(h: CodeUnit, l: CodeUnit, h': CodeUnit, l': CodeUnit)
    requires IsHigh(h) && IsLow(l) && IsHigh(h') && IsLow(l') && EncodePair(h, l) == EncodePair(h', l')
    ensures h == h' && l == l'
  {
    var p, q := CodePoint(h, l), CodePoint(h', l');
    assert EncodePair(h, l)[0] == EncodePair(h', l')[0] && EncodePair(h, l)[1] == EncodePair(h', l')[1];
    assert p / 0x40 / 0x40 == q / 0x40 / 0x40;
    assert EncodePair(h, l)[2] == EncodePair(h', l')[2] && EncodePair(h, l)[3] == EncodePair(h', l')[3];
    assert p / 0x40 == q / 0x40;
    assert p == q;
  }

  /** How many bytes the first piece of a well-formed text takes follows from its first byte. */
  function PieceLength(b: Byte): nat {
    if b < 0x80 then 1 else if b < 0xE0 then 2 else if b < 0xF0 then 3 else 4
  }

  lemma SplitEqual(a: seq<Byte>, b: seq<Byte>, x: seq<Byte>, y: seq<Byte>)
    requires a + x == b + y && |a| == |b|
    ensures a == b && x == y
  {
    assert a == (a + x)[..|a|] && b == (b + y)[..|b|];
    assert x == (a + x)[|a|..] && y == (b + y)[|b|..];
  }

  /** The bytes of the first character, and the text after it. */
  function Piece(t: Text): seq<Byte>
    requires t != []
  {
    if StartsPair(t) then EncodePair(t[0], t[1]) else EncodeUnit(t[0])
  }

  function Rest(t: Text): Text
    requires t != []
  {
    if StartsPair(t) then t[2..] else t[1..]
  }

  lemma FirstPiece(t: Text)
    requires t != [] && WellFormed(t)
    ensures Piece(t) != [] && PieceLength(Piece(t)[0]) == |Piece(t)| && (StartsPair(t) <==> |Piece(t)| == 4)
    ensures Encode(t) == Piece(t) + Encode(Rest(t)) && Encode(t)[0] == Piece(t)[0] && WellFormed(Rest(t))
  {
  }

  /** The first character can be read off its bytes. */
  lemma PieceIsInjective(a: Text, b: Text)
    requires a != [] && b != [] && WellFormed(a) && WellFormed(b) && Piece(a) == Piece(b) && (StartsPair(a) <==> StartsPair(b)) && Rest(a) == Rest(b)
    ensures a == b
  {
    if StartsPair(a) {
      PairFromBytes(a[0], a[1], b[0], b[1]);
      assert a == [a[0], a[1]] + a[2..] && b == [b[0], b[1]] + b[2..];
    } else {
      UnitFromBytes(a[0], b[0]);
      assert a == [a[0]] + a[1..] && b == [b[0]] + b[1..];
    }
  }

  /** No two well-formed texts share an encoding. */
  lemma {:induction false} EncodeIsInjective(a: Text, b: Text)
    requires WellFormed(a) && WellFormed(b) && Encode(a) == Encode(b)
    ensures a == b
    decreases |a|
  {
    if a != [] { FirstPiece(a); }
    if b != [] { FirstPiece(b); }
    if a != [] && b != [] {
      hide Piece, Encode, WellFormed, StartsPair;
      SplitEqual(Piece(a), Piece(b), Encode(Rest(a)), Encode(Rest(b)));
      RestIsShorter(a);
      EncodeIsInjective(Rest(a), Rest(b));
      PieceIsInjective(a, b);
    }
  }

  lemma RestIsShorter(t: Text)
    requires t != []
    ensures |Rest(t)| < |t|
  {
  }
}
