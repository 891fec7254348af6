/** Numbers as text: the digits of a number in a base, their glyphs, and how such text is read back. */
module Numerals {
  import opened Bytes

  const DECIMAL: seq<Byte> := [48, 49, 50, 51, 52, 53, 54, 55, 56, 57]
  const HEX: seq<Byte> := DECIMAL + [65, 66, 67, 68, 69, 70]
  const MINUS: Byte := 45

  function Digits(n: nat, base: nat): seq<nat>
    requires base >= 2
    decreases n
  {
    if n < base then [n]
    else
      QuotientShrinks(n, base);
      Digits(n / base, base) + [n % base]
  }

  function Value(ds: seq<nat>, base: nat): nat {
    if ds == [] then 0 else Value(ds[..|ds| - 1], base) * base + ds[|ds| - 1]
  }

  /** Digits of the base, at least one, and no leading zero except for zero itself. */
  predicate Canonical(ds: seq<nat>, base: nat) {
    ds != [] && (forall i :: 0 <= i < |ds| ==> ds[i] < base) && (|ds| > 1 ==> ds[0] != 0)
  }

  lemma {:induction false} DigitsCanonical(n: nat, base: nat)
    requires base >= 2
    ensures Canonical(Digits(n, base), base) && (n > 0 ==> Digits(n, base)[0] != 0)
    decreases n
  {
    if n >= base {
      QuotientShrinks(n, base);
      DigitsCanonical(n / base, base);
    }
  }

  lemma QuotientShrinks(n: nat, base: nat)
    requires n >= base >= 2
    ensures 0 < n / base < n && n / base * base + n % base == n
  {
  }

  lemma {:induction false} ValueOfDigits(n: nat, base: nat)
    requires base >= 2
    ensures Value(Digits(n, base), base) == n
    decreases n
  {
    if n < base {
      assert [n][..0] == [];
    } else {
      QuotientShrinks(n, base);
      ValueOfDigits(n / base, base);
      var init := Digits(n / base, base);
      assert (init + [n % base])[..|init|] == init;
    }
  }

  lemma SplitQuotient(q: nat, d: nat, base: nat)
    requires d < base
    ensures (q * base + d) / base == q && (q * base + d) % base == d
  {
    var n := q * base + d;
    Uniquely(q, d, n / base, n % base, base);
  }

  lemma Uniquely(q: nat, d: nat, r: nat, e: nat, base: nat)
    requires d < base && e < base && q * base + d == r * base + e
    ensures q == r && d == e
  {
    if q < r {
      OneMore(q, r, base);
    } else if r < q {
      OneMore(r, q, base);
    }
  }

  lemma OneMore(q: nat, r: nat, base: nat)
    requires q < r
    ensures q * base + base <= r * base
  {
    var gap: nat := r - q - 1;
    assert r * base == (q + 1 + gap) * base == q * base + base + gap * base;
  }

  lemma {:induction false} DigitsOfValue(ds: seq<nat>, base: nat)
    requires base >= 2 && Canonical(ds, base)
    ensures Digits(Value(ds, base), base) == ds && (ds[0] != 0 ==> Value(ds, base) > 0)
  {
    hide Digits;
    var init, last := ds[..|ds| - 1], ds[|ds| - 1];
    assert ds == init + [last];
    if init != [] {
      DigitsOfValue(init, base);
      LastDigit(Value(init, base), last, base);
    } else {
      OneDigit(last, base);
    }
  }

  lemma OneDigit(d: nat, base: nat)
    requires base >= 2 && d < base
    ensures Value([d], base) == d && Digits(d, base) == [d]
  {
    assert [d][..0] == [];
    assert Value([], base) * base == 0;
  }

  lemma LastDigit(q: nat, d: nat, base: nat)
    requires base >= 2 && d < base && q > 0
    ensures Digits(q * base + d, base) == Digits(q, base) + [d] && q * base + d > 0
  {
    SplitQuotient(q, d, base);
    assert q * base >= base;
  }

  function Pow(base: nat, k: nat): nat {
    if k == 0 then 1 else base * Pow(base, k - 1)
  }

  lemma {:induction false} DigitsFewerThan(n: nat, base: nat, k: nat)
    requires base >= 2 && k >= 1 && n < Pow(base, k)
    ensures |Digits(n, base)| <= k
  {
    if n >= base {
      assert Pow(base, 1) == base;
      QuotientShrinks(n, base);
      assert n / base * base < base * Pow(base, k - 1);
      assert n / base < Pow(base, k - 1);
      DigitsFewerThan(n / base, base, k - 1);
    }
  }

  // Text

  /** A glyph for each digit, all of them different, and none of them the minus sign. */
  predicate Alphabet(glyphs: seq<Byte>) {
    && |glyphs| >= 2 && MINUS !in glyphs
    && forall i, j :: 0 <= i < j < |glyphs| ==> glyphs[i] != glyphs[j]
  }

  function Text(ds: seq<nat>, glyphs: seq<Byte>): (text: seq<Byte>)
    requires forall i :: 0 <= i < |ds| ==> ds[i] < |glyphs|
    ensures |text| == |ds|
  {
    seq(|ds|, i requires 0 <= i < |ds| => glyphs[ds[i]])
  }

  /** How a number is written. */
  function Written(n: nat, glyphs: seq<Byte>): seq<Byte>
    requires Alphabet(glyphs)
  {
    DigitsCanonical(n, |glyphs|);
    Text(Digits(n, |glyphs|), glyphs)
  }

  function Decimal(value: int): seq<Byte> {
    if value < 0 then [MINUS] + Written(-value, DECIMAL) else Written(value, DECIMAL)
  }

  function Index(glyphs: seq<Byte>, b: Byte): (i: Option<nat>)
    ensures i.Some? ==> i.value < |glyphs| && glyphs[i.value] == b
    ensures i.None? ==> b !in glyphs
  {
    if glyphs == [] then None
    else if glyphs[|glyphs| - 1] == b then Some(|glyphs| - 1)
    else Index(glyphs[..|glyphs| - 1], b)
  }

  function DigitsIn(text: seq<Byte>, glyphs: seq<Byte>): Option<seq<nat>> {
    if text == [] then Some([])
    else
      match (DigitsIn(text[..|text| - 1], glyphs), Index(glyphs, text[|text| - 1]))
      case (Some(init), Some(last)) => Some(init + [last])
      case _ => None
  }

  /** How text is read: one or more digits, leading zeros allowed. */
  function Read(text: seq<Byte>, glyphs: seq<Byte>): Option<nat> {
    match DigitsIn(text, glyphs)
    case Some(ds) => if ds == [] then None else Some(Value(ds, |glyphs|))
    case None => None
  }

  function ReadDecimal(text: seq<Byte>): Option<int> {
    if text != [] && text[0] == MINUS then
      match Read(text[1..], DECIMAL)
      case Some(n) => Some(-(n as int))
      case None => None
    else Read(text, DECIMAL)
  }

  lemma {:induction false} DigitsInText(ds: seq<nat>, glyphs: seq<Byte>)
    requires Alphabet(glyphs) && forall i :: 0 <= i < |ds| ==> ds[i] < |glyphs|
    ensures DigitsIn(Text(ds, glyphs), glyphs) == Some(ds)
  {
    if ds != [] {
      var init, last := ds[..|ds| - 1], ds[|ds| - 1];
      DigitsInText(init, glyphs);
      var text := Text(ds, glyphs);
      assert text[..|text| - 1] == Text(init, glyphs) && text[|text| - 1] == glyphs[last];
      assert ds == init + [last];
    }
  }

  lemma {:induction false} TextOfDigitsIn(text: seq<Byte>, glyphs: seq<Byte>)
    requires DigitsIn(text, glyphs).Some?
    ensures var ds := DigitsIn(text, glyphs).value;
            (forall i :: 0 <= i < |ds| ==> ds[i] < |glyphs|) && Text(ds, glyphs) == text
  {
    if text != [] {
      TextOfDigitsIn(text[..|text| - 1], glyphs);
    }
  }

  /** What is written is read back, in every base. */
  lemma ReadWritten(n: nat, glyphs: seq<Byte>)
    requires Alphabet(glyphs)
    ensures Read(Written(n, glyphs), glyphs) == Some(n)
  {
    DigitsCanonical(n, |glyphs|);
    DigitsInText(Digits(n, |glyphs|), glyphs);
    ValueOfDigits(n, |glyphs|);
  }

  /** Text of canonical digits is how its number is written. */
  lemma WrittenRead(text: seq<Byte>, glyphs: seq<Byte>)
    requires Alphabet(glyphs) && DigitsIn(text, glyphs).Some? && Canonical(DigitsIn(text, glyphs).value, |glyphs|)
    ensures Read(text, glyphs).Some? && Written(Read(text, glyphs).value, glyphs) == text
    ensures DigitsIn(text, glyphs).value[0] != 0 ==> Read(text, glyphs).value > 0
  {
    TextOfDigitsIn(text, glyphs);
    DigitsOfValue(DigitsIn(text, glyphs).value, |glyphs|);
  }

  /** The glyphs are those of the character set: 0 to 9 from 48 on, and A to F from 65 on. */
  lemma GlyphOf(d: nat)
    requires d < 16
    ensures HEX[d] == (if d < 10 then 48 + d else 55 + d) && (d < 10 ==> DECIMAL[d] == 48 + d) && MINUS == 45
  {
  }

  lemma DecimalAlphabet()
    ensures Alphabet(DECIMAL) && Alphabet(HEX) && |HEX| == 16
  {
  }

  /** Decimal text: digits without a leading zero, and a minus sign only before a number that is not zero. */
  predicate CanonicalDecimal(text: seq<Byte>) {
    var negative := text != [] && text[0] == MINUS;
    var digits := DigitsIn(if negative then text[1..] else text, DECIMAL);
    digits.Some? && Canonical(digits.value, 10) && (negative ==> digits.value[0] != 0)
  }

  lemma NoMinus(n: nat)
    ensures Written(n, DECIMAL) != [] && Written(n, DECIMAL)[0] != MINUS
  {
    DigitsCanonical(n, 10);
    assert Written(n, DECIMAL)[0] in DECIMAL;
  }

  /** For every integer, reading the text gives the integer, and the text is canonical. */
  lemma DecimalRoundTrip(value: int)
    ensures ReadDecimal(Decimal(value)) == Some(value) && CanonicalDecimal(Decimal(value))
  {
    DecimalAlphabet();
    var n: nat := if value < 0 then -value else value;
    ReadWritten(n, DECIMAL);
    DigitsCanonical(n, 10);
    DigitsInText(Digits(n, 10), DECIMAL);
    NoMinus(n);
    if value < 0 {
      assert Decimal(value)[1..] == Written(n, DECIMAL);
    }
  }

  /** Every canonical text is the text of an integer, so texts and integers correspond one to one. */
  lemma DecimalOfCanonical(text: seq<Byte>)
    requires CanonicalDecimal(text)
    ensures ReadDecimal(text).Some? && Decimal(ReadDecimal(text).value) == text
  {
    DecimalAlphabet();
    if text[0] == MINUS {
      WrittenRead(text[1..], DECIMAL);
      assert text == [MINUS] + text[1..];
    } else {
      WrittenRead(text, DECIMAL);
    }
  }

  /** Text is written from the most significant digit to the least: one more digit goes behind. */
  lemma DecimalByDigits(n: nat, d: nat)
    requires d < 10
    ensures Decimal(d) == [48 + d]
    ensures n > 0 ==> Decimal(10 * n + d) == Decimal(n) + [48 + d]
    ensures n > 0 ==> Decimal(-(n as int)) == [45] + Decimal(n)
  {
    DecimalAlphabet();
    GlyphOf(d);
    OneDigit(d, 10);
    if n > 0 {
      LastDigit(n, d, 10);
      DigitsCanonical(n, 10);
    }
  }

  lemma HexByDigits(n: nat, d: nat)
    requires d < 16
    ensures Alphabet(HEX) && Written(d, HEX) == [if d < 10 then 48 + d else 55 + d]
    ensures n > 0 ==> Written(16 * n + d, HEX) == Written(n, HEX) + [if d < 10 then 48 + d else 55 + d]
  {
    DecimalAlphabet();
    GlyphOf(d);
    OneDigit(d, 16);
    if n > 0 {
      LastDigit(n, d, 16);
      DigitsCanonical(n, 16);
    }
  }

  const MIN_INT64: int := -0x8000_0000_0000_0000
  const MAX_UINT64: int := 0xffff_ffff_ffff_ffff

  /** Signed or unsigned, of 64 bits or fewer. */
  predicate Fits64(value: int) {
    MIN_INT64 <= value <= MAX_UINT64
  }

  lemma PowersOfTen()
    ensures Pow(10, 19) == 10_000_000_000_000_000_000 && Pow(10, 20) == 100_000_000_000_000_000_000
  {
    assert Pow(10, 5) == 100_000;
    assert Pow(10, 10) == 10_000_000_000;
    assert Pow(10, 15) == 1_000_000_000_000_000;
  }

  lemma AtMostTwentyBytes(value: int)
    requires Fits64(value)
    ensures |Decimal(value)| <= 20
  {
    DecimalAlphabet();
    PowersOfTen();
    if value < 0 {
      DigitsFewerThan(-value, 10, 19);
    } else {
      DigitsFewerThan(value, 10, 20);
    }
  }

  lemma PowersOfSixteen()
    ensures Pow(16, 16) == MAX_UINT64 + 1
  {
    assert Pow(16, 4) == 0x1_0000;
    assert Pow(16, 8) == 0x1_0000_0000;
    assert Pow(16, 12) == 0x1_0000_0000_0000;
  }

  lemma AtMostSixteenBytes(value: nat)
    requires Fits64(value)
    ensures |Written(value, HEX)| <= 16
  {
    DecimalAlphabet();
    PowersOfSixteen();
    DigitsFewerThan(value, 16, 16);
  }
}
