/** Formatting of integers into a buffer: digits from the back, a sign, and a reversal in place. */
module LogStream {
  import opened Bytes
  import opened Numerals
  import opened FixedBuffers

  /** The digits 9 to 1, 0, and 1 to 9, so that a remainder of either sign finds its digit around the middle. */
  const MIRRORED: seq<Byte> := [57, 56, 55, 54, 53, 52, 51, 50, 49, 48, 49, 50, 51, 52, 53, 54, 55, 56, 57]
  const ZERO: nat := 9
  const MAX_NUMERIC_SIZE: nat := 48

  /** Division that truncates toward zero. */
  function TruncatedDiv(a: int, b: int): int
    requires b > 0
  {
    if a < 0 then -(-a / b) else a / b
  }

  function TruncatedMod(a: int, b: int): int
    requires b > 0
  {
    if a < 0 then -(-a % b) else a % b
  }

  function Abs(a: int): nat {
    if a < 0 then -a else a
  }

  function Reversed(s: seq<Byte>): (r: seq<Byte>)
    ensures |r| == |s|
  {
    seq(|s|, i requires 0 <= i < |s| => s[|s| - 1 - i])
  }

  lemma IsReversed(s: seq<Byte>, r: seq<Byte>)
    requires |r| == |s| && forall k :: 0 <= k < |r| ==> r[k] == s[|s| - 1 - k]
    ensures r == Reversed(s)
  {
  }

  lemma ReversedPush(s: seq<Byte>, last: Byte)
    ensures Reversed(s + [last]) == [last] + Reversed(s)
  {
  }

  lemma Mirror(d: nat)
    requires d < 10
    ensures MIRRORED[ZERO + d] == MIRRORED[ZERO - d] == DECIMAL[d]
  {
  }

  function Rest(i: int): seq<Byte> {
    if i != 0 then Written(Abs(i), DECIMAL) else []
  }

  /** The remainder of either sign selects the last digit. */
  lemma LastGlyph(i: int)
    ensures 0 <= ZERO + TruncatedMod(i, 10) < |MIRRORED|
    ensures Written(Abs(i), DECIMAL) == Rest(TruncatedDiv(i, 10)) + [MIRRORED[ZERO + TruncatedMod(i, 10)]]
    ensures Abs(TruncatedDiv(i, 10)) <= Abs(i) && (TruncatedDiv(i, 10) != 0 ==> Abs(TruncatedDiv(i, 10)) < Abs(i))
  {
    hide Written;
    LastDigitWritten(Abs(i), DECIMAL);
    Mirror(Abs(i) % 10);
  }

  lemma DigitMoves(i: int, done: seq<Byte>, total: seq<Byte>)
    requires Written(Abs(i), DECIMAL) + Reversed(done) == total
    ensures 0 <= ZERO + TruncatedMod(i, 10) < |MIRRORED|
    ensures Rest(TruncatedDiv(i, 10)) + Reversed(done + [MIRRORED[ZERO + TruncatedMod(i, 10)]]) == total
    ensures |done| < |total|
  {
    hide Written, Rest, TruncatedMod, TruncatedDiv, Reversed;
    LastGlyph(i);
    var glyph := MIRRORED[ZERO + TruncatedMod(i, 10)];
    ReversedPush(done, glyph);
    assert Rest(TruncatedDiv(i, 10)) + [glyph] + Reversed(done)
        == Rest(TruncatedDiv(i, 10)) + ([glyph] + Reversed(done));
  }

  lemma LastDigitWritten(n: nat, glyphs: seq<Byte>)
    requires Alphabet(glyphs)
    ensures Written(n, glyphs) ==
            (if n / |glyphs| != 0 then Written(n / |glyphs|, glyphs) else []) + [glyphs[n % |glyphs|]]
  {
    DigitsCanonical(n, |glyphs|);
    if n < |glyphs| {
      SplitQuotient(0, n, |glyphs|);
    } else {
      QuotientShrinks(n, |glyphs|);
      DigitsCanonical(n / |glyphs|, |glyphs|);
    }
  }

  /** Reverses a range in place. */
  method Reverse(buf: array<Byte>, from: nat, to: nat)
    requires from <= to <= buf.Length
    modifies buf
    ensures buf[from..to] == Reversed(old(buf[from..to]))
    ensures forall k :: 0 <= k < from || to <= k < buf.Length ==> buf[k] == old(buf[k])
  {
    hide Reversed;
    var i, j := from, to;
    while i + 1 < j
      invariant from <= i <= j + 1 && j <= to && i - from == to - j
      invariant forall k :: from <= k < i ==> buf[k] == old(buf[from + to - 1 - k])
      invariant forall k :: j <= k < to ==> buf[k] == old(buf[from + to - 1 - k])
      invariant forall k :: i <= k < j ==> buf[k] == old(buf[k])
      invariant forall k :: 0 <= k < from || to <= k < buf.Length ==> buf[k] == old(buf[k])
    {
      j := j - 1;
      buf[i], buf[j] := buf[j], buf[i];
      i := i + 1;
    }
    ghost var was, now := old(buf[from..to]), buf[from..to];
    forall k | 0 <= k < |now|
      ensures now[k] == was[|was| - 1 - k]
    {
      assert buf[from + k] == old(buf[to - 1 - k]);
    }
    IsReversed(was, now);
  }

  /** Writes the digits of a number, the last one first. */
  method PutDigits(buf: array<Byte>, start: nat, value: int) returns (p: nat)
    requires start + |Written(Abs(value), DECIMAL)| <= buf.Length
    modifies buf
    ensures p == start + |Written(Abs(value), DECIMAL)| && Reversed(buf[start..p]) == Written(Abs(value), DECIMAL)
    ensures forall k :: 0 <= k < start || p <= k < buf.Length ==> buf[k] == old(buf[k])
  {
    hide Written, TruncatedMod, TruncatedDiv, Abs;
    var i := value;
    p := start;
    ghost var total := Written(Abs(value), DECIMAL);
    var more := true;
    while more
      invariant start <= p <= buf.Length
      invariant (if more then Written(Abs(i), DECIMAL) else []) + Reversed(buf[start..p]) == total
      invariant forall k :: 0 <= k < start || p <= k < buf.Length ==> buf[k] == old(buf[k])
      decreases more, Abs(i)
    {
      DigitMoves(i, buf[start..p], total);
      LastGlyph(i);
      ghost var done := buf[start..p];
      var lsd := TruncatedMod(i, 10);
      i := TruncatedDiv(i, 10);
      buf[p] := MIRRORED[ZERO + lsd];
      p := p + 1;
      more := i != 0;
      assert buf[start..p] == done + [MIRRORED[ZERO + lsd]];
    }
  }

  /** Writes a decimal number and a terminating zero at a place in a buffer. */
  method Convert(buf: array<Byte>, start: nat, value: int) returns (len: nat)
    requires start + |Decimal(value)| < buf.Length
    modifies buf
    ensures len == |Decimal(value)| && buf[start..start + len] == Decimal(value) && buf[start + len] == 0
    ensures forall k :: 0 <= k < start || start + len < k < buf.Length ==> buf[k] == old(buf[k])
  {
    hide Written, Reversed;
    var p := PutDigits(buf, start, value);
    ghost var digits := buf[start..p];
    if value < 0 {
      ReversedPush(digits, MINUS);
      buf[p] := MINUS;
      p := p + 1;
      assert buf[start..p] == digits + [MINUS];
    }
    buf[p] := 0;
    Reverse(buf, start, p);
    len := p - start;
  }

  /** Appends the decimal text of an integer, unless fewer bytes are free than any number may need. */
  method FormatInteger(buffer: FixedBuffer, value: int)
    requires buffer.Valid() && Fits64(value)
    modifies buffer, buffer.data
    ensures buffer.Valid()
    ensures buffer.Contents() == old(buffer.Contents())
                                 + if old(buffer.Avail()) >= 48 then Decimal(value) else []
  {
    hide Decimal;
    if buffer.Avail() >= MAX_NUMERIC_SIZE {
      AtMostTwentyBytes(value);
      ghost var before := buffer.Contents();
      var len := Convert(buffer.data, buffer.cur, value);
      assert buffer.data[..buffer.cur] == before;
      buffer.Add(len);
    }
  }

  /** Writes a hexadecimal number and a terminating zero at a place in a buffer. */
  method ConvertHex(buf: array<Byte>, start: nat, value: nat) returns (len: nat)
    requires start + |Written(value, HEX)| < buf.Length
    modifies buf
    ensures len == |Written(value, HEX)| && buf[start..start + len] == Written(value, HEX) && buf[start + len] == 0
    ensures forall k :: 0 <= k < start || start + len < k < buf.Length ==> buf[k] == old(buf[k])
  {
    hide Written, Reversed;
    var i := value;
    var p := start;
    ghost var total := Written(value, HEX);
    var more := true;
    while more
      invariant start <= p <= start + |total| < buf.Length
      invariant (if more then Written(i, HEX) else []) + Reversed(buf[start..p]) == total
      invariant forall k :: 0 <= k < start || p <= k < buf.Length ==> buf[k] == old(buf[k])
      decreases more, i
    {
      HexDigitMoves(i, buf[start..p], total);
      ghost var done := buf[start..p];
      var lsd := i % 16;
      i := i / 16;
      buf[p] := HEX[lsd];
      p := p + 1;
      more := i != 0;
      assert buf[start..p] == done + [HEX[lsd]];
    }
    buf[p] := 0;
    Reverse(buf, start, p);
    len := p - start;
  }

  lemma HexDigitMoves(i: nat, done: seq<Byte>, total: seq<Byte>)
    requires Written(i, HEX) + Reversed(done) == total
    ensures (if i / 16 != 0 then Written(i / 16, HEX) else []) + Reversed(done + [HEX[i % 16]]) == total
    ensures |done| < |total|
  {
    DecimalAlphabet();
    LastDigitWritten(i, HEX);
    hide Written, Reversed;
    ReversedPush(done, HEX[i % 16]);
    var rest := if i / 16 != 0 then Written(i / 16, HEX) else [];
    assert rest + [HEX[i % 16]] + Reversed(done) == rest + ([HEX[i % 16]] + Reversed(done));
  }
}
