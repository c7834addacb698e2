/** Byte and UTF-16 columns (internal/lsp/lsp.go, ui/src/components/Code.tsx). */
module Columns {

  type Byte = b: int | 0 <= b < 0x100

  /** A decoded character: its code point, the bytes it was decoded from, and whether those are well-formed. */
  datatype Rune = Rune(value: int, width: nat, ok: bool)

  predicate Continues(b: Byte) { 0x80 <= b <= 0xBF }

  /** The second bytes that section 3 of RFC 3629 allows after `b` in sequences of three and four bytes. */
  predicate Follows(b: Byte, second: Byte) {
    match b
    case 0xE0 => 0xA0 <= second <= 0xBF
    case 0xED => 0x80 <= second <= 0x9F
    case 0xF0 => 0x90 <= second <= 0xBF
    case 0xF4 => 0x80 <= second <= 0x8F
    case _ => Continues(second)
  }

  const BAD := Rune(0xFFFD, 1, false)

  /** The six bits of a continuation byte. */
  function Low(b: int): int { b - 0x80 }

  /** The first rune of a `range` over a string: a byte that starts no well-formed sequence is U+FFFD, one byte wide. */
  function Decode(s: seq<Byte>): (r: Rune)
    requires s != []
    ensures 1 <= r.width <= |s|
  {
    var b: int := s[0];
    if b < 0x80 then Rune(b, 1, true)
    else if 0xC2 <= b <= 0xDF && |s| >= 2 && Continues(s[1]) then
      Rune((b - 0xC0) * 0x40 + Low(s[1]), 2, true)
    else if 0xE0 <= b <= 0xEF && |s| >= 3 && Follows(s[0], s[1]) && Continues(s[2]) then
      Rune((b - 0xE0) * 0x1000 + Low(s[1]) * 0x40 + Low(s[2]), 3, true)
    else if 0xF0 <= b <= 0xF4 && |s| >= 4 && Follows(s[0], s[1]) && Continues(s[2]) && Continues(s[3]) then
      Rune((b - 0xF0) * 0x40000 + Low(s[1]) * 0x1000 + Low(s[2]) * 0x40 + Low(s[3]), 4, true)
    else BAD
  }

  function Units(r: Rune): nat { if r.value >= 0x10000 then 2 else 1 }

  function Rest(s: seq<Byte>): seq<Byte>
    requires s != []
  {
    s[Decode(s).width..]
  }

  // ---- The conversions ----

  /** The units of the runes that start before `offset`. */
  function Utf16Col(s: seq<Byte>, offset: int): nat {
    if s == [] || offset <= 0 then 0 else Units(Decode(s)) + Utf16Col(Rest(s), offset - Decode(s).width)
  }

  /** The bytes of the runes before which there are fewer than `units` units. */
  function ByteCol(s: seq<Byte>, units: int): nat {
    if s == [] || units <= 0 then 0 else Decode(s).width + ByteCol(Rest(s), units - Units(Decode(s)))
  }

  lemma TailOfTail<T>(s: seq<T>, i: nat, k: nat)
    requires i + k <= |s|
    ensures s[i..][k..] == s[i + k..]
  {
  }

  /** `n` of the column has been counted, up to the rest of the line and of the offset. */
  ghost predicate ColSoFar(total: nat, n: int, rest: seq<Byte>, offset: int) { total == n + Utf16Col(rest, offset) }

  lemma Utf16ColStep(total: nat, n: int, s: seq<Byte>, offset: int)
    requires s != [] && offset > 0 && ColSoFar(total, n, s, offset)
    ensures ColSoFar(total, n + Units(Decode(s)), Rest(s), offset - Decode(s).width)
  {
  }

  ghost predicate OffsetSoFar(total: nat, i: int, rest: seq<Byte>, units: int) { total == i + ByteCol(rest, units) }

  lemma ByteColStep(total: nat, i: int, s: seq<Byte>, units: int)
    requires s != [] && units > 0 && OffsetSoFar(total, i, s, units)
    ensures OffsetSoFar(total, i + Decode(s).width, Rest(s), units - Units(Decode(s)))
  {
  }

  lemma OffsetDone(total: nat, i: int, s: seq<Byte>, units: int)
    requires (s == [] || units <= 0) && OffsetSoFar(total, i, s, units)
    ensures total == i
  {
  }

  /** `utf16Col`. */
  method ToUtf16Col(line: seq<Byte>, byteOffset: int) returns (n: nat)
    ensures n == Utf16Col(line, byteOffset)
  {
    n := 0;
    var i := 0;
    ghost var total, rest, left := Utf16Col(line, byteOffset), line, byteOffset;
    while i < |line| && i < byteOffset
      invariant i <= |line| && rest == line[i..] && left == byteOffset - i
      invariant ColSoFar(total, n, rest, left)
    {
      Utf16ColStep(total, n, rest, left);
      var r := Decode(line[i..]);
      TailOfTail(line, i, r.width);
      n := n + Units(r);
      i := i + r.width;
      rest, left := Rest(rest), left - r.width;
    }
  }

  /** `byteCol`. */
  method ToByteCol(line: seq<Byte>, units: int) returns (col: nat)
    ensures col == ByteCol(line, units)
  {
    var n := 0;
    var i := 0;
    ghost var total, rest, left := ByteCol(line, units), line, units;
    while i < |line|
      invariant i <= |line| && rest == line[i..] && left == units - n
      invariant OffsetSoFar(total, i, rest, left)
    {
      if n >= units {
        OffsetDone(total, i, rest, left);
        return i;
      }
      ByteColStep(total, i, rest, left);
      var r := Decode(line[i..]);
      TailOfTail(line, i, r.width);
      n := n + Units(r);
      i := i + r.width;
      rest, left := Rest(rest), left - Units(r);
    }
    OffsetDone(total, i, rest, left);
    return |line|;
  }

  // ---- They are inverse on rune boundaries, and round up elsewhere ----

  /** `k` is the byte offset of a rune or the length of the line. */
  predicate Boundary(s: seq<Byte>, k: int) {
    k == 0 || (s != [] && k >= Decode(s).width && Boundary(Rest(s), k - Decode(s).width))
  }

  /** `u` is the UTF-16 column of a rune or the end of the line. */
  predicate UnitBoundary(s: seq<Byte>, u: int) {
    u == 0 || (s != [] && u >= Units(Decode(s)) && UnitBoundary(Rest(s), u - Units(Decode(s))))
  }

  lemma {:induction false} BytesThereAndBack(s: seq<Byte>, k: int)
    requires Boundary(s, k)
    ensures ByteCol(s, Utf16Col(s, k)) == k && UnitBoundary(s, Utf16Col(s, k))
  {
    if k != 0 { BytesThereAndBack(Rest(s), k - Decode(s).width); }
  }

  lemma {:induction false} UnitsThereAndBack(s: seq<Byte>, u: int)
    requires UnitBoundary(s, u)
    ensures Utf16Col(s, ByteCol(s, u)) == u && Boundary(s, ByteCol(s, u))
  {
    if u != 0 { UnitsThereAndBack(Rest(s), u - Units(Decode(s))); }
  }

  lemma {:induction false} ColumnsAreMonotone(s: seq<Byte>, a: int, b: int)
    requires a <= b
    ensures Utf16Col(s, a) <= Utf16Col(s, b)
    ensures a < b && Boundary(s, a) && Boundary(s, b) ==> Utf16Col(s, a) < Utf16Col(s, b)
  {
    if s != [] && a > 0 {
      ColumnsAreMonotone(Rest(s), a - Decode(s).width, b - Decode(s).width);
    }
  }

  lemma {:induction false} OffsetsAreMonotone(s: seq<Byte>, a: int, b: int)
    requires a <= b
    ensures ByteCol(s, a) <= ByteCol(s, b)
    ensures a < b && UnitBoundary(s, a) && UnitBoundary(s, b) ==> ByteCol(s, a) < ByteCol(s, b)
  {
    if s != [] && a > 0 {
      OffsetsAreMonotone(Rest(s), a - Units(Decode(s)), b - Units(Decode(s)));
    }
  }

  /** Any offset into the line has the column of the next boundary, the nearest one not before it. */
  lemma {:induction false} OffsetsRoundUp(s: seq<Byte>, k: int)
    requires 0 <= k <= |s|
    ensures var b := ByteCol(s, Utf16Col(s, k));
            && Boundary(s, b) && k <= b && Utf16Col(s, b) == Utf16Col(s, k)
            && forall c :: Boundary(s, c) && k <= c ==> b <= c
  {
    if k > 0 {
      var w := Decode(s).width;
      if k <= w {
        assert Utf16Col(Rest(s), k - w) == 0 && ByteCol(Rest(s), 0) == 0;
        assert Boundary(Rest(s), 0);
      } else {
        OffsetsRoundUp(Rest(s), k - w);
        forall c | Boundary(s, c) && k <= c ensures ByteCol(s, Utf16Col(s, k)) <= c { assert Boundary(Rest(s), c - w); }
      }
    }
  }

  /** A column inside a surrogate pair is taken for the end of the pair. */
  lemma {:induction false} ColumnsRoundUp(s: seq<Byte>, u: int)
    requires 0 <= u <= Utf16Col(s, |s|)
    ensures var v := Utf16Col(s, ByteCol(s, u));
            && UnitBoundary(s, v) && u <= v <= u + 1 && ByteCol(s, v) == ByteCol(s, u)
  {
    if u > 0 {
      var n := Units(Decode(s));
      if u <= n {
        assert ByteCol(Rest(s), u - n) == 0 && Utf16Col(Rest(s), 0) == 0;
        assert UnitBoundary(Rest(s), 0);
      } else {
        ColumnsRoundUp(Rest(s), u - n);
      }
    }
  }

  // ---- The same line in JavaScript ----

  type Unit = u: int | 0 <= u < 0x10000

  function Encode(r: Rune): seq<Unit>
    requires 0 <= r.value <= 0x10FFFF
  {
    if r.value < 0x10000 then [r.value]
    else [0xD800 + (r.value - 0x10000) / 0x400, 0xDC00 + (r.value - 0x10000) % 0x400]
  }

  lemma DecodedRange(s: seq<Byte>)
    requires s != []
    ensures var r := Decode(s);
            && 0 <= r.value <= 0x10FFFF && !(0xD800 <= r.value <= 0xDFFF)
            && (r.ok ==> Utf8Length(r.value) == r.width)
  {
  }

  /** The line as JavaScript gets it. */
  function Utf16(s: seq<Byte>): seq<Unit> {
    if s == [] then [] else
      DecodedRange(s);
      Encode(Decode(s)) + Utf16(Rest(s))
  }

  /** `codePointAt(0)`. */
  function CodePoint(us: seq<Unit>): int
    requires us != []
  {
    var high: int := us[0];
    if 0xD800 <= high <= 0xDBFF && |us| >= 2 && 0xDC00 <= us[1] <= 0xDFFF then
      var low: int := us[1];
      0x10000 + (high - 0xD800) * 0x400 + (low - 0xDC00)
    else high
  }

  function Utf8Length(c: int): nat { if c < 0x80 then 1 else if c < 0x800 then 2 else if c < 0x10000 then 3 else 4 }

  function Step(us: seq<Unit>): (n: nat)
    requires us != []
    ensures 1 <= n <= |us|
  {
    if CodePoint(us) >= 0x10000 then 2 else 1
  }

  function CharCol(us: seq<Unit>, offset: int): nat {
    if us == [] || offset <= 0 then 0 else Step(us) + CharCol(us[Step(us)..], offset - Utf8Length(CodePoint(us)))
  }

  /** `charIndex`. */
  method CharIndex(line: seq<Unit>, byteOffset: int) returns (index: nat)
    ensures index == CharCol(line, byteOffset)
  {
    var bytes := 0;
    var i := 0;
    assert line[0..] == line;
    while i < |line|
      invariant i <= |line| && CharCol(line, byteOffset) == i + CharCol(line[i..], byteOffset - bytes)
    {
      if bytes >= byteOffset { return i; }
      var c := CodePoint(line[i..]);
      TailOfTail(line, i, Step(line[i..]));
      bytes := bytes + if c < 0x80 then 1 else if c < 0x800 then 2 else if c < 0x10000 then 3 else 4;
      if c >= 0x10000 { i := i + 1; }
      i := i + 1;
    }
    return |line|;
  }

  /** The first character of a line is the same on both sides. */
  lemma SameCharacter(s: seq<Byte>)
    requires s != []
    ensures var us := Utf16(s);
            && us != [] && CodePoint(us) == Decode(s).value
            && Step(us) == Units(Decode(s)) && us[Step(us)..] == Utf16(Rest(s))
  {
    DecodedRange(s);
    var r := Decode(s);
    var tail := Utf16(Rest(s));
    if r.value >= 0x10000 {
      var v := r.value - 0x10000;
      assert v == (v / 0x400) * 0x400 + v % 0x400 && v / 0x400 < 0x400;
      assert (Encode(r) + tail)[2..] == tail;
    } else {
      assert (Encode(r) + tail)[1..] == tail;
    }
  }

  /** Well-formed, but for a stray byte at the very end. */
  predicate WellFormed(s: seq<Byte>) {
    s == [] || |s| == 1 || (Decode(s).ok && WellFormed(Rest(s)))
  }

  lemma {:induction false} AgreesOn(s: seq<Byte>, offset: int)
    requires WellFormed(s)
    ensures CharCol(Utf16(s), offset) == Utf16Col(s, offset)
  {
    if s != [] && offset > 0 {
      SameCharacter(s);
      DecodedRange(s);
      if Rest(s) == [] {
        assert Utf16(Rest(s)) == [];
      } else {
        AgreesOn(Rest(s), offset - Decode(s).width);
      }
    }
  }

  /** A byte in the middle that is not UTF-8 makes the two columns differ. */
  lemma {:induction false} Disagreement(s: seq<Byte>) returns (offset: int)
    requires !WellFormed(s)
    ensures 0 < offset <= |s| && CharCol(Utf16(s), offset) != Utf16Col(s, offset)
  {
    SameCharacter(s);
    DecodedRange(s);
    if Decode(s).ok {
      var rest := Disagreement(Rest(s));
      offset := Decode(s).width + rest;
    } else {
      offset := 2;
      assert CharCol(Utf16(Rest(s)), 2 - 3) == 0;
      assert Utf16Col(Rest(s), 1) >= 1;
    }
  }

  /** `charIndex` and `utf16Col` agree on a line exactly when it is well-formed, a stray last byte aside. */
  lemma AgreeExactly(s: seq<Byte>)
    ensures WellFormed(s) <==> forall offset: int :: CharCol(Utf16(s), offset) == Utf16Col(s, offset)
  {
    if WellFormed(s) {
      forall offset: int ensures CharCol(Utf16(s), offset) == Utf16Col(s, offset) { AgreesOn(s, offset); }
    } else {
      var offset := Disagreement(s);
    }
  }
}
