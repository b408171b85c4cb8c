/**
 * Byte-order arithmetic shared by the reader and the writer: the value of a
 * run of bytes read least- or most-significant byte first, the bytes of a value
 * in either order, and the two's-complement conversions between Go's unsigned
 * and signed integer types of one width. These are the reference definitions
 * that the per-width formulas in reader.go and writer.go are proved against.
 */
module ByteOrder {

  type Byte = b: int | 0 <= b < 0x100
  type Uint16 = x: int | 0 <= x < 0x1_0000
  /** The range of a 24-bit field; Go holds it in a uint32. */
  type Uint24 = x: int | 0 <= x < 0x100_0000
  type Uint32 = x: int | 0 <= x < 0x1_0000_0000
  type Uint64 = x: int | 0 <= x < 0x1_0000_0000_0000_0000
  type Int8 = x: int | -0x80 <= x < 0x80
  type Int16 = x: int | -0x8000 <= x < 0x8000
  type Int32 = x: int | -0x8000_0000 <= x < 0x8000_0000
  type Int64 = x: int | -0x8000_0000_0000_0000 <= x < 0x8000_0000_0000_0000

  /**
   * The byte order of a multi-byte field. The code only ever compares an
   * endian value with LittleEndian; every other value behaves as BigEndian.
   */
  datatype Endian = LittleEndian | BigEndian

  /** 256^w, the number of values a w-byte field holds. */
  function Pow256(w: nat): (p: nat)
    ensures p > 0
  {
    if w == 0 then 1 else 0x100 * Pow256(w - 1)
  }

  /** The value of d read least-significant byte first: the sum of d[i] * 256^i. */
  function LittleEndianValue(d: seq<Byte>): (v: nat)
    ensures v < Pow256(|d|)
  {
    if d == [] then 0 else d[0] + 0x100 * LittleEndianValue(d[1..])
  }

  /** The value of d read most-significant byte first: the sum of d[i] * 256^(|d|-1-i). */
  function BigEndianValue(d: seq<Byte>): (v: nat)
    ensures v < Pow256(|d|)
  {
    if d == [] then 0 else 0x100 * BigEndianValue(d[..|d| - 1]) + d[|d| - 1]
  }

  /** The unsigned value of the field d in byte order e. */
  function Unsigned(d: seq<Byte>, e: Endian): (v: nat)
    ensures v < Pow256(|d|)
  {
    if e == LittleEndian then LittleEndianValue(d) else BigEndianValue(d)
  }

  /** The w low-order bytes of v, least-significant first. */
  function LittleEndianBytes(v: nat, w: nat): (d: seq<Byte>)
    ensures |d| == w
  {
    if w == 0 then [] else [v % 0x100] + LittleEndianBytes(v / 0x100, w - 1)
  }

  /** The w low-order bytes of v, most-significant first. */
  function BigEndianBytes(v: nat, w: nat): (d: seq<Byte>)
    ensures |d| == w
  {
    if w == 0 then [] else BigEndianBytes(v / 0x100, w - 1) + [v % 0x100]
  }

  /** The w-byte field that holds v in byte order e. */
  function Encode(v: nat, w: nat, e: Endian): (d: seq<Byte>)
    ensures |d| == w
  {
    if e == LittleEndian then LittleEndianBytes(v, w) else BigEndianBytes(v, w)
  }

  function Reverse<T>(s: seq<T>): (r: seq<T>)
    ensures |r| == |s|
    ensures forall i :: 0 <= i < |s| ==> r[i] == s[|s| - 1 - i]
  {
    if s == [] then [] else Reverse(s[1..]) + [s[0]]
  }

  /** Decoding the little-endian bytes of a value that fits gives the value back. */
  lemma {:induction false} LittleEndianRoundTrip(v: nat, w: nat)
    requires v < Pow256(w)
    ensures LittleEndianValue(LittleEndianBytes(v, w)) == v
  {
    if w > 0 {
      LittleEndianRoundTrip(v / 0x100, w - 1);
      var d := LittleEndianBytes(v, w);
      assert d[1..] == LittleEndianBytes(v / 0x100, w - 1);
    }
  }

  /** Decoding the big-endian bytes of a value that fits gives the value back. */
  lemma {:induction false} BigEndianRoundTrip(v: nat, w: nat)
    requires v < Pow256(w)
    ensures BigEndianValue(BigEndianBytes(v, w)) == v
  {
    if w > 0 {
      BigEndianRoundTrip(v / 0x100, w - 1);
      var d := BigEndianBytes(v, w);
      assert d[..w - 1] == BigEndianBytes(v / 0x100, w - 1);
    }
  }

  /** Re-encoding the little-endian value of a field gives the field back. */
  lemma {:induction false} LittleEndianBytesOfValue(d: seq<Byte>)
    ensures LittleEndianBytes(LittleEndianValue(d), |d|) == d
  {
    if d != [] {
      LittleEndianBytesOfValue(d[1..]);
    }
  }

  /** Re-encoding the big-endian value of a field gives the field back. */
  lemma {:induction false} BigEndianBytesOfValue(d: seq<Byte>)
    ensures BigEndianBytes(BigEndianValue(d), |d|) == d
  {
    if d != [] {
      BigEndianBytesOfValue(d[..|d| - 1]);
    }
  }

  /** Writing then reading in the same byte order returns every value that fits. */
  lemma DecodeEncode(v: nat, w: nat, e: Endian)
    requires v < Pow256(w)
    ensures Unsigned(Encode(v, w, e), e) == v
  {
    if e == LittleEndian {
      LittleEndianRoundTrip(v, w);
    } else {
      BigEndianRoundTrip(v, w);
    }
  }

  /** Reading then writing in the same byte order reproduces every field. */
  lemma EncodeDecode(d: seq<Byte>, e: Endian)
    ensures Encode(Unsigned(d, e), |d|, e) == d
  {
    if e == LittleEndian {
      LittleEndianBytesOfValue(d);
    } else {
      BigEndianBytesOfValue(d);
    }
  }

  /** Reading d least-significant first is reading its reversal most-significant first. */
  lemma {:induction false} LittleEndianIsReversedBig(d: seq<Byte>)
    ensures LittleEndianValue(d) == BigEndianValue(Reverse(d))
  {
    if d != [] {
      LittleEndianIsReversedBig(d[1..]);
      var r := Reverse(d);
      assert r[..|r| - 1] == Reverse(d[1..]);
    }
  }

  /**
   * Splitting the value of a field most-significant byte first gives the field
   * in storage order for a big-endian read and reversed for a little-endian one.
   */
  lemma Transposed(d: seq<Byte>, e: Endian)
    ensures BigEndianBytes(Unsigned(d, e), |d|) == if e == LittleEndian then Reverse(d) else d
  {
    if e == LittleEndian {
      LittleEndianIsReversedBig(d);
      BigEndianBytesOfValue(Reverse(d));
    } else {
      BigEndianBytesOfValue(d);
    }
  }

  /** The weight of the sign bit of a w-byte field: 2^(8w-1). */
  function Half(w: nat): (h: int)
    requires 0 < w
  {
    0x80 * Pow256(w - 1)
  }

  /**
   * Go's conversion of a w-byte unsigned value to the signed type of the same
   * width: the same bits read as two's complement.
   */
  function ToSigned(u: nat, w: nat): (v: int)
    requires 0 < w && u < Pow256(w)
    ensures -Half(w) <= v < Half(w)
    ensures v == u || v + Pow256(w) == u
  {
    if u < Half(w) then u else u as int - Pow256(w)
  }

  /**
   * Go's conversion of a w-byte signed value to the unsigned type of the same
   * width: its two's-complement bit pattern.
   */
  function ToUnsigned(v: int, w: nat): (u: nat)
    requires 0 < w && -Half(w) <= v < Half(w)
    ensures u < Pow256(w)
    ensures u == v || u == v + Pow256(w)
    ensures ToSigned(u, w) == v
  {
    if v < 0 then v + Pow256(w) else v as nat
  }

  /** Every unsigned bit pattern survives the trip through the signed type. */
  lemma SignedBitsRoundTrip(u: nat, w: nat)
    requires 0 < w && u < Pow256(w)
    ensures ToUnsigned(ToSigned(u, w), w) == u
  {
  }

  /** A sign bit alone reads as the minimum of the signed type (MinInt8, MinInt16, ...). */
  lemma SignBitIsMinimum(w: nat)
    requires 0 < w
    ensures ToSigned(Half(w), w) == -Half(w)
  {
  }

  // Unfoldings of the reference definitions at the widths the code uses,
  // against which the shift-and-add and byte-extraction formulas are checked.

  lemma LittleEndianValue2(d: seq<Byte>)
    requires |d| == 2
    ensures LittleEndianValue(d) == d[1] as int * 0x100 + d[0]
  {
    assert d[1..][1..] == [];
  }

  lemma LittleEndianValue3(d: seq<Byte>)
    requires |d| == 3
    ensures LittleEndianValue(d) == d[2] as int * 0x1_0000 + d[1] as int * 0x100 + d[0]
  {
    LittleEndianValue2(d[1..]);
  }

  lemma LittleEndianValue4(d: seq<Byte>)
    requires |d| == 4
    ensures LittleEndianValue(d) ==
      d[3] as int * 0x100_0000 + d[2] as int * 0x1_0000 + d[1] as int * 0x100 + d[0]
  {
    LittleEndianValue3(d[1..]);
  }

  lemma LittleEndianValue8(d: seq<Byte>)
    requires |d| == 8
    ensures LittleEndianValue(d) ==
      d[7] as int * 0x100_0000_0000_0000 + d[6] as int * 0x1_0000_0000_0000 +
      d[5] as int * 0x100_0000_0000 + d[4] as int * 0x1_0000_0000 +
      d[3] as int * 0x100_0000 + d[2] as int * 0x1_0000 + d[1] as int * 0x100 + d[0]
  {
    LittleEndianValue4(d[4..]);
    assert d[1..][1..] == d[2..] && d[2..][1..] == d[3..] && d[3..][1..] == d[4..];
    assert LittleEndianValue(d[3..]) == d[3] + 0x100 * LittleEndianValue(d[4..]);
    assert LittleEndianValue(d[2..]) == d[2] + 0x100 * LittleEndianValue(d[3..]);
    assert LittleEndianValue(d[1..]) == d[1] + 0x100 * LittleEndianValue(d[2..]);
  }

  lemma BigEndianValue2(d: seq<Byte>)
    requires |d| == 2
    ensures BigEndianValue(d) == d[0] as int * 0x100 + d[1]
  {
    assert d[..1][..0] == [];
  }

  lemma BigEndianValue3(d: seq<Byte>)
    requires |d| == 3
    ensures BigEndianValue(d) == d[0] as int * 0x1_0000 + d[1] as int * 0x100 + d[2]
  {
    BigEndianValue2(d[..2]);
  }

  lemma BigEndianValue4(d: seq<Byte>)
    requires |d| == 4
    ensures BigEndianValue(d) ==
      d[0] as int * 0x100_0000 + d[1] as int * 0x1_0000 + d[2] as int * 0x100 + d[3]
  {
    BigEndianValue3(d[..3]);
  }

  lemma BigEndianValue8(d: seq<Byte>)
    requires |d| == 8
    ensures BigEndianValue(d) ==
      d[0] as int * 0x100_0000_0000_0000 + d[1] as int * 0x1_0000_0000_0000 +
      d[2] as int * 0x100_0000_0000 + d[3] as int * 0x1_0000_0000 +
      d[4] as int * 0x100_0000 + d[5] as int * 0x1_0000 + d[6] as int * 0x100 + d[7]
  {
    BigEndianValue4(d[..4]);
    assert d[..7][..6] == d[..6] && d[..6][..5] == d[..5] && d[..5][..4] == d[..4];
    assert BigEndianValue(d[..5]) == 0x100 * BigEndianValue(d[..4]) + d[4];
    assert BigEndianValue(d[..6]) == 0x100 * BigEndianValue(d[..5]) + d[5];
    assert BigEndianValue(d[..7]) == 0x100 * BigEndianValue(d[..6]) + d[6];
  }

  /** Shifting right by 8 bits k times is shifting right by 8k bits. */
  lemma ShiftSteps(v: nat)
    ensures v / 0x100 / 0x100 == v / 0x1_0000
    ensures v / 0x1_0000 / 0x100 == v / 0x100_0000
    ensures v / 0x100_0000 / 0x100 == v / 0x1_0000_0000
    ensures v / 0x1_0000_0000 / 0x100 == v / 0x100_0000_0000
    ensures v / 0x100_0000_0000 / 0x100 == v / 0x1_0000_0000_0000
    ensures v / 0x1_0000_0000_0000 / 0x100 == v / 0x100_0000_0000_0000
  {
  }

  lemma LittleEndianBytes2(v: nat)
    ensures LittleEndianBytes(v, 2) == [v % 0x100, v / 0x100 % 0x100]
  {
  }

  lemma LittleEndianBytes3(v: nat)
    ensures LittleEndianBytes(v, 3) == [v % 0x100, v / 0x100 % 0x100, v / 0x1_0000 % 0x100]
  {
    ShiftSteps(v);
    LittleEndianBytes2(v / 0x100);
  }

  lemma LittleEndianBytes4(v: nat)
    ensures LittleEndianBytes(v, 4) ==
      [v % 0x100, v / 0x100 % 0x100, v / 0x1_0000 % 0x100, v / 0x100_0000 % 0x100]
  {
    ShiftSteps(v);
    LittleEndianBytes3(v / 0x100);
  }

  lemma LittleEndianStep(v: nat, w: nat)
    requires w > 0
    ensures LittleEndianBytes(v, w) == [v % 0x100] + LittleEndianBytes(v / 0x100, w - 1)
  {
  }

  lemma LittleEndianBytes8(v: nat)
    ensures LittleEndianBytes(v, 8) ==
      [v % 0x100, v / 0x100 % 0x100, v / 0x1_0000 % 0x100, v / 0x100_0000 % 0x100,
       v / 0x1_0000_0000 % 0x100, v / 0x100_0000_0000 % 0x100,
       v / 0x1_0000_0000_0000 % 0x100, v / 0x100_0000_0000_0000 % 0x100]
  {
    ShiftSteps(v);
    var v1, v2, v3, v4 := v / 0x100, v / 0x1_0000, v / 0x100_0000, v / 0x1_0000_0000;
    var v5, v6, v7 := v / 0x100_0000_0000, v / 0x1_0000_0000_0000, v / 0x100_0000_0000_0000;
    LittleEndianStep(v, 8);
    LittleEndianStep(v1, 7);
    LittleEndianStep(v2, 6);
    LittleEndianStep(v3, 5);
    LittleEndianStep(v4, 4);
    LittleEndianStep(v5, 3);
    LittleEndianStep(v6, 2);
    LittleEndianStep(v7, 1);
  }

  lemma BigEndianBytes2(v: nat)
    ensures BigEndianBytes(v, 2) == [v / 0x100 % 0x100, v % 0x100]
  {
  }

  lemma BigEndianBytes3(v: nat)
    ensures BigEndianBytes(v, 3) == [v / 0x1_0000 % 0x100, v / 0x100 % 0x100, v % 0x100]
  {
    ShiftSteps(v);
    BigEndianBytes2(v / 0x100);
  }

  lemma BigEndianBytes4(v: nat)
    ensures BigEndianBytes(v, 4) ==
      [v / 0x100_0000 % 0x100, v / 0x1_0000 % 0x100, v / 0x100 % 0x100, v % 0x100]
  {
    ShiftSteps(v);
    BigEndianBytes3(v / 0x100);
  }

  lemma BigEndianStep(v: nat, w: nat)
    requires w > 0
    ensures BigEndianBytes(v, w) == BigEndianBytes(v / 0x100, w - 1) + [v % 0x100]
  {
  }

  lemma BigEndianBytes8(v: nat)
    ensures BigEndianBytes(v, 8) ==
      [v / 0x100_0000_0000_0000 % 0x100, v / 0x1_0000_0000_0000 % 0x100,
       v / 0x100_0000_0000 % 0x100, v / 0x1_0000_0000 % 0x100,
       v / 0x100_0000 % 0x100, v / 0x1_0000 % 0x100, v / 0x100 % 0x100, v % 0x100]
  {
    ShiftSteps(v);
    var v1, v2, v3, v4 := v / 0x100, v / 0x1_0000, v / 0x100_0000, v / 0x1_0000_0000;
    var v5, v6, v7 := v / 0x100_0000_0000, v / 0x1_0000_0000_0000, v / 0x100_0000_0000_0000;
    BigEndianStep(v, 8);
    BigEndianStep(v1, 7);
    BigEndianStep(v2, 6);
    BigEndianStep(v3, 5);
    BigEndianStep(v4, 4);
    BigEndianStep(v5, 3);
    BigEndianStep(v6, 2);
    BigEndianStep(v7, 1);
  }
}
