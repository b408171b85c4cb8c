/**
 * reader.go: a Reader decodes fixed-width integers and fixed-length strings
 * from a store at an internal cursor, keeping the first transfer error as a
 * sticky error after which every read returns its zero value at once.
 */
module Reading {
  import opened ByteOrder
  import opened Store

  /** ReadU16's shift-and-add: d[1]<<8 + d[0] for LittleEndian, d[0]<<8 + d[1] otherwise. */
  function Uint16Of(d: seq<Byte>, e: Endian): (v: Uint16)
    requires |d| == 2
    ensures v == Unsigned(d, e)
  {
    LittleEndianValue2(d);
    BigEndianValue2(d);
    if e == LittleEndian then d[1] as int * 0x100 + d[0] else d[0] as int * 0x100 + d[1]
  }

  /** ReadU24's shift-and-add. */
  function Uint24Of(d: seq<Byte>, e: Endian): (v: Uint24)
    requires |d| == 3
    ensures v == Unsigned(d, e)
  {
    LittleEndianValue3(d);
    BigEndianValue3(d);
    if e == LittleEndian then
      d[2] as int * 0x1_0000 + d[1] as int * 0x100 + d[0]
    else
      d[0] as int * 0x1_0000 + d[1] as int * 0x100 + d[2]
  }

  /** ReadU32's shift-and-add. */
  function Uint32Of(d: seq<Byte>, e: Endian): (v: Uint32)
    requires |d| == 4
    ensures v == Unsigned(d, e)
  {
    LittleEndianValue4(d);
    BigEndianValue4(d);
    if e == LittleEndian then
      d[3] as int * 0x100_0000 + d[2] as int * 0x1_0000 + d[1] as int * 0x100 + d[0]
    else
      d[0] as int * 0x100_0000 + d[1] as int * 0x1_0000 + d[2] as int * 0x100 + d[3]
  }

  /** ReadU64's shift-and-add. */
  function Uint64Of(d: seq<Byte>, e: Endian): (v: Uint64)
    requires |d| == 8
    ensures v == Unsigned(d, e)
  {
    LittleEndianValue8(d);
    BigEndianValue8(d);
    if e == LittleEndian then
      d[7] as int * 0x100_0000_0000_0000 + d[6] as int * 0x1_0000_0000_0000 +
      d[5] as int * 0x100_0000_0000 + d[4] as int * 0x1_0000_0000 +
      d[3] as int * 0x100_0000 + d[2] as int * 0x1_0000 + d[1] as int * 0x100 + d[0]
    else
      d[0] as int * 0x100_0000_0000_0000 + d[1] as int * 0x1_0000_0000_0000 +
      d[2] as int * 0x100_0000_0000 + d[3] as int * 0x1_0000_0000 +
      d[4] as int * 0x100_0000 + d[5] as int * 0x1_0000 + d[6] as int * 0x100 + d[7]
  }

  /**
   * ReadI24's sign extension: when bit 23 (u & 0x800000) is set the result is
   * -8388608 plus the low 23 bits (u & 0x7FFFFF), otherwise u itself. It agrees
   * with reading the 24 bits as two's complement.
   */
  function SignExtend24(u: Uint24): (v: Int32)
    ensures v == ToSigned(u, 3)
    ensures -0x80_0000 <= v < 0x80_0000
  {
    if u / 0x80_0000 % 2 == 1 then -0x80_0000 + u % 0x80_0000 else u
  }

  /**
   * Go's string(b) for a byte b: the UTF-8 encoding of the code point b, one
   * byte below 0x80 and two bytes (110000xx 10xxxxxx) from 0x80 on.
   */
  function RuneString(b: Byte): (s: seq<Byte>)
    ensures b < 0x80 ==> s == [b]
    ensures b >= 0x80 ==> |s| == 2 && 0xC2 <= s[0] <= 0xC3 && 0x80 <= s[1] < 0xC0
    ensures b >= 0x80 ==> (s[0] - 0xC0) * 0x40 + (s[1] - 0x80) == b
  {
    if b < 0x80 then [b] else [0xC0 + b / 0x40, 0x80 + b % 0x40]
  }

  class Reader {
    /** The store read from (the embedded io.ReaderAt). */
    const src: Store
    /** Offset of the next read. */
    var offset: int
    /** The sticky error: the first error a transfer reported. */
    var err: Option<IoError>
    /** Scratch buffer the string reads are assembled in. */
    const sbuf64: array<Byte>
    /** Scratch buffer every transfer lands in. */
    const b64: array<Byte>

    ghost predicate Valid()
      reads this
    {
      sbuf64.Length == 8 && b64.Length == 8 && sbuf64 != b64
    }

    /** NewReader: a reader at offset 0 with no error and two fresh 8-byte buffers. */
    constructor (r: Store)
      ensures Valid() && src == r && offset == 0 && err == None
      ensures fresh(sbuf64) && fresh(b64)
    {
      src := r;
      offset := 0;
      err := None;
      sbuf64 := new Byte[8](_ => 0);
      b64 := new Byte[8](_ => 0);
    }

    /** The call returned at once: no transfer, and cursor, error, buffers and store as they were. */
    twostate predicate Idle()
      reads this, src, b64, sbuf64
    {
      offset == old(offset) && err == old(err) &&
      b64[..] == old(b64[..]) && sbuf64[..] == old(sbuf64[..]) &&
      src.data == old(src.data) && src.replies == old(src.replies) &&
      src.transfers == old(src.transfers)
    }

    /**
     * readBytes(n) ran: exactly one transfer of n bytes at the old cursor; its
     * error, if any, is now the sticky error; the cursor is n further on
     * whatever the store replied; the bytes the store delivered are at the
     * front of b64, and b64 beyond the n requested bytes is untouched.
     */
    twostate predicate Fetched(n: nat)
      reads this, src, b64
    {
      var reply := old(src.Answer(n));
      offset == old(offset) + n && err == reply.err &&
      src.data == old(src.data) && src.replies == old(src.Later()) &&
      src.transfers == old(src.transfers) + 1 &&
      reply.count <= b64.Length && b64[..reply.count] == Slice(src.data, old(offset), reply.count) &&
      n <= b64.Length && b64[n..] == old(b64[n..])
    }

    /** readBytes: reads n bytes into b64 at the cursor and moves the cursor n on, failed or not. */
    method ReadBytes(n: nat) returns (data: seq<Byte>)
      requires Valid() && n <= 8
      modifies this, b64, src
      ensures Valid() && Fetched(n) && data == b64[..n]
    {
      var count;
      count, err := src.ReadAt(b64, n, offset);
      offset := offset + n;
      data := b64[..n];
    }

    method Err() returns (e: Option<IoError>)
      ensures e == err
    {
      e := err;
    }

    /** ReadRaw: the next n bytes; slicing the 8-byte buffer confines n to 8 once the error check passes. */
    method ReadRaw(n: nat) returns (data: seq<Byte>)
      requires Valid() && (err == None ==> n <= 8)
      modifies this, b64, src
      ensures Valid()
      ensures old(err).Some? ==> data == [] && Idle()
      ensures old(err).None? ==> Fetched(n) && |data| == n && data == b64[..n]
    {
      if err.Some? {
        return [];
      }
      data := ReadBytes(n);
    }

    method ReadI8() returns (v: Int8)
      requires Valid()
      modifies this, b64, src
      ensures Valid()
      ensures old(err).Some? ==> v == 0 && Idle()
      ensures old(err).None? ==> Fetched(1) && v == ToSigned(b64[0], 1)
    {
      if err.Some? {
        return 0;
      }
      var u := ReadU8();
      v := ToSigned(u, 1);
    }

    method ReadI16(e: Endian) returns (v: Int16)
      requires Valid()
      modifies this, b64, src
      ensures Valid()
      ensures old(err).Some? ==> v == 0 && Idle()
      ensures old(err).None? ==> Fetched(2) && v == ToSigned(Unsigned(b64[..2], e), 2)
    {
      if err.Some? {
        return 0;
      }
      var u := ReadU16(e);
      v := ToSigned(u, 2);
    }

    /** ReadI24: the 24-bit field sign-extended by hand; the result always lies in [-8388608, 8388607]. */
    method ReadI24(e: Endian) returns (v: Int32)
      requires Valid()
      modifies this, b64, src
      ensures Valid()
      ensures -0x80_0000 <= v < 0x80_0000
      ensures old(err).Some? ==> v == 0 && Idle()
      ensures old(err).None? ==> Fetched(3) && v == ToSigned(Unsigned(b64[..3], e), 3)
    {
      if err.Some? {
        return 0;
      }
      var tmp := ReadU24(e);
      v := SignExtend24(tmp);
    }

    method ReadI32(e: Endian) returns (v: Int32)
      requires Valid()
      modifies this, b64, src
      ensures Valid()
      ensures old(err).Some? ==> v == 0 && Idle()
      ensures old(err).None? ==> Fetched(4) && v == ToSigned(Unsigned(b64[..4], e), 4)
    {
      if err.Some? {
        return 0;
      }
      var u := ReadU32(e);
      v := ToSigned(u, 4);
    }

    method ReadI64(e: Endian) returns (v: Int64)
      requires Valid()
      modifies this, b64, src
      ensures Valid()
      ensures old(err).Some? ==> v == 0 && Idle()
      ensures old(err).None? ==> Fetched(8) && v == ToSigned(Unsigned(b64[..8], e), 8)
    {
      if err.Some? {
        return 0;
      }
      var u := ReadU64(e);
      v := ToSigned(u, 8);
    }

    method ReadU8() returns (v: Byte)
      requires Valid()
      modifies this, b64, src
      ensures Valid()
      ensures old(err).Some? ==> v == 0 && Idle()
      ensures old(err).None? ==> Fetched(1) && v == b64[0]
    {
      if err.Some? {
        return 0;
      }
      var data := ReadBytes(1);
      v := data[0];
    }

    method ReadU16(e: Endian) returns (v: Uint16)
      requires Valid()
      modifies this, b64, src
      ensures Valid()
      ensures old(err).Some? ==> v == 0 && Idle()
      ensures old(err).None? ==> Fetched(2) && v == Unsigned(b64[..2], e)
    {
      if err.Some? {
        return 0;
      }
      var data := ReadBytes(2);
      v := Uint16Of(data, e);
    }

    method ReadU24(e: Endian) returns (v: Uint24)
      requires Valid()
      modifies this, b64, src
      ensures Valid()
      ensures old(err).Some? ==> v == 0 && Idle()
      ensures old(err).None? ==> Fetched(3) && v == Unsigned(b64[..3], e)
    {
      if err.Some? {
        return 0;
      }
      var data := ReadBytes(3);
      v := Uint24Of(data, e);
    }

    method ReadU32(e: Endian) returns (v: Uint32)
      requires Valid()
      modifies this, b64, src
      ensures Valid()
      ensures old(err).Some? ==> v == 0 && Idle()
      ensures old(err).None? ==> Fetched(4) && v == Unsigned(b64[..4], e)
    {
      if err.Some? {
        return 0;
      }
      var data := ReadBytes(4);
      v := Uint32Of(data, e);
    }

    method ReadU64(e: Endian) returns (v: Uint64)
      requires Valid()
      modifies this, b64, src
      ensures Valid()
      ensures old(err).Some? ==> v == 0 && Idle()
      ensures old(err).None? ==> Fetched(8) && v == Unsigned(b64[..8], e)
    {
      if err.Some? {
        return 0;
      }
      var data := ReadBytes(8);
      v := Uint64Of(data, e);
    }

    /** ReadS8: Go's string conversion of the byte read, so one byte below 0x80 and two from 0x80 on. */
    method ReadS8() returns (s: seq<Byte>)
      requires Valid()
      modifies this, b64, src
      ensures Valid()
      ensures old(err).Some? ==> s == [] && Idle()
      ensures old(err).None? ==> Fetched(1) && s == RuneString(b64[0])
    {
      if err.Some? {
        return [];
      }
      var b := ReadU8();
      s := RuneString(b);
    }

    /** ReadS64's byte split: the 64-bit value into sbuf64, most-significant byte first. */
    method SplitBigEndian64(data: Uint64)
      requires Valid()
      modifies sbuf64
      ensures sbuf64[..] == BigEndianBytes(data, 8)
    {
      BigEndianBytes8(data);
      sbuf64[7] := data % 0x100;
      sbuf64[6] := data / 0x100 % 0x100;
      sbuf64[5] := data / 0x1_0000 % 0x100;
      sbuf64[4] := data / 0x100_0000 % 0x100;
      sbuf64[3] := data / 0x1_0000_0000 % 0x100;
      sbuf64[2] := data / 0x100_0000_0000 % 0x100;
      sbuf64[1] := data / 0x1_0000_0000_0000 % 0x100;
      sbuf64[0] := data / 0x100_0000_0000_0000 % 0x100;
      assert |sbuf64[..]| == 8;
    }

    /**
     * ReadS16: the 16-bit value split most-significant byte first, so the two
     * bytes in storage order for BigEndian and swapped for LittleEndian.
     */
    method ReadS16(e: Endian) returns (s: seq<Byte>)
      requires Valid()
      modifies this, b64, sbuf64, src
      ensures Valid()
      ensures old(err).Some? ==> s == [] && Idle()
      ensures old(err).None? ==> Fetched(2) && s == sbuf64[..2] && sbuf64[2..] == old(sbuf64[2..])
      ensures old(err).None? ==> s == if e == LittleEndian then Reverse(b64[..2]) else b64[..2]
    {
      if err.Some? {
        return [];
      }
      var data := ReadU16(e);
      ghost var field := b64[..2];
      BigEndianBytes2(data);
      ghost var want := BigEndianBytes(data, 2);
      sbuf64[1] := data % 0x100;
      sbuf64[0] := data / 0x100 % 0x100;
      s := sbuf64[..2];
      assert s == want;
      assert b64[..2] == field;
      Transposed(field, e);
    }

    method ReadS24(e: Endian) returns (s: seq<Byte>)
      requires Valid()
      modifies this, b64, sbuf64, src
      ensures Valid()
      ensures old(err).Some? ==> s == [] && Idle()
      ensures old(err).None? ==> Fetched(3) && s == sbuf64[..3] && sbuf64[3..] == old(sbuf64[3..])
      ensures old(err).None? ==> s == if e == LittleEndian then Reverse(b64[..3]) else b64[..3]
    {
      if err.Some? {
        return [];
      }
      var data := ReadU24(e);
      ghost var field := b64[..3];
      BigEndianBytes3(data);
      ghost var want := BigEndianBytes(data, 3);
      sbuf64[2] := data % 0x100;
      sbuf64[1] := data / 0x100 % 0x100;
      sbuf64[0] := data / 0x1_0000 % 0x100;
      s := sbuf64[..3];
      assert s == want;
      assert b64[..3] == field;
      Transposed(field, e);
    }

    method ReadS32(e: Endian) returns (s: seq<Byte>)
      requires Valid()
      modifies this, b64, sbuf64, src
      ensures Valid()
      ensures old(err).Some? ==> s == [] && Idle()
      ensures old(err).None? ==> Fetched(4) && s == sbuf64[..4] && sbuf64[4..] == old(sbuf64[4..])
      ensures old(err).None? ==> s == if e == LittleEndian then Reverse(b64[..4]) else b64[..4]
    {
      if err.Some? {
        return [];
      }
      var data := ReadU32(e);
      ghost var field := b64[..4];
      BigEndianBytes4(data);
      ghost var want := BigEndianBytes(data, 4);
      sbuf64[3] := data % 0x100;
      sbuf64[2] := data / 0x100 % 0x100;
      sbuf64[1] := data / 0x1_0000 % 0x100;
      sbuf64[0] := data / 0x100_0000 % 0x100;
      s := sbuf64[..4];
      assert s == want;
      assert b64[..4] == field;
      Transposed(field, e);
    }

    method ReadS64(e: Endian) returns (s: seq<Byte>)
      requires Valid()
      modifies this, b64, sbuf64, src
      ensures Valid()
      ensures old(err).Some? ==> s == [] && Idle()
      ensures old(err).None? ==> Fetched(8) && s == sbuf64[..8]
      ensures old(err).None? ==> s == if e == LittleEndian then Reverse(b64[..8]) else b64[..8]
    {
      if err.Some? {
        return [];
      }
      var data := ReadU64(e);
      ghost var field := b64[..8];
      SplitBigEndian64(data);
      s := sbuf64[..8];
      assert s == sbuf64[..];
      Transposed(field, e);
    }
  }
}
