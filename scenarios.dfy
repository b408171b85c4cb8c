/**
 * Clients of the Writer and the Reader over a fresh store, in the shape of the
 * repository's tests: write-then-read round trips for every accessor, one of
 * them writing a value in one byte order and then in the other and reading
 * both back; reads of known fields; the sticky error of either side; the
 * cursor control of the Writer; and WriteX batches, one read back field by
 * field and one whose transfer fails partway.
 */
module Scenarios {
  import opened ByteOrder
  import opened Store
  import opened Reading
  import opened Writing

  /**
   * The string accessors' round trip: packing the first w bytes of s
   * most-significant first, writing that value in order e and reading the w
   * bytes back as a string in order e returns s[..w].
   */
  lemma StringRoundTrip(s: seq<Byte>, w: nat, e: Endian)
    requires w <= |s|
    ensures var b := Encode(BigEndianValue(s[..w]), w, e);
      (if e == LittleEndian then Reverse(b) else b) == s[..w]
  {
    var t := s[..w];
    var b := Encode(BigEndianValue(t), w, e);
    DecodeEncode(BigEndianValue(t), w, e);
    Transposed(b, e);
    BigEndianBytesOfValue(t);
  }

  /** The 24-bit signed write and read: the low 24 bits of v, sign-extended; v itself when it fits. */
  lemma Int24RoundTrip(v: Int32)
    ensures -0x80_0000 <= ToSigned(v % 0x100_0000, 3) < 0x80_0000
    ensures (ToSigned(v % 0x100_0000, 3) - v) % 0x100_0000 == 0
    ensures -0x80_0000 <= v < 0x80_0000 ==> ToSigned(v % 0x100_0000, 3) == v
  {
  }

  method RoundTripI8(v: Int8) returns (n: nat, r: Int8)
    ensures n == 1 && r == v
  {
    var st := new Store(map[], []);
    var w := new Writer(st);
    n := w.WriteI8(v);
    ghost var p := w.b8[..];
    assert p[..1] == p;
    var rd := new Reader(st);
    OverlaySlice(map[], 0, p);
    r := rd.ReadI8();
  }

  method RoundTripI16(v: Int16, e: Endian) returns (n: nat, r: Int16)
    ensures n == 2 && r == v
  {
    var st := new Store(map[], []);
    var w := new Writer(st);
    n := w.WriteI16(v, e);
    ghost var p := w.b16[..];
    assert p[..2] == p;
    var rd := new Reader(st);
    OverlaySlice(map[], 0, p);
    DecodeEncode(ToUnsigned(v, 2), 2, e);
    r := rd.ReadI16(e);
  }

  /** Two 2-byte fields written one after the other at offset 0 read back at offsets 0 and 2. */
  lemma AdjacentFields(p: seq<Byte>, q: seq<Byte>)
    requires |p| == 2 && |q| == 2
    ensures Slice(Overlay(Overlay(map[], 0, p), 2, q), 0, 2) == p
    ensures Slice(Overlay(Overlay(map[], 0, p), 2, q), 2, 2) == q
  {
    var m := Overlay(Overlay(map[], 0, p), 2, q);
    OverlayAppend(map[], 0, p, q);
    OverlaySlice(map[], 0, p + q);
    assert Slice(m, 0, 2) == Slice(m, 0, 4)[..2];
    assert Slice(m, 2, 2) == Slice(m, 0, 4)[2..];
  }

  /** The store after v is written as an int16 at offset 0 little-endian and at offset 2 big-endian. */
  function BothOrders(v: Int16): (m: map<int, Byte>)
  {
    Overlay(Overlay(map[], 0, Encode(ToUnsigned(v, 2), 2, LittleEndian)), 2, Encode(ToUnsigned(v, 2), 2, BigEndian))
  }

  /** The write half of the test sequence: two 2-byte writes of v, little-endian then big-endian. */
  method WriteBothOrders(w: Writer, v: Int16) returns (n1: nat, n2: nat)
    requires w.Valid() && w.err == None && w.offset == 0 && w.dst.data == map[] && w.dst.replies == []
    modifies w, w.b16, w.dst
    ensures n1 == 2 && n2 == 2 && w.dst.data == BothOrders(v) && w.dst.replies == []
  {
    n1 := w.WriteI16(v, LittleEndian);
    ghost var p := w.b16[..];
    assert p[..2] == p;
    n2 := w.WriteI16(v, BigEndian);
    ghost var q := w.b16[..];
    assert q[..2] == q;
  }

  /** The read half: two int16 reads at offset 0, little-endian then big-endian, of that store. */
  method ReadBothOrders(rd: Reader, v: Int16) returns (r1: Int16, r2: Int16)
    requires rd.Valid() && rd.err == None && rd.offset == 0 && rd.src.data == BothOrders(v) && rd.src.replies == []
    modifies rd, rd.b64, rd.src
    ensures r1 == v && r2 == v
  {
    AdjacentFields(Encode(ToUnsigned(v, 2), 2, LittleEndian), Encode(ToUnsigned(v, 2), 2, BigEndian));
    DecodeEncode(ToUnsigned(v, 2), 2, LittleEndian);
    DecodeEncode(ToUnsigned(v, 2), 2, BigEndian);
    r1 := rd.ReadI16(LittleEndian);
    r2 := rd.ReadI16(BigEndian);
  }

  /**
   * The repository's test sequence: v written as an int16 little-endian and
   * then big-endian, one field after the other, and read back in the same
   * two orders.
   */
  method BothOrdersI16(v: Int16) returns (n1: nat, n2: nat, r1: Int16, r2: Int16)
    ensures n1 == 2 && n2 == 2 && r1 == v && r2 == v
  {
    var st := new Store(map[], []);
    var w := new Writer(st);
    n1, n2 := WriteBothOrders(w, v);
    var rd := new Reader(st);
    r1, r2 := ReadBothOrders(rd, v);
  }

  /** WriteRaw then ReadRaw of the same length: the bytes come back as written. */
  method RoundTripRaw(p: seq<Byte>) returns (n: nat, r: seq<Byte>)
    requires |p| <= 8
    ensures n == |p| && r == p
  {
    var st := new Store(map[], []);
    var w := new Writer(st);
    n := w.WriteRaw(p);
    assert p[..|p|] == p;
    OverlaySlice(map[], 0, p);
    var rd := new Reader(st);
    r := rd.ReadRaw(|p|);
  }

  /** The 24-bit signed field keeps the low 24 bits of v and sign-extends them back: v itself when it fits. */
  method RoundTripI24(v: Int32, e: Endian) returns (n: nat, r: Int32)
    ensures n == 3 && r == ToSigned(v % 0x100_0000, 3)
    ensures -0x80_0000 <= v < 0x80_0000 ==> r == v
  {
    var st := new Store(map[], []);
    var w := new Writer(st);
    n := w.WriteI24(v, e);
    ghost var p := w.b24[..];
    assert p[..3] == p;
    var rd := new Reader(st);
    OverlaySlice(map[], 0, p);
    DecodeEncode(v % 0x100_0000, 3, e);
    Int24RoundTrip(v);
    r := rd.ReadI24(e);
  }

  method RoundTripI32(v: Int32, e: Endian) returns (n: nat, r: Int32)
    ensures n == 4 && r == v
  {
    var st := new Store(map[], []);
    var w := new Writer(st);
    n := w.WriteI32(v, e);
    ghost var p := w.b32[..];
    assert p[..4] == p;
    var rd := new Reader(st);
    OverlaySlice(map[], 0, p);
    DecodeEncode(ToUnsigned(v, 4), 4, e);
    r := rd.ReadI32(e);
  }

  method RoundTripI64(v: Int64, e: Endian) returns (n: nat, r: Int64)
    ensures n == 8 && r == v
  {
    var st := new Store(map[], []);
    var w := new Writer(st);
    n := w.WriteI64(v, e);
    ghost var p := w.b64[..];
    assert p[..8] == p;
    var rd := new Reader(st);
    OverlaySlice(map[], 0, p);
    DecodeEncode(ToUnsigned(v, 8), 8, e);
    r := rd.ReadI64(e);
  }

  method RoundTripU8(v: Byte) returns (n: nat, r: Byte)
    ensures n == 1 && r == v
  {
    var st := new Store(map[], []);
    var w := new Writer(st);
    n := w.WriteU8(v);
    ghost var p := w.b8[..];
    assert p[..1] == p;
    var rd := new Reader(st);
    OverlaySlice(map[], 0, p);
    r := rd.ReadU8();
  }

  method RoundTripU16(v: Uint16, e: Endian) returns (n: nat, r: Uint16)
    ensures n == 2 && r == v
  {
    var st := new Store(map[], []);
    var w := new Writer(st);
    n := w.WriteU16(v, e);
    ghost var p := w.b16[..];
    assert p[..2] == p;
    var rd := new Reader(st);
    OverlaySlice(map[], 0, p);
    DecodeEncode(v, 2, e);
    r := rd.ReadU16(e);
  }

  /** WriteU24 takes a 32-bit value and keeps its low 24 bits, which read back. */
  method RoundTripU24(v: Uint32, e: Endian) returns (n: nat, r: Uint24)
    ensures n == 3 && r == v % 0x100_0000
  {
    var st := new Store(map[], []);
    var w := new Writer(st);
    n := w.WriteU24(v, e);
    ghost var p := w.b24[..];
    assert p[..3] == p;
    var rd := new Reader(st);
    OverlaySlice(map[], 0, p);
    DecodeEncode(v % 0x100_0000, 3, e);
    r := rd.ReadU24(e);
  }

  method RoundTripU32(v: Uint32, e: Endian) returns (n: nat, r: Uint32)
    ensures n == 4 && r == v
  {
    var st := new Store(map[], []);
    var w := new Writer(st);
    n := w.WriteU32(v, e);
    ghost var p := w.b32[..];
    assert p[..4] == p;
    var rd := new Reader(st);
    OverlaySlice(map[], 0, p);
    DecodeEncode(v, 4, e);
    r := rd.ReadU32(e);
  }

  method RoundTripU64(v: Uint64, e: Endian) returns (n: nat, r: Uint64)
    ensures n == 8 && r == v
  {
    var st := new Store(map[], []);
    var w := new Writer(st);
    n := w.WriteU64(v, e);
    ghost var p := w.b64[..];
    assert p[..8] == p;
    var rd := new Reader(st);
    OverlaySlice(map[], 0, p);
    DecodeEncode(v, 8, e);
    r := rd.ReadU64(e);
  }

  /** WriteS8 writes s[0]; ReadS8 gives it back as a one-character string when it is ASCII. */
  method RoundTripS8(s: seq<Byte>) returns (n: nat, r: seq<Byte>)
    requires |s| >= 1
    ensures n == 1 && r == RuneString(s[0])
    ensures s[0] < 0x80 ==> r == s[..1]
  {
    var st := new Store(map[], []);
    var w := new Writer(st);
    n := w.WriteS8(s);
    ghost var p := w.b8[..];
    assert p[..1] == p;
    var rd := new Reader(st);
    OverlaySlice(map[], 0, p);
    r := rd.ReadS8();
  }

  /** A string's first w bytes, written in order e, read back unchanged in order e. */
  method RoundTripS16(s: seq<Byte>, e: Endian) returns (n: nat, r: seq<Byte>)
    requires |s| >= 2
    ensures n == 2 && r == s[..2]
  {
    var st := new Store(map[], []);
    var w := new Writer(st);
    n := w.WriteS16(s, e);
    ghost var p := w.b16[..];
    assert p[..2] == p;
    var rd := new Reader(st);
    OverlaySlice(map[], 0, p);
    StringRoundTrip(s, 2, e);
    r := rd.ReadS16(e);
  }

  method RoundTripS24(s: seq<Byte>, e: Endian) returns (n: nat, r: seq<Byte>)
    requires |s| >= 3
    ensures n == 3 && r == s[..3]
  {
    var st := new Store(map[], []);
    var w := new Writer(st);
    n := w.WriteS24(s, e);
    ghost var p := w.b24[..];
    assert p[..3] == p;
    var rd := new Reader(st);
    OverlaySlice(map[], 0, p);
    StringRoundTrip(s, 3, e);
    r := rd.ReadS24(e);
  }

  method RoundTripS32(s: seq<Byte>, e: Endian) returns (n: nat, r: seq<Byte>)
    requires |s| >= 4
    ensures n == 4 && r == s[..4]
  {
    var st := new Store(map[], []);
    var w := new Writer(st);
    n := w.WriteS32(s, e);
    ghost var p := w.b32[..];
    assert p[..4] == p;
    var rd := new Reader(st);
    OverlaySlice(map[], 0, p);
    StringRoundTrip(s, 4, e);
    r := rd.ReadS32(e);
  }

  method RoundTripS64(s: seq<Byte>, e: Endian) returns (n: nat, r: seq<Byte>)
    requires |s| >= 8
    ensures n == 8 && r == s[..8]
  {
    var st := new Store(map[], []);
    var w := new Writer(st);
    n := w.WriteS64(s, e);
    ghost var p := w.b64[..];
    assert p[..8] == p;
    var rd := new Reader(st);
    OverlaySlice(map[], 0, p);
    StringRoundTrip(s, 8, e);
    r := rd.ReadS64(e);
  }

  /** A sign bit alone, stored little-endian, reads as the minimum of the 16-bit signed type. */
  method ReadMinimum16() returns (v: Int16)
    ensures v == -0x8000
  {
    var st := new Store(Overlay(map[], 0, [0x00, 0x80]), []);
    var r := new Reader(st);
    OverlaySlice(map[], 0, [0x00, 0x80]);
    v := r.ReadI16(LittleEndian);
  }

  /** The same for the 24-bit field: the minimum of the 24-bit range, -8388608. */
  method ReadMinimum24() returns (v: Int32)
    ensures v == -0x80_0000
  {
    var st := new Store(Overlay(map[], 0, [0x00, 0x00, 0x80]), []);
    var r := new Reader(st);
    OverlaySlice(map[], 0, [0x00, 0x00, 0x80]);
    v := r.ReadI24(LittleEndian);
  }

  /** The same for the 64-bit field, stored big-endian. */
  method ReadMinimum64() returns (v: Int64)
    ensures v == -0x8000_0000_0000_0000
  {
    var bytes := [0x80, 0, 0, 0, 0, 0, 0, 0];
    var st := new Store(Overlay(map[], 0, bytes), []);
    var r := new Reader(st);
    OverlaySlice(map[], 0, bytes);
    BigEndianValue8(bytes);
    v := r.ReadI64(BigEndian);
  }

  /** The string accessors: stored "4321" reads as "1234" little-endian. */
  method ReadStringLittle() returns (s: seq<Byte>)
    ensures s == [0x31, 0x32, 0x33, 0x34]
  {
    var bytes := [0x34, 0x33, 0x32, 0x31];
    var st := new Store(Overlay(map[], 0, bytes), []);
    var r := new Reader(st);
    OverlaySlice(map[], 0, bytes);
    s := r.ReadS32(LittleEndian);
  }

  /** ... and as "4321" big-endian. */
  method ReadStringBig() returns (s: seq<Byte>)
    ensures s == [0x34, 0x33, 0x32, 0x31]
  {
    var bytes := [0x34, 0x33, 0x32, 0x31];
    var st := new Store(Overlay(map[], 0, bytes), []);
    var r := new Reader(st);
    OverlaySlice(map[], 0, bytes);
    s := r.ReadS32(BigEndian);
  }

  /**
   * A reader whose first transfer fails, after count bytes: that read still
   * moves the cursor by its width, the error sticks, and every later read
   * returns its zero value without a transfer and without moving the cursor.
   */
  method StickyReader(count: nat, code: int, e: Endian)
    returns (later: Uint16, s: seq<Byte>, raw: seq<Byte>, offset: int, transfers: nat, err: Option<IoError>)
    ensures later == 0 && s == [] && raw == []
    ensures offset == 4 && transfers == 1 && err == Some(IoError(code))
  {
    var st := new Store(map[], [Reply(count, Some(IoError(code)))]);
    var r := new Reader(st);
    var _ := r.ReadU32(e);
    later := r.ReadU16(e);
    s := r.ReadS64(e);
    raw := r.ReadRaw(100);
    offset := r.offset;
    transfers := st.transfers;
    err := r.Err();
  }

  /**
   * A writer whose first transfer stores only count bytes and fails: the
   * cursor moves by what was stored, the error sticks, and every later write,
   * a batch included, returns 0 without a transfer.
   */
  method StickyWriter(count: nat, code: int, v: Uint32, e: Endian)
    returns (n: nat, stored: seq<Byte>, later: nat, batch: nat, offset: int, transfers: nat)
    ensures n == Min(count, 4) && stored == Encode(v, 4, e)[..n]
    ensures later == 0 && batch == 0 && offset == n && transfers == 1
  {
    var st := new Store(map[], [Reply(count, Some(IoError(code)))]);
    var w := new Writer(st);
    n := w.WriteU32(v, e);
    ghost var p := w.b32[..];
    later := w.WriteS16([], e);
    batch := w.WriteX(e, [One(U8(1)), Many([I64(-1), U16(7)])]);
    offset := w.GetOffset();
    transfers := st.transfers;
    OverlaySlice(map[], 0, p[..n]);
    stored := Slice(st.data, 0, n);
  }

  /** The int64 -1 is eight 0xFF bytes; little-endian, its first three are 0xFF. */
  lemma MinusOneBytes()
    ensures ScalarBytes(I64(-1), LittleEndian)[..3] == [0xFF, 0xFF, 0xFF]
  {
    LittleEndianBytes8(0xFFFF_FFFF_FFFF_FFFF);
  }

  /**
   * Two transfers, of a 1-byte and then an 8-byte field, against a store that
   * takes the first whole and then 3 bytes with an error.
   */
  lemma FailingTransfers(s: Sink, p: seq<Byte>, q: seq<Byte>)
    requires s.err.None? && s.replies == [Reply(1, None), Reply(3, Some(IoError(5)))]
    requires |p| == 1 && |q| == 8
    ensures Transfer(Transfer(s, p), q)
         == Sink(s.offset + 4, Some(IoError(5)), Overlay(s.data, s.offset, p + q[..3]), [], s.transfers + 2)
  {
    assert p[..1] == p;
    OverlayAppend(s.data, s.offset, p, q[..3]);
  }

  /**
   * Writing a uint8 1, an int64 -1 and a uint16 7 against that store: two
   * transfers, 4 bytes stored, the error kept, and the last scalar not
   * written.
   */
  lemma FailingRun(s: Sink)
    requires s.err.None? && s.replies == [Reply(1, None), Reply(3, Some(IoError(5)))]
    ensures Run(s, [U8(1), I64(-1), U16(7)], LittleEndian)
         == Sink(s.offset + 4, Some(IoError(5)), Overlay(s.data, s.offset, [1, 0xFF, 0xFF, 0xFF]), [], s.transfers + 2)
  {
    var p, q := ScalarBytes(U8(1), LittleEndian), ScalarBytes(I64(-1), LittleEndian);
    FailingTransfers(s, p, q);
    RunAppend(s, [U8(1), I64(-1)], [U16(7)], LittleEndian);
    RunAppend(s, [U8(1)], [I64(-1)], LittleEndian);
    RunOne(s, U8(1), LittleEndian);
    RunOne(Transfer(s, p), I64(-1), LittleEndian);
    assert p + q[..3] == [1, 0xFF, 0xFF, 0xFF] by {
      EncodeByte(1, LittleEndian);
      MinusOneBytes();
    }
  }

  /**
   * A batch whose second transfer fails partway: WriteX returns 1 + 3, the
   * cursor is 4 on, the error is sticky, and the uint16 after the failure is
   * never transferred.
   */
  method FailingBatch() returns (n: nat, offset: int, transfers: nat, err: Option<IoError>, stored: seq<Byte>)
    ensures n == 4 && offset == 4 && transfers == 2 && err == Some(IoError(5))
    ensures stored == [1, 0xFF, 0xFF, 0xFF]
  {
    var st := new Store(map[], [Reply(1, None), Reply(3, Some(IoError(5)))]);
    var w := new Writer(st);
    var items := [One(U8(1)), Many([I64(-1), U16(7)])];
    ghost var s0 := w.State();
    n := w.WriteX(LittleEndian, items);
    assert Scalars(items) == [U8(1), I64(-1), U16(7)] by {
      var x := [One(U8(1))];
      assert Scalars(x) == [U8(1)] by { assert x[..0] == []; }
      assert items[..1] == x;
    }
    FailingRun(s0.sink);
    OverlaySlice(map[], 0, [1, 0xFF, 0xFF, 0xFF]);
    offset := w.GetOffset();
    transfers := st.transfers;
    err := w.Err();
    stored := Slice(st.data, 0, 4);
  }

  /** SetOffset moves the cursor without a transfer; the next write lands there and moves it on. */
  method SeekThenWrite(off: int, v: Uint16, e: Endian)
    returns (before: int, idle: nat, n: nat, after: int, stored: seq<Byte>)
    ensures before == off && idle == 0
    ensures n == 2 && after == off + 2 && stored == Encode(v, 2, e)
  {
    var st := new Store(map[], []);
    var w := new Writer(st);
    w.SetOffset(off);
    before := w.GetOffset();
    idle := st.transfers;
    n := w.WriteU16(v, e);
    after := w.GetOffset();
    assert w.b16[..][..2] == w.b16[..];
    OverlaySlice(map[], off, w.b16[..]);
    stored := Slice(st.data, off, 2);
  }

  /**
   * The bytes of a batch of the int8 -128, the uint16 0x1234 and the int32
   * slice 1, 2, 3, little-endian: each field in turn.
   */
  lemma BatchBytes()
    ensures Serialized(Scalars([One(I8(-128)), One(U16(0x1234)), Many([I32(1), I32(2), I32(3)])]), LittleEndian)
         == [0x80] + [0x34, 0x12] + [1, 0, 0, 0] + [2, 0, 0, 0] + [3, 0, 0, 0]
  {
    BatchLayout(-128, 0x1234, 1, 2, 3, LittleEndian);
    assert ToUnsigned(-128, 1) == 0x80;
    assert Encode(0x1234, 2, LittleEndian) == [0x34, 0x12] by { LittleEndianBytes2(0x1234); }
    SmallInt32(1);
    SmallInt32(2);
    SmallInt32(3);
  }

  /** A small non-negative int32 is its low byte followed by three zero bytes, little-endian. */
  lemma SmallInt32(x: Int32)
    requires 0 <= x < 0x100
    ensures Encode(ToUnsigned(x, 4), 4, LittleEndian) == [x, 0, 0, 0]
  {
    LittleEndianBytes4(x);
  }

  /** WriteX of that batch returns 15 and stores those bytes at offset 0. */
  method WriteBatch() returns (n: nat, stored: seq<Byte>)
    ensures n == 15 && stored == [0x80] + [0x34, 0x12] + [1, 0, 0, 0] + [2, 0, 0, 0] + [3, 0, 0, 0]
  {
    var st := new Store(map[], []);
    var w := new Writer(st);
    var items := [One(I8(-128)), One(U16(0x1234)), Many([I32(1), I32(2), I32(3)])];
    BatchBytes();
    ghost var s0 := w.State();
    n := w.WriteX(LittleEndian, items);
    RunComplete(s0.sink, Scalars(items), LittleEndian);
    RunLayout(s0.sink, Scalars(items), LittleEndian);
    OverlaySlice(map[], 0, Serialized(Scalars(items), LittleEndian));
    stored := Slice(st.data, 0, 15);
  }

  /** The layout of a batch of an int8, a uint16 and a slice of three int32: the fields one after another. */
  lemma BatchLayout(a: Int8, b: Uint16, c1: Int32, c2: Int32, c3: Int32, e: Endian)
    ensures Serialized(Scalars([One(I8(a)), One(U16(b)), Many([I32(c1), I32(c2), I32(c3)])]), e)
         == [ToUnsigned(a, 1)] + Encode(b, 2, e) + Encode(ToUnsigned(c1, 4), 4, e) +
            Encode(ToUnsigned(c2, 4), 4, e) + Encode(ToUnsigned(c3, 4), 4, e)
  {
    var items := [One(I8(a)), One(U16(b)), Many([I32(c1), I32(c2), I32(c3)])];
    BatchItems(a, b, c1, c2, c3);
    SerializedAppend([I8(a), U16(b)], [I32(c1), I32(c2), I32(c3)], e);
    LayoutHead(a, b, e);
    LayoutTail(c1, c2, c3, e);
  }

  /** The scalars of a batch of an int8, a uint16 and a slice of three int32, in order. */
  lemma BatchItems(a: Int8, b: Uint16, c1: Int32, c2: Int32, c3: Int32)
    ensures Scalars([One(I8(a)), One(U16(b)), Many([I32(c1), I32(c2), I32(c3)])])
         == [I8(a), U16(b)] + [I32(c1), I32(c2), I32(c3)]
  {
    var items := [One(I8(a)), One(U16(b)), Many([I32(c1), I32(c2), I32(c3)])];
    var x := [One(I8(a))];
    var y := x + [One(U16(b))];
    assert Scalars(x) == [I8(a)] by { assert x[..0] == []; }
    assert Scalars(y) == [I8(a), U16(b)] by { assert y[..1] == x; }
    assert items[..2] == y;
  }

  lemma LayoutHead(a: Int8, b: Uint16, e: Endian)
    ensures Serialized([I8(a), U16(b)], e) == [ToUnsigned(a, 1)] + Encode(b, 2, e)
  {
    SerializedAppend([I8(a)], [U16(b)], e);
    assert [I8(a)] + [U16(b)] == [I8(a), U16(b)];
    SerializedOne(I8(a), e);
    SerializedOne(U16(b), e);
    EncodeByte(ToUnsigned(a, 1), e);
  }

  lemma LayoutTail(c1: Int32, c2: Int32, c3: Int32, e: Endian)
    ensures Serialized([I32(c1), I32(c2), I32(c3)], e)
         == Encode(ToUnsigned(c1, 4), 4, e) + Encode(ToUnsigned(c2, 4), 4, e) + Encode(ToUnsigned(c3, 4), 4, e)
  {
    SerializedAppend([I32(c1)], [I32(c2), I32(c3)], e);
    SerializedAppend([I32(c2)], [I32(c3)], e);
    assert [I32(c1)] + [I32(c2), I32(c3)] == [I32(c1), I32(c2), I32(c3)];
    assert [I32(c2)] + [I32(c3)] == [I32(c2), I32(c3)];
    SerializedOne(I32(c1), e);
    SerializedOne(I32(c2), e);
    SerializedOne(I32(c3), e);
  }

  /** Reads an int8, a uint16 and three int32 in order e: the fields of the 15 bytes at the cursor. */
  method ReadBatch(r: Reader, e: Endian) returns (a: Int8, b: Uint16, c: seq<Int32>)
    requires r.Valid() && r.err == None && r.src.replies == []
    modifies r, r.b64, r.src
    ensures var d := Slice(old(r.src.data), old(r.offset), 15);
      a == ToSigned(d[0], 1) && b == Unsigned(d[1..3], e) && |c| == 3 &&
      forall i :: 0 <= i < 3 ==> c[i] == ToSigned(Unsigned(d[3 + 4 * i..7 + 4 * i], e), 4)
  {
    ghost var m, off := r.src.data, r.offset;
    ghost var d := Slice(m, off, 15);
    assert Slice(m, off, 1) == d[0..1] && Slice(m, off + 1, 2) == d[1..3];
    a := r.ReadI8();
    b := r.ReadU16(e);
    c := [];
    var k := 0;
    while k < 3
      invariant 0 <= k <= 3 && |c| == k
      invariant r.Valid() && r.err == None && r.offset == off + 3 + 4 * k
      invariant r.src.data == m && r.src.replies == []
      invariant forall i :: 0 <= i < k ==> c[i] == ToSigned(Unsigned(d[3 + 4 * i..7 + 4 * i], e), 4)
    {
      assert Slice(m, off + 3 + 4 * k, 4) == d[3 + 4 * k..7 + 4 * k];
      var x := r.ReadI32(e);
      c := c + [x];
      k := k + 1;
    }
  }

  /** In a concatenation, the range after the first part is the second part, and every range inside the first part is unchanged. */
  lemma Concat(p: seq<Byte>, q: seq<Byte>)
    ensures (p + q)[|p|..|p| + |q|] == q
    ensures forall i, j :: 0 <= i <= j <= |p| ==> (p + q)[i..j] == p[i..j]
  {
  }

  /** Each field of that layout decodes, in order e, as the value it holds. */
  lemma BatchFields(a: Int8, b: Uint16, c1: Int32, c2: Int32, c3: Int32, e: Endian)
    ensures var s := [ToUnsigned(a, 1)] + Encode(b, 2, e) + Encode(ToUnsigned(c1, 4), 4, e) +
                     Encode(ToUnsigned(c2, 4), 4, e) + Encode(ToUnsigned(c3, 4), 4, e);
      |s| == 15 && ToSigned(s[0], 1) == a && Unsigned(s[1..3], e) == b &&
      ToSigned(Unsigned(s[3..7], e), 4) == c1 && ToSigned(Unsigned(s[7..11], e), 4) == c2 &&
      ToSigned(Unsigned(s[11..15], e), 4) == c3
  {
    var p0, p1 := [ToUnsigned(a, 1)], Encode(b, 2, e);
    var p2, p3, p4 := Encode(ToUnsigned(c1, 4), 4, e), Encode(ToUnsigned(c2, 4), 4, e), Encode(ToUnsigned(c3, 4), 4, e);
    var q1 := p0 + p1;
    var q2 := q1 + p2;
    var q3 := q2 + p3;
    var s := q3 + p4;
    Concat(p0, p1);
    Concat(q1, p2);
    Concat(q2, p3);
    Concat(q3, p4);
    assert s[1..3] == q3[1..3] == q2[1..3] == q1[1..3] == p1;
    assert s[3..7] == q3[3..7] == q2[3..7] == p2;
    assert s[7..11] == q3[7..11] == p3;
    DecodeEncode(b, 2, e);
    DecodeEncode(ToUnsigned(c1, 4), 4, e);
    DecodeEncode(ToUnsigned(c2, 4), 4, e);
    DecodeEncode(ToUnsigned(c3, 4), 4, e);
  }

  /**
   * Any batch of an int8, a uint16 and a slice of three int32 written with
   * WriteX in order e occupies 15 bytes and reads back field by field, in
   * argument order, as the values written.
   */
  method BatchRoundTrip(a: Int8, b: Uint16, c1: Int32, c2: Int32, c3: Int32, e: Endian)
    returns (n: nat, ra: Int8, rb: Uint16, rc: seq<Int32>)
    ensures n == 15 && ra == a && rb == b && |rc| == 3 && rc[0] == c1 && rc[1] == c2 && rc[2] == c3
  {
    var st := new Store(map[], []);
    var w := new Writer(st);
    var items := [One(I8(a)), One(U16(b)), Many([I32(c1), I32(c2), I32(c3)])];
    ghost var s0 := w.State();
    n := w.WriteX(e, items);
    RunComplete(s0.sink, Scalars(items), e);
    RunLayout(s0.sink, Scalars(items), e);
    ghost var s := Serialized(Scalars(items), e);
    BatchLayout(a, b, c1, c2, c3, e);
    BatchFields(a, b, c1, c2, c3, e);
    OverlaySlice(map[], 0, s);
    assert Slice(st.data, 0, 15) == s;
    var r := new Reader(st);
    ra, rb, rc := ReadBatch(r, e);
  }
}
