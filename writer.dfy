/**
 * writer.go: a Writer encodes fixed-width integers and fixed-length strings to
 * a store at an internal cursor, which callers may also read and set. The
 * first transfer error is kept as a sticky error, after which every write
 * returns 0 at once. WriteX writes a heterogeneous batch of integers.
 */
module Writing {
  import opened ByteOrder
  import opened Store

  /** WriteS16's packing s[0]<<8 | s[1]; the shifted bytes do not overlap, so | adds. */
  function Pack16(s: seq<Byte>): (v: Uint16)
    requires |s| >= 2
    ensures v == BigEndianValue(s[..2])
  {
    BigEndianValue2(s[..2]);
    s[0] as int * 0x100 + s[1]
  }

  /** WriteS24's packing s[0]<<16 | s[1]<<8 | s[2]. */
  function Pack24(s: seq<Byte>): (v: Uint24)
    requires |s| >= 3
    ensures v == BigEndianValue(s[..3])
  {
    BigEndianValue3(s[..3]);
    s[0] as int * 0x1_0000 + s[1] as int * 0x100 + s[2]
  }

  /** WriteS32's packing s[0]<<24 | ... | s[3]. */
  function Pack32(s: seq<Byte>): (v: Uint32)
    requires |s| >= 4
    ensures v == BigEndianValue(s[..4])
  {
    BigEndianValue4(s[..4]);
    s[0] as int * 0x100_0000 + s[1] as int * 0x1_0000 + s[2] as int * 0x100 + s[3]
  }

  /** WriteS64's packing s[0]<<56 | ... | s[7]. */
  function Pack64(s: seq<Byte>): (v: Uint64)
    requires |s| >= 8
    ensures v == BigEndianValue(s[..8])
  {
    BigEndianValue8(s[..8]);
    s[0] as int * 0x100_0000_0000_0000 + s[1] as int * 0x1_0000_0000_0000 +
    s[2] as int * 0x100_0000_0000 + s[3] as int * 0x1_0000_0000 +
    s[4] as int * 0x100_0000 + s[5] as int * 0x1_0000 + s[6] as int * 0x100 + s[7]
  }

  /** A value WriteX accepts: one of Go's eight fixed-width integer types (a pointer to one writes the same). */
  datatype Scalar =
    | I8(i8: Int8) | I16(i16: Int16) | I32(i32: Int32) | I64(i64: Int64)
    | U8(u8: Byte) | U16(u16: Uint16) | U32(u32: Uint32) | U64(u64: Uint64)

  /** An argument of WriteX: a single integer or a slice of them. */
  datatype Item = One(x: Scalar) | Many(xs: seq<Scalar>)

  /** The size in bytes of the scalar's Go type. */
  function Width(x: Scalar): (w: nat)
    ensures 1 <= w <= 8
  {
    match x
    case I8(_) => 1
    case U8(_) => 1
    case I16(_) => 2
    case U16(_) => 2
    case I32(_) => 4
    case U32(_) => 4
    case I64(_) => 8
    case U64(_) => 8
  }

  /** The scalar's unsigned bit pattern in its width: Go's conversion to the same-size unsigned type. */
  function Bits(x: Scalar): (u: nat)
    ensures u < Pow256(Width(x))
  {
    match x
    case I8(v) => ToUnsigned(v, 1)
    case I16(v) => ToUnsigned(v, 2)
    case I32(v) => ToUnsigned(v, 4)
    case I64(v) => ToUnsigned(v, 8)
    case U8(v) => v
    case U16(v) => v
    case U32(v) => v
    case U64(v) => v
  }

  /** The bytes a scalar's write puts in its buffer: its bit pattern in its width and byte order e. */
  function ScalarBytes(x: Scalar, e: Endian): (d: seq<Byte>)
    ensures |d| == Width(x)
  {
    Encode(Bits(x), Width(x), e)
  }

  /** A single byte is its own encoding in either order. */
  lemma EncodeByte(b: Byte, e: Endian)
    ensures Encode(b, 1, e) == [b]
  {
    assert LittleEndianBytes(b, 1) == [b % 0x100] + LittleEndianBytes(b / 0x100, 0);
    assert BigEndianBytes(b, 1) == BigEndianBytes(b / 0x100, 0) + [b % 0x100];
  }

  /** The scalars one WriteX argument writes, in order. */
  function Elements(item: Item): (xs: seq<Scalar>)
  {
    match item
    case One(x) => [x]
    case Many(xs) => xs
  }

  /** The scalars a WriteX call writes: the arguments in order, slice elements in index order. */
  function Scalars(items: seq<Item>): (xs: seq<Scalar>)
  {
    if items == [] then [] else Scalars(items[..|items| - 1]) + Elements(items[|items| - 1])
  }

  /** The bytes of the scalars xs laid out one after another. */
  function Serialized(xs: seq<Scalar>, e: Endian): (d: seq<Byte>)
  {
    if xs == [] then [] else Serialized(xs[..|xs| - 1], e) + ScalarBytes(xs[|xs| - 1], e)
  }

  /** Serializing a concatenation concatenates the serializations. */
  lemma {:induction false} SerializedAppend(a: seq<Scalar>, b: seq<Scalar>, e: Endian)
    ensures Serialized(a + b, e) == Serialized(a, e) + Serialized(b, e)
    decreases |b|
  {
    if b == [] {
      assert a + b == a;
    } else {
      var b' := b[..|b| - 1];
      SerializedAppend(a, b', e);
      assert (a + b)[..|a + b| - 1] == a + b';
      assert (a + b)[|a + b| - 1] == b[|b| - 1];
    }
  }

  /** One scalar serializes to its own bytes. */
  lemma SerializedOne(x: Scalar, e: Endian)
    ensures Serialized([x], e) == ScalarBytes(x, e)
  {
    assert [x][..0] == [];
  }

  /** The items before index i + 1 write those before i, then item i. */
  lemma ScalarsStep(items: seq<Item>, i: nat)
    requires i < |items|
    ensures Scalars(items[..i + 1]) == Scalars(items[..i]) + Elements(items[i])
  {
    assert items[..i + 1][..i] == items[..i];
  }

  /** Serializing a nonempty batch puts its first scalar's bytes first. */
  lemma SerializedFront(xs: seq<Scalar>, e: Endian)
    requires xs != []
    ensures Serialized(xs, e) == ScalarBytes(xs[0], e) + Serialized(xs[1..], e)
  {
    SerializedAppend([xs[0]], xs[1..], e);
    SerializedOne(xs[0], e);
    assert [xs[0]] + xs[1..] == xs;
  }

  /** A Writer's cursor and sticky error together with the store it writes to. */
  datatype Sink = Sink(offset: int, err: Option<IoError>, data: map<int, Byte>, replies: seq<Reply>, transfers: nat)

  /**
   * writeBytes(p) on a sink: one transfer of p at the cursor; the first count
   * bytes of p are stored, where count is what the store reports; the cursor
   * moves count on; the reported error, if any, becomes the sticky error.
   */
  function Transfer(s: Sink, p: seq<Byte>): (t: Sink)
    ensures s.offset <= t.offset <= s.offset + |p|
    ensures t.transfers == s.transfers + 1
  {
    var r := Respond(s.replies, |p|);
    Sink(s.offset + r.count, r.err, Overlay(s.data, s.offset, p[..r.count]), Rest(s.replies), s.transfers + 1)
  }

  /**
   * The writes of the scalars xs, in order, starting from s: while no error is
   * set, each scalar is one transfer of its field; once one is set, the
   * remaining writes return at once.
   */
  function Run(s: Sink, xs: seq<Scalar>, e: Endian): (r: Sink)
    ensures s.offset <= r.offset
    ensures r.err.None? ==> s.err.None?
    decreases |xs|
  {
    if s.err.Some? || xs == [] then s else Run(Transfer(s, ScalarBytes(xs[0], e)), xs[1..], e)
  }

  /** Writing one scalar is one transfer of its field, or nothing once the error is set. */
  lemma RunOne(s: Sink, x: Scalar, e: Endian)
    ensures Run(s, [x], e) == if s.err.Some? then s else Transfer(s, ScalarBytes(x, e))
  {
    assert [x][1..] == [];
  }

  /** Writing xs and then ys is writing xs + ys. */
  lemma {:induction false} RunAppend(s: Sink, xs: seq<Scalar>, ys: seq<Scalar>, e: Endian)
    ensures Run(s, xs + ys, e) == Run(Run(s, xs, e), ys, e)
    decreases |xs|
  {
    if s.err.Some? {
    } else if xs == [] {
      assert xs + ys == ys;
    } else {
      assert (xs + ys)[0] == xs[0] && (xs + ys)[1..] == xs[1..] + ys;
      RunAppend(Transfer(s, ScalarBytes(xs[0], e)), xs[1..], ys, e);
    }
  }

  /**
   * How many transfers writes of xs do: none once the error is set, and
   * otherwise at most one per scalar, exactly one per scalar when no error
   * turns up.
   */
  lemma {:induction false} RunTransfers(s: Sink, xs: seq<Scalar>, e: Endian)
    ensures s.err.Some? ==> Run(s, xs, e) == s
    ensures s.transfers <= Run(s, xs, e).transfers <= s.transfers + |xs|
    ensures Run(s, xs, e).err.None? ==> Run(s, xs, e).transfers == s.transfers + |xs|
    decreases |xs|
  {
    if s.err.None? && xs != [] {
      var t := Transfer(s, ScalarBytes(xs[0], e));
      RunTransfers(t, xs[1..], e);
      assert Run(s, xs, e) == Run(t, xs[1..], e);
    }
  }

  /**
   * Writes of xs with no error set stop at the first failing reply: with k
   * transfers done, every reply consumed before the last one is error-free
   * and the final error is the last consumed reply's. So k is |xs| when no
   * consumed reply fails and otherwise the position of the first failing
   * reply plus one.
   */
  lemma {:induction false} RunFirstError(s: Sink, xs: seq<Scalar>, e: Endian)
    requires s.err.None?
    ensures var r := Run(s, xs, e);
      var k := r.transfers - s.transfers;
      (forall i :: 0 <= i < k - 1 && i < |s.replies| ==> s.replies[i].err.None?) &&
      r.err == (if 0 < k <= |s.replies| then s.replies[k - 1].err else None)
    decreases |xs|
  {
    if xs != [] {
      var t := Transfer(s, ScalarBytes(xs[0], e));
      var r := Run(t, xs[1..], e);
      assert Run(s, xs, e) == r;
      if t.err.None? {
        RunFirstError(t, xs[1..], e);
        RunTransfers(t, xs[1..], e);
        if s.replies != [] {
          assert t.replies == s.replies[1..];
        }
      }
    }
  }

  /** Writes of xs with no error set use up the first k replies of the script, k being their number of transfers. */
  lemma {:induction false} RunReplies(s: Sink, xs: seq<Scalar>, e: Endian)
    requires s.err.None?
    ensures Run(s, xs, e).transfers >= s.transfers
    ensures Run(s, xs, e).replies == s.replies[Min(Run(s, xs, e).transfers - s.transfers, |s.replies|)..]
    decreases |xs|
  {
    RunTransfers(s, xs, e);
    if xs != [] {
      var t := Transfer(s, ScalarBytes(xs[0], e));
      var r := Run(t, xs[1..], e);
      assert Run(s, xs, e) == r;
      if t.err.None? {
        RunReplies(t, xs[1..], e);
        RestSlice(s.replies, r.transfers - t.transfers);
      }
    }
  }

  /** Using up k replies after the first is using up k + 1. */
  lemma RestSlice(replies: seq<Reply>, k: nat)
    ensures Rest(replies)[Min(k, |Rest(replies)|)..] == replies[Min(k + 1, |replies|)..]
  {
  }

  /** Every reply the writes of xs would consume takes its field whole and without error. */
  ghost predicate Whole(replies: seq<Reply>, xs: seq<Scalar>, e: Endian)
  {
    forall i :: 0 <= i < |xs| && i < |replies| ==>
      replies[i].err.None? && replies[i].count >= |ScalarBytes(xs[i], e)|
  }

  /** A transfer the store takes whole and without error stores all of p and moves the cursor past it. */
  lemma TransferWhole(s: Sink, p: seq<Byte>)
    requires s.replies != [] ==> s.replies[0].err.None? && s.replies[0].count >= |p|
    ensures Transfer(s, p) == Sink(s.offset + |p|, None, Overlay(s.data, s.offset, p), Rest(s.replies), s.transfers + 1)
  {
    assert p[..|p|] == p;
  }

  /** After the first scalar's transfer, the remaining replies take the remaining scalars whole. */
  lemma WholeRest(replies: seq<Reply>, xs: seq<Scalar>, e: Endian)
    requires xs != [] && Whole(replies, xs, e)
    ensures Whole(Rest(replies), xs[1..], e)
  {
    forall i | 0 <= i < |xs[1..]| && i < |Rest(replies)|
      ensures Rest(replies)[i].err.None? && Rest(replies)[i].count >= |ScalarBytes(xs[1..][i], e)|
    {
      assert Rest(replies)[i] == replies[i + 1] && xs[1..][i] == xs[i + 1];
    }
  }

  /**
   * When no error is set and every reply the writes of xs consume takes its
   * field whole and without error, the writes end with no error, one transfer
   * per scalar, and the cursor just past the last field.
   */
  lemma {:induction false} RunComplete(s: Sink, xs: seq<Scalar>, e: Endian)
    requires s.err.None? && Whole(s.replies, xs, e)
    ensures Run(s, xs, e).err.None?
    ensures Run(s, xs, e).offset == s.offset + |Serialized(xs, e)|
    ensures Run(s, xs, e).transfers == s.transfers + |xs|
    ensures s.replies == [] ==> Run(s, xs, e).replies == []
    decreases |xs|
  {
    if xs == [] {
      assert Serialized(xs, e) == [];
    } else {
      var p := ScalarBytes(xs[0], e);
      var t := Transfer(s, p);
      TransferWhole(s, p);
      WholeRest(s.replies, xs, e);
      RunComplete(t, xs[1..], e);
      assert Run(s, xs, e) == Run(t, xs[1..], e);
      SerializedFront(xs, e);
    }
  }

  /** A whole, error-free transfer of p followed by writes that lay rest at the new cursor lays p + rest at the old one. */
  lemma LayoutStep(s: Sink, p: seq<Byte>, r: Sink, rest: seq<Byte>)
    requires s.replies != [] ==> s.replies[0].err.None? && s.replies[0].count >= |p|
    requires r.data == Overlay(Transfer(s, p).data, Transfer(s, p).offset, rest)
    ensures r.data == Overlay(s.data, s.offset, p + rest)
  {
    TransferWhole(s, p);
    OverlayAppend(s.data, s.offset, p, rest);
  }

  /**
   * Under the same conditions the fields lie one after another at the old
   * cursor, and the store is otherwise unchanged.
   */
  lemma {:induction false} RunLayout(s: Sink, xs: seq<Scalar>, e: Endian)
    requires s.err.None? && Whole(s.replies, xs, e)
    ensures Run(s, xs, e).data == Overlay(s.data, s.offset, Serialized(xs, e))
    decreases |xs|
  {
    if xs == [] {
      assert Serialized(xs, e) == [];
    } else {
      var p := ScalarBytes(xs[0], e);
      var t := Transfer(s, p);
      WholeRest(s.replies, xs, e);
      RunLayout(t, xs[1..], e);
      LayoutStep(s, p, Run(t, xs[1..], e), Serialized(xs[1..], e));
      SerializedFront(xs, e);
      assert Run(s, xs, e) == Run(t, xs[1..], e);
    }
  }

  /** What a Writer's calls can change: the sink, and the buffers' contents. */
  datatype WriterState = WriterState(sink: Sink, buffers: seq<seq<Byte>>)

  /**
   * Writes of the scalars xs took the writer from s0 to s1 and returned n in
   * total: the sink is where Run takes it, n is how far the cursor moved (the
   * sum of the counts), and with the error already set nothing changed,
   * buffers included.
   */
  ghost predicate Wrote(s0: WriterState, s1: WriterState, xs: seq<Scalar>, e: Endian, n: nat)
  {
    s1.sink == Run(s0.sink, xs, e) && s1.sink.offset == s0.sink.offset + n &&
    (s0.sink.err.Some? ==> s1 == s0)
  }

  /** Two runs of writes, one after the other, are one run of the scalars of both, their counts added. */
  lemma WroteCompose(s0: WriterState, s1: WriterState, s2: WriterState, xs: seq<Scalar>, ys: seq<Scalar>,
                     e: Endian, n: nat, k: nat)
    requires Wrote(s0, s1, xs, e, n) && Wrote(s1, s2, ys, e, k)
    ensures Wrote(s0, s2, xs + ys, e, n + k)
  {
    RunAppend(s0.sink, xs, ys, e);
  }

  class Writer {
    /** The store written to (the embedded io.WriterAt). */
    const dst: Store
    /** Offset of the next write. */
    var offset: int
    /** The sticky error: the first error a transfer reported. */
    var err: Option<IoError>
    /** Scratch buffers for the 1-, 2-, 3-, 4- and 8-byte fields. */
    const b8: array<Byte>
    const b16: array<Byte>
    const b24: array<Byte>
    const b32: array<Byte>
    const b64: array<Byte>

    ghost predicate Valid()
      reads this
    {
      b8.Length == 1 && b16.Length == 2 && b24.Length == 3 && b32.Length == 4 && b64.Length == 8
    }

    /** NewWriter: a writer at offset 0 with no error and fresh buffers. */
    constructor (w: Store)
      ensures Valid() && dst == w && offset == 0 && err == None
      ensures fresh(b8) && fresh(b16) && fresh(b24) && fresh(b32) && fresh(b64)
    {
      dst := w;
      offset := 0;
      err := None;
      b8 := new Byte[1](_ => 0);
      b16 := new Byte[2](_ => 0);
      b24 := new Byte[3](_ => 0);
      b32 := new Byte[4](_ => 0);
      b64 := new Byte[8](_ => 0);
    }

    /** The writer's cursor and error together with its store. */
    function Current(): (s: Sink)
      reads this, dst
    {
      Sink(offset, err, dst.data, dst.replies, dst.transfers)
    }

    /** The writer's state as its calls see it. */
    function State(): (s: WriterState)
      reads this, dst, b8, b16, b24, b32, b64
    {
      WriterState(Current(), [b8[..], b16[..], b24[..], b32[..], b64[..]])
    }

    /** The call returned at once: no transfer, and cursor, error, buffers and store as they were. */
    twostate predicate Idle()
      reads this, dst, b8, b16, b24, b32, b64
    {
      State() == old(State())
    }

    /**
     * writeBytes(p) ran and returned n: the sink moved on by one Transfer of p,
     * and n is how far the cursor moved, which is the count the store reported.
     */
    twostate predicate Stored(p: seq<Byte>, n: nat)
      reads this, dst
    {
      Current() == Transfer(old(Current()), p) && n == offset - old(offset)
    }

    /** writeBytes: one transfer of p at the cursor; the cursor moves by the reported count. */
    method WriteBytes(p: seq<Byte>) returns (n: nat)
      modifies this, dst
      ensures Stored(p, n)
    {
      n, err := dst.WriteAt(p, offset);
      offset := offset + n;
    }

    method Err() returns (e: Option<IoError>)
      ensures e == err
    {
      e := err;
    }

    method GetOffset() returns (off: int)
      ensures off == offset
    {
      off := offset;
    }

    /** SetOffset: moves the cursor; no transfer, and the error is kept. */
    method SetOffset(off: int)
      modifies this
      ensures offset == off && err == old(err)
    {
      offset := off;
    }

    method WriteRaw(p: seq<Byte>) returns (n: nat)
      requires Valid()
      modifies this, dst
      ensures Valid()
      ensures old(err).Some? ==> n == 0 && Idle()
      ensures old(err).None? ==> Stored(p, n)
    {
      if err.Some? {
        return 0;
      }
      n := WriteBytes(p);
    }

    method WriteI8(v: Int8) returns (n: nat)
      requires Valid()
      modifies this, b8, dst
      ensures Valid()
      ensures old(err).Some? ==> n == 0 && Idle()
      ensures old(err).None? ==> b8[..] == [ToUnsigned(v, 1)] && Stored(b8[..], n)
    {
      if err.Some? {
        return 0;
      }
      b8[0] := ToUnsigned(v, 1);
      n := WriteBytes(b8[..]);
    }

    method WriteI16(v: Int16, e: Endian) returns (n: nat)
      requires Valid()
      modifies this, b16, dst
      ensures Valid()
      ensures old(err).Some? ==> n == 0 && Idle()
      ensures old(err).None? ==> b16[..] == Encode(ToUnsigned(v, 2), 2, e) && Stored(b16[..], n)
    {
      if err.Some? {
        return 0;
      }
      n := WriteU16(ToUnsigned(v, 2), e);
    }

    /** WriteI24: the low 24 bits of the 32-bit two's-complement pattern of v. */
    method WriteI24(v: Int32, e: Endian) returns (n: nat)
      requires Valid()
      modifies this, b24, dst
      ensures Valid()
      ensures old(err).Some? ==> n == 0 && Idle()
      ensures old(err).None? ==> b24[..] == Encode(v % 0x100_0000, 3, e) && Stored(b24[..], n)
    {
      if err.Some? {
        return 0;
      }
      // Adding 2^32 to a negative v leaves its low 24 bits as they are.
      assert ToUnsigned(v, 4) % 0x100_0000 == v % 0x100_0000 by {
        assert ToUnsigned(v, 4) == v || ToUnsigned(v, 4) == v + 0x100 * 0x100_0000;
      }
      n := WriteU24(ToUnsigned(v, 4), e);
    }

    method WriteI32(v: Int32, e: Endian) returns (n: nat)
      requires Valid()
      modifies this, b32, dst
      ensures Valid()
      ensures old(err).Some? ==> n == 0 && Idle()
      ensures old(err).None? ==> b32[..] == Encode(ToUnsigned(v, 4), 4, e) && Stored(b32[..], n)
    {
      if err.Some? {
        return 0;
      }
      n := WriteU32(ToUnsigned(v, 4), e);
    }

    method WriteI64(v: Int64, e: Endian) returns (n: nat)
      requires Valid()
      modifies this, b64, dst
      ensures Valid()
      ensures old(err).Some? ==> n == 0 && Idle()
      ensures old(err).None? ==> b64[..] == Encode(ToUnsigned(v, 8), 8, e) && Stored(b64[..], n)
    {
      if err.Some? {
        return 0;
      }
      n := WriteU64(ToUnsigned(v, 8), e);
    }

    method WriteU8(v: Byte) returns (n: nat)
      requires Valid()
      modifies this, b8, dst
      ensures Valid()
      ensures old(err).Some? ==> n == 0 && Idle()
      ensures old(err).None? ==> b8[..] == [v] && Stored(b8[..], n)
    {
      if err.Some? {
        return 0;
      }
      b8[0] := v;
      n := WriteBytes(b8[..]);
    }

    method WriteU16(v: Uint16, e: Endian) returns (n: nat)
      requires Valid()
      modifies this, b16, dst
      ensures Valid()
      ensures old(err).Some? ==> n == 0 && Idle()
      ensures old(err).None? ==> b16[..] == Encode(v, 2, e) && Stored(b16[..], n)
    {
      if err.Some? {
        return 0;
      }
      if e == LittleEndian {
        b16[0] := v % 0x100;
        b16[1] := v / 0x100 % 0x100;
        LittleEndianBytes2(v);
      } else {
        b16[0] := v / 0x100 % 0x100;
        b16[1] := v % 0x100;
        BigEndianBytes2(v);
      }
      n := WriteBytes(b16[..]);
    }

    /** WriteU24: the low 24 bits of v; Go's uint32 argument may hold more, which are dropped. */
    method WriteU24(v: Uint32, e: Endian) returns (n: nat)
      requires Valid()
      modifies this, b24, dst
      ensures Valid()
      ensures old(err).Some? ==> n == 0 && Idle()
      ensures old(err).None? ==> b24[..] == Encode(v % 0x100_0000, 3, e) && Stored(b24[..], n)
    {
      if err.Some? {
        return 0;
      }
      // The three bytes taken from v are those of its low 24 bits.
      var low := v % 0x100_0000;
      if e == LittleEndian {
        b24[0] := low % 0x100;
        b24[1] := low / 0x100 % 0x100;
        b24[2] := low / 0x1_0000 % 0x100;
        LittleEndianBytes3(low);
      } else {
        b24[0] := low / 0x1_0000 % 0x100;
        b24[1] := low / 0x100 % 0x100;
        b24[2] := low % 0x100;
        BigEndianBytes3(low);
      }
      n := WriteBytes(b24[..]);
    }

    method WriteU32(v: Uint32, e: Endian) returns (n: nat)
      requires Valid()
      modifies this, b32, dst
      ensures Valid()
      ensures old(err).Some? ==> n == 0 && Idle()
      ensures old(err).None? ==> b32[..] == Encode(v, 4, e) && Stored(b32[..], n)
    {
      if err.Some? {
        return 0;
      }
      if e == LittleEndian {
        b32[0] := v % 0x100;
        b32[1] := v / 0x100 % 0x100;
        b32[2] := v / 0x1_0000 % 0x100;
        b32[3] := v / 0x100_0000 % 0x100;
        LittleEndianBytes4(v);
      } else {
        b32[0] := v / 0x100_0000 % 0x100;
        b32[1] := v / 0x1_0000 % 0x100;
        b32[2] := v / 0x100 % 0x100;
        b32[3] := v % 0x100;
        BigEndianBytes4(v);
      }
      n := WriteBytes(b32[..]);
    }

    method WriteU64(v: Uint64, e: Endian) returns (n: nat)
      requires Valid()
      modifies this, b64, dst
      ensures Valid()
      ensures old(err).Some? ==> n == 0 && Idle()
      ensures old(err).None? ==> b64[..] == Encode(v, 8, e) && Stored(b64[..], n)
    {
      if err.Some? {
        return 0;
      }
      if e == LittleEndian {
        b64[0] := v % 0x100;
        b64[1] := v / 0x100 % 0x100;
        b64[2] := v / 0x1_0000 % 0x100;
        b64[3] := v / 0x100_0000 % 0x100;
        b64[4] := v / 0x1_0000_0000 % 0x100;
        b64[5] := v / 0x100_0000_0000 % 0x100;
        b64[6] := v / 0x1_0000_0000_0000 % 0x100;
        b64[7] := v / 0x100_0000_0000_0000 % 0x100;
        LittleEndianBytes8(v);
        assert b64[..] == LittleEndianBytes(v, 8) by {
          assert |b64[..]| == |LittleEndianBytes(v, 8)| == 8;
        }
      } else {
        b64[0] := v / 0x100_0000_0000_0000 % 0x100;
        b64[1] := v / 0x1_0000_0000_0000 % 0x100;
        b64[2] := v / 0x100_0000_0000 % 0x100;
        b64[3] := v / 0x1_0000_0000 % 0x100;
        b64[4] := v / 0x100_0000 % 0x100;
        b64[5] := v / 0x1_0000 % 0x100;
        b64[6] := v / 0x100 % 0x100;
        b64[7] := v % 0x100;
        BigEndianBytes8(v);
        assert b64[..] == BigEndianBytes(v, 8) by {
          assert |b64[..]| == |BigEndianBytes(v, 8)| == 8;
        }
      }
      n := WriteBytes(b64[..]);
    }

    /** WriteS8: the first byte of s; indexing s demands one once the error check passes. */
    method WriteS8(s: seq<Byte>) returns (n: nat)
      requires Valid() && (err == None ==> |s| >= 1)
      modifies this, b8, dst
      ensures Valid()
      ensures old(err).Some? ==> n == 0 && Idle()
      ensures old(err).None? ==> b8[..] == [s[0]] && Stored(b8[..], n)
    {
      if err.Some? {
        return 0;
      }
      n := WriteU8(s[0]);
    }

    /** WriteS16: s[0..2] packed most-significant first, written as a 16-bit integer in order e. */
    method WriteS16(s: seq<Byte>, e: Endian) returns (n: nat)
      requires Valid() && (err == None ==> |s| >= 2)
      modifies this, b16, dst
      ensures Valid()
      ensures old(err).Some? ==> n == 0 && Idle()
      ensures old(err).None? ==> b16[..] == Encode(BigEndianValue(s[..2]), 2, e) && Stored(b16[..], n)
    {
      if err.Some? {
        return 0;
      }
      var v := Pack16(s);
      n := WriteU16(v, e);
    }

    method WriteS24(s: seq<Byte>, e: Endian) returns (n: nat)
      requires Valid() && (err == None ==> |s| >= 3)
      modifies this, b24, dst
      ensures Valid()
      ensures old(err).Some? ==> n == 0 && Idle()
      ensures old(err).None? ==> b24[..] == Encode(BigEndianValue(s[..3]), 3, e) && Stored(b24[..], n)
    {
      if err.Some? {
        return 0;
      }
      var v := Pack24(s);
      n := WriteU24(v, e);
    }

    method WriteS32(s: seq<Byte>, e: Endian) returns (n: nat)
      requires Valid() && (err == None ==> |s| >= 4)
      modifies this, b32, dst
      ensures Valid()
      ensures old(err).Some? ==> n == 0 && Idle()
      ensures old(err).None? ==> b32[..] == Encode(BigEndianValue(s[..4]), 4, e) && Stored(b32[..], n)
    {
      if err.Some? {
        return 0;
      }
      var v := Pack32(s);
      n := WriteU32(v, e);
    }

    method WriteS64(s: seq<Byte>, e: Endian) returns (n: nat)
      requires Valid() && (err == None ==> |s| >= 8)
      modifies this, b64, dst
      ensures Valid()
      ensures old(err).Some? ==> n == 0 && Idle()
      ensures old(err).None? ==> b64[..] == Encode(BigEndianValue(s[..8]), 8, e) && Stored(b64[..], n)
    {
      if err.Some? {
        return 0;
      }
      var v := Pack64(s);
      n := WriteU64(v, e);
    }

    /** One arm of WriteX's type switch: the write method for the scalar's type. */
    method WriteScalar(x: Scalar, e: Endian) returns (n: nat)
      requires Valid()
      modifies this, b8, b16, b32, b64, dst
      ensures Valid()
      ensures old(err).Some? ==> n == 0 && Idle()
      ensures old(err).None? ==> Stored(ScalarBytes(x, e), n)
      ensures Wrote(old(State()), State(), [x], e, n)
    {
      RunOne(State().sink, x, e);
      match x
      case I8(v) =>
        n := WriteI8(v);
        EncodeByte(ToUnsigned(v, 1), e);
      case I16(v) => n := WriteI16(v, e);
      case I32(v) => n := WriteI32(v, e);
      case I64(v) => n := WriteI64(v, e);
      case U8(v) =>
        n := WriteU8(v);
        EncodeByte(v, e);
      case U16(v) => n := WriteU16(v, e);
      case U32(v) => n := WriteU32(v, e);
      case U64(v) => n := WriteU64(v, e);
    }

    /**
     * The loop over one slice argument of WriteX: writes the elements in index
     * order and returns the sum of their counts.
     */
    method WriteScalars(xs: seq<Scalar>, e: Endian) returns (n: nat)
      requires Valid()
      modifies this, b8, b16, b32, b64, dst
      ensures Valid() && Wrote(old(State()), State(), xs, e, n)
    {
      ghost var s0 := State();
      n := 0;
      var j := 0;
      while j < |xs|
        invariant 0 <= j <= |xs|
        invariant Wrote(s0, State(), xs[..j], e, n)
      {
        ghost var s1 := State();
        var k := WriteScalar(xs[j], e);
        WroteCompose(s0, s1, State(), xs[..j], [xs[j]], e, n, k);
        assert xs[..j + 1] == xs[..j] + [xs[j]];
        n := n + k;
        j := j + 1;
      }
      assert xs[..j] == xs;
    }

    /** One WriteX argument: a single scalar, or every element of a slice. */
    method WriteItem(item: Item, e: Endian) returns (n: nat)
      requires Valid()
      modifies this, b8, b16, b32, b64, dst
      ensures Valid() && Wrote(old(State()), State(), Elements(item), e, n)
    {
      match item
      case One(x) =>
        n := WriteScalar(x, e);
      case Many(xs) =>
        n := WriteScalars(xs, e);
    }

    /**
     * WriteX: writes the items in order, slice elements in index order, and
     * returns the sum of the counts the individual writes return. The cursor
     * moves by exactly that sum. Once the error is set nothing more is
     * transferred; when the store takes every transfer whole, the batch lies
     * contiguously at the old cursor.
     */
    method WriteX(e: Endian, items: seq<Item>) returns (n: nat)
      requires Valid()
      modifies this, b8, b16, b32, b64, dst
      ensures Valid() && Wrote(old(State()), State(), Scalars(items), e, n)
    {
      ghost var s0 := State();
      n := 0;
      var i := 0;
      ghost var done: seq<Scalar> := [];
      while i < |items|
        invariant 0 <= i <= |items| && done == Scalars(items[..i])
        invariant Wrote(s0, State(), done, e, n)
      {
        ghost var s1 := State();
        ScalarsStep(items, i);
        var k := WriteItem(items[i], e);
        WroteCompose(s0, s1, State(), done, Elements(items[i]), e, n, k);
        n := n + k;
        done := done + Elements(items[i]);
        i := i + 1;
      }
      assert items[..i] == items;
    }
  }
}
