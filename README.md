# binaryio in Dafny

A model of the Go package `binaryio`. The package is a random-access binary
codec in two symmetric halves:

- A `Reader` decodes fixed-width integers (8, 16, 24, 32 and 64 bits, signed
  and unsigned) and fixed-length byte strings. It reads them from an
  `io.ReaderAt` at an internal cursor, in little- or big-endian order.
- A `Writer` encodes the same shapes to an `io.WriterAt`. It also lets the
  caller read and set its cursor (`GetOffset`, `SetOffset`). `WriteX` writes a
  heterogeneous batch of integers and integer slices.
- Both keep a sticky error. The first error a transfer reports is kept, and
  every later call returns its zero value at once, with no I/O.

The project has five modules:

| file | module | contents |
|---|---|---|
| `byteorder.dfy` | `ByteOrder` | Reference definitions that the code's per-width formulas are proved against, with their round-trip lemmas. They cover the value of a run of bytes in either byte order, the bytes of a value in either order, and Go's two's-complement conversions between signed and unsigned types of one width. |
| `store.dfy` | `Store` | The random-access store. Its contents are a map from offsets to bytes; an offset never written reads as zero. How each transfer turns out comes from a script of replies. A reply has a byte count and an optional error, and once the script is used up every transfer is complete. The store also counts its transfers, so "no I/O was done" can be stated. |
| `reader.dfy` | `Reading` | `reader.go`: the `Reader` class, with the shift-and-add decoders lifted into functions. |
| `writer.dfy` | `Writing` | `writer.go`: the `Writer` class, the string-packing functions, and `WriteX` over a closed `Item` datatype. |
| `scenarios.dfy` | `Scenarios` | Clients in the shape of the repository's tests. They cover a write-then-read round trip for every pair of write and read accessors, `WriteRaw`/`ReadRaw` included, and an int16 written and read back in both byte orders. They also cover reads of known fields, the sticky error of either side, cursor control, and two `WriteX` batches: one read back field by field, and one whose transfer fails partway. |

Both classes keep the state the Go structs keep.
- The cursor and the error are mutable fields.
- The scratch buffers are `array<Byte>` fields that the methods fill in place.
- A method's contract gives its new state in one of three ways:
  - `Idle()`: the call returned at once, and nothing, the store included, changed.
  - `Fetched(n)` for the reader, or `Stored(p, n)` for the writer: exactly one transfer happened. These state what the store replied, where the cursor moved, and what now lies in the buffer or the store. `Stored(p, n)` says that the writer's sink moved on by one `Transfer` of p, the same function the writer's loops fold.
  - For the writer's loops, `Wrote(s0, s1, xs, e, n)` relates two snapshots of the writer's state. A `Sink` is the part that writes change: the cursor, the error and the store. `Transfer(s, p)` is one `writeBytes(p)` on a sink. `Run(s, xs, e)` folds one `Transfer` per scalar over `xs` and stops at the first error. `Wrote` says that the new sink is `Run` of the old one and that `n` is how far the cursor moved.

The cursor moves as the code moves it, whatever the store reports:
- `readBytes` advances the cursor by the requested width, whether or not
  `ReadAt` fails (reader.go:30-31).
- `writeBytes` advances it by the count the store reports, even alongside an
  error (writer.go:36-37).

`Scenarios.StickyReader`, `Scenarios.StickyWriter` and `Scenarios.FailingBatch`
state the resulting cursor.

## Model

| member | source | states |
|---|---|---|
| ByteOrder.DecodeEncode | writer.go:119-202 | Reading a field in the byte order it was written in returns every value that fits the width. |
| ByteOrder.EncodeDecode | reader.go:111-202 | Re-encoding the value read from a field, in the same order, reproduces the field byte for byte. |
| ByteOrder.LittleEndianRoundTrip | writer.go:124-126 | Decoding the least-significant-first bytes of a value that fits gives the value back (by induction on the width). |
| ByteOrder.BigEndianRoundTrip | writer.go:127-129 | Decoding the most-significant-first bytes of a value that fits gives the value back (by induction on the width). |
| ByteOrder.LittleEndianBytesOfValue | reader.go:118-120 | Splitting the little-endian value of a field into bytes gives the field back. |
| ByteOrder.BigEndianBytesOfValue | reader.go:121-123 | Splitting the big-endian value of a field into bytes gives the field back. |
| ByteOrder.LittleEndianIsReversedBig | reader.go:118-124 | A field read least-significant first has the value of its reversal read most-significant first. |
| ByteOrder.Transposed | reader.go:213-271 | Splitting a field's value most-significant byte first gives the field in storage order after a big-endian read, and reversed after a little-endian read. |
| ByteOrder.ToSigned | reader.go:53-99 | Go's same-width signed conversion stays within the signed range and differs from the unsigned bits by 0 or 2^(8w). |
| ByteOrder.ToUnsigned | writer.go:78-107 | Go's same-width unsigned conversion fits the width, differs from v by 0 or 2^(8w), and converts back to v. |
| ByteOrder.SignedBitsRoundTrip | writer.go:78-107 | Every unsigned bit pattern survives a trip through the signed type of the same width. |
| ByteOrder.SignBitIsMinimum | reader_test.go:14-110 | The sign bit alone reads as the minimum of the signed type (MinInt8, MinInt16, ...). |
| Store.OverlayGet | writer.go:36 | A store write replaces exactly the bytes it covers and leaves every other offset as it was. |
| Store.OverlaySlice | writer.go:36 | Reading back the range a write covered gives the written bytes. |
| Store.OverlayAppend | writer.go:269-345 | Two writes at adjacent offsets leave the store as one write of their concatenation. |
| Store.Slice | reader.go:30 | Reading n bytes at an offset gives exactly n bytes; an offset never written reads as zero. |
| Store.Respond | reader.go:30 | The reply to a transfer of n bytes: never more than n bytes; the next scripted reply's error and its count capped at n; complete and error-free once the script is used up. |
| Store.Store.constructor | reader.go:17 | A store starts with the given contents and reply script and no transfers. |
| Store.Store.Answer | reader.go:30 | A transfer never reports more bytes than requested; with no scripted failure it is complete and error-free. |
| Store.Store.ReadAt | reader.go:30 | The io.ReaderAt step: one transfer, reply from the script, store unchanged. The delivered prefix of the buffer holds the stored bytes, and the buffer past the n requested bytes is untouched. |
| Store.Store.WriteAt | writer.go:36 | The io.WriterAt step: one transfer, reply from the script, and the reported count of bytes stored at the offset. |
| Reading.Uint16Of | reader.go:117-124 | ReadU16's shift-and-add equals the reference unsigned value of the two bytes in order e. |
| Reading.Uint24Of | reader.go:136-145 | ReadU24's shift-and-add equals the reference unsigned value of the three bytes. |
| Reading.Uint32Of | reader.go:157-168 | ReadU32's shift-and-add equals the reference unsigned value of the four bytes. |
| Reading.Uint64Of | reader.go:180-199 | ReadU64's shift-and-add equals the reference unsigned value of the eight bytes. |
| Reading.SignExtend24 | reader.go:75-80 | ReadI24's hand-written sign extension (bit 23 set: -8388608 plus the low 23 bits) is the two's-complement reading of the 24 bits, within [-8388608, 8388607]. |
| Reading.RuneString | reader.go:209 | Go's string(byte): one byte below 0x80; from 0x80 on, a two-byte UTF-8 sequence whose payload bits are the byte. |
| Reading.Reader.constructor | reader.go:17-26 | NewReader: cursor 0, no error, two fresh distinct 8-byte buffers. |
| Reading.Reader.ReadBytes | reader.go:28-33 | readBytes: exactly one transfer of n bytes at the old cursor; its error becomes the sticky error; the cursor moves n on whatever the reply; the delivered bytes are at the front of b64, and b64 past n is untouched. |
| Reading.Reader.Err | reader.go:40-42 | Returns the sticky error. |
| Reading.Reader.ReadRaw | reader.go:45-50 | With the error set: nil and no I/O. Otherwise exactly n bytes taken from the scratch buffer after one transfer. |
| Reading.Reader.ReadI8 | reader.go:53-58 | With the error set: 0 and no I/O. Otherwise the byte at the cursor read as int8. |
| Reading.Reader.ReadI16 | reader.go:61-66 | With the error set: 0 and no I/O. Otherwise the two's-complement reading of the 16-bit field in order e. |
| Reading.Reader.ReadI24 | reader.go:69-83 | Always in [-8388608, 8388607]. With the error set: 0 and no I/O. Otherwise the two's-complement reading of the 24-bit field. |
| Reading.Reader.ReadI32 | reader.go:86-91 | As ReadI16, for the 32-bit field. |
| Reading.Reader.ReadI64 | reader.go:94-99 | As ReadI16, for the 64-bit field. |
| Reading.Reader.ReadU8 | reader.go:102-108 | With the error set: 0 and no I/O. Otherwise the byte at the cursor, after one transfer that moved the cursor by 1. |
| Reading.Reader.ReadU16 | reader.go:111-127 | With the error set: 0 and no I/O. Otherwise the value of the two bytes at the cursor in order e (Σ d[i]·256^i little-endian, Σ d[i]·256^(1-i) otherwise). |
| Reading.Reader.ReadU24 | reader.go:130-148 | As ReadU16, for three bytes. |
| Reading.Reader.ReadU32 | reader.go:151-171 | As ReadU16, for four bytes. |
| Reading.Reader.ReadU64 | reader.go:174-202 | As ReadU16, for eight bytes. |
| Reading.Reader.ReadS8 | reader.go:205-210 | With the error set: "" and no I/O. Otherwise Go's string of the byte read, which is that one byte when below 0x80. |
| Reading.Reader.ReadS16 | reader.go:213-223 | With the error set: "" and no I/O. Otherwise the two bytes in storage order for big-endian and reversed for little-endian. The result is what sbuf64 holds, and sbuf64 past the field is untouched. |
| Reading.Reader.ReadS24 | reader.go:226-237 | As ReadS16, for three bytes. |
| Reading.Reader.ReadS32 | reader.go:240-252 | As ReadS16, for four bytes. |
| Reading.Reader.ReadS64 | reader.go:255-271 | As ReadS16, for eight bytes. |
| Reading.Reader.SplitBigEndian64 | reader.go:262-269 | ReadS64's eight shifts and byte conversions leave sbuf64 holding the value's bytes most-significant first, and touch nothing else. |
| Writing.Pack16 | writer.go:217-219 | WriteS16's s[0]<<8 \| s[1] is the big-endian value of the first two bytes. |
| Writing.Pack24 | writer.go:229-232 | WriteS24's packing is the big-endian value of the first three bytes. |
| Writing.Pack32 | writer.go:242-246 | WriteS32's packing is the big-endian value of the first four bytes. |
| Writing.Pack64 | writer.go:256-264 | WriteS64's packing is the big-endian value of the first eight bytes. |
| Writing.ScalarBytes | writer.go:306-337 | The field the type switch's chosen write emits is exactly the scalar's width long. |
| Writing.Width | writer.go:273-337 | Each scalar type WriteX accepts is 1 to 8 bytes wide. |
| Writing.Bits | writer.go:273-337 | The unsigned bit pattern that WriteX's chosen write emits fits the scalar's width. |
| Writing.EncodeByte | writer.go:69-75 | A one-byte field is the byte itself in either byte order. |
| Writing.SerializedAppend | writer.go:272-341 | The bytes of a concatenation of scalars are the bytes of each part, one after the other (by induction). |
| Writing.SerializedOne | writer.go:306-337 | One scalar lays out as its own field. |
| Writing.ScalarsStep | writer.go:272-273 | WriteX's arguments up to i+1 write those up to i, then argument i. |
| Writing.SerializedFront | writer.go:272-341 | A batch's bytes are its first scalar's field followed by the bytes of the rest. |
| Writing.Transfer | writer.go:35-39 | One writeBytes on a sink: exactly one transfer, and the cursor moves forward by at most \|p\| (by the count the store reports). |
| Writing.Run | writer.go:271-343 | WriteX's loop as a fold of one Transfer per scalar: the cursor never moves back, and a set error is never cleared. |
| Writing.RunOne | writer.go:35-39 | Writing one scalar is one Transfer of its field, or nothing once the error is set. |
| Writing.RunAppend | writer.go:271-343 | Writing xs and then ys is writing xs + ys (by induction on xs). |
| Writing.RunTransfers | writer.go:35-39 | With the error set, writes change nothing. Otherwise there is at most one transfer per scalar, and exactly one per scalar when no error turns up. |
| Writing.RunFirstError | writer.go:35-39 | Writes stop at the first failing reply: every reply consumed before the last is error-free, and the final error is the last consumed reply's. So the transfer count is the position of the first failing reply plus one, or \|xs\| when none fails. |
| Writing.RunReplies | writer.go:35-39 | Writes use up exactly as many scripted replies as they do transfers. |
| Writing.RestSlice | writer.go:36 | Using up k replies after the first is using up k + 1. |
| Writing.TransferWhole | writer.go:35-39 | A transfer the store takes whole and without error stores all of p, moves the cursor \|p\| on and sets no error. |
| Writing.WholeRest | writer.go:271-343 | If every reply a batch consumes takes its field whole, the same holds for the rest of the batch after its first transfer. |
| Writing.RunComplete | writer.go:271-343 | When every consumed reply takes its field whole and error-free: no error, one transfer per scalar, the cursor moved by the batch's length, and an empty script stays empty. |
| Writing.LayoutStep | writer.go:35-39 | A whole transfer of p followed by writes that lay rest at the new cursor lays p + rest at the old one. |
| Writing.RunLayout | writer.go:271-343 | When every consumed reply takes its field whole and error-free, the store holds the batch's fields contiguously at the old cursor, and is otherwise unchanged. |
| Writing.WroteCompose | writer.go:271-343 | Two runs of writes one after the other are one run of both. Their counts add, and a set error leaves the state untouched throughout. |
| Writing.Writer.constructor | writer.go:21-33 | NewWriter: cursor 0, no error, fresh 1-, 2-, 3-, 4- and 8-byte buffers. |
| Writing.Writer.WriteBytes | writer.go:35-39 | writeBytes: one transfer of p at the cursor. The result is the reported count, and that many bytes of p are stored. The reported error becomes the sticky error. The cursor moves by the count, even alongside an error. |
| Writing.Writer.Err | writer.go:46-48 | Returns the sticky error. |
| Writing.Writer.GetOffset | writer.go:51-53 | Returns the cursor. |
| Writing.Writer.SetOffset | writer.go:56-58 | Sets the cursor exactly, keeps the error, and does no I/O. |
| Writing.Writer.WriteRaw | writer.go:61-66 | With the error set: 0 and no I/O. Otherwise one transfer of exactly the given bytes. |
| Writing.Writer.WriteI8 | writer.go:69-75 | With the error set: 0 and no I/O. Otherwise b8 holds the int8's bit pattern and is transferred. |
| Writing.Writer.WriteI16 | writer.go:78-83 | With the error set: 0 and no I/O. Otherwise b16 holds the 16-bit two's-complement pattern in order e and is transferred. |
| Writing.Writer.WriteI24 | writer.go:86-91 | With the error set: 0 and no I/O. Otherwise b24 holds the low 24 bits of the 32-bit pattern of v (v mod 2^24) in order e. |
| Writing.Writer.WriteI32 | writer.go:94-99 | As WriteI16, for 32 bits. |
| Writing.Writer.WriteI64 | writer.go:102-107 | As WriteI16, for 64 bits. |
| Writing.Writer.WriteU8 | writer.go:110-116 | With the error set: 0 and no I/O. Otherwise b8 holds v and is transferred. |
| Writing.Writer.WriteU16 | writer.go:119-133 | With the error set: 0 and no I/O. Otherwise b16 holds byte i = (v >> 8i) mod 256 little-endian, or the same bytes reversed, and is transferred. |
| Writing.Writer.WriteU24 | writer.go:136-152 | As WriteU16, for the low 24 bits of a 32-bit v. |
| Writing.Writer.WriteU32 | writer.go:155-173 | As WriteU16, for four bytes. |
| Writing.Writer.WriteU64 | writer.go:176-202 | As WriteU16, for eight bytes. |
| Writing.Writer.WriteS8 | writer.go:205-210 | With the error set: 0 and no I/O. Otherwise b8 holds s[0] and is transferred. |
| Writing.Writer.WriteS16 | writer.go:213-222 | With the error set: 0 and no I/O. Otherwise b16 holds the big-endian value of s[0..2] in order e and is transferred. |
| Writing.Writer.WriteS24 | writer.go:225-235 | As WriteS16, for three bytes. |
| Writing.Writer.WriteS32 | writer.go:238-249 | As WriteS16, for four bytes. |
| Writing.Writer.WriteS64 | writer.go:252-266 | As WriteS16, for eight bytes. |
| Writing.Writer.WriteScalar | writer.go:306-337 | One arm of WriteX's type switch. With the error set: zero, and nothing changes. Otherwise exactly one transfer of the scalar's field. As a Wrote step of one scalar, the new sink is Run of the old one over that scalar. |
| Writing.Writer.WriteScalars | writer.go:274-305 | The loop over one slice argument. The new sink is Run of the old one over the elements in index order, so there are no transfers after the first error. The result is the distance the cursor moved, i.e. the sum of the counts. |
| Writing.Writer.WriteItem | writer.go:272-340 | One WriteX argument, a scalar or a slice. The new sink is Run of the old one over its elements, and the result is the distance the cursor moved. |
| Writing.Writer.WriteX | writer.go:269-345 | The new sink is Run of the old one over the items in argument order, slice elements in index order: one transfer per scalar, none after the first error, and each transfer storing the reported prefix of its field. The result is the sum of the individual counts, and the cursor moves by exactly that. With the error already set: 0, and nothing changes. With RunComplete and RunLayout, when every transfer is taken whole the store holds the fields contiguously at the old cursor. |
| Scenarios.StringRoundTrip | writer_test.go:339-446 | Packing w bytes most-significant first, encoding in order e and transposing back as ReadS does returns the w bytes. |
| Scenarios.Int24RoundTrip | writer_test.go:96-131 | The 24-bit signed write and read give a value in the 24-bit range, congruent to v mod 2^24, and v itself when v fits. |
| Scenarios.RoundTripI8 | writer_test.go:34-59 | WriteI8 then ReadI8 on a fresh store: 1 byte written, v read. |
| Scenarios.RoundTripI16 | writer_test.go:60-95 | WriteI16 then ReadI16 in order e: 2 bytes written, v read. |
| Scenarios.AdjacentFields | writer_test.go:60-95 | Two 2-byte fields written one after the other at offset 0 read back at offsets 0 and 2. |
| Scenarios.WriteBothOrders | writer_test.go:61-80 | The test's write half: WriteI16 of v little-endian and then big-endian each return 2, and the store holds both fields one after the other. |
| Scenarios.ReadBothOrders | writer_test.go:84-91 | The test's read half: ReadI16 little-endian and then big-endian of that store both give v. |
| Scenarios.BothOrdersI16 | writer_test.go:60-95 | The whole test: v written in both orders and read back in both, every count 2 and every value v. |
| Scenarios.RoundTripRaw | writer.go:61-66 | WriteRaw then ReadRaw of the same length (at most 8, as ReadRaw's buffer allows) returns \|p\| and gives the bytes back. |
| Scenarios.RoundTripI24 | writer_test.go:96-131 | WriteI24 then ReadI24: 3 bytes written; v mod 2^24 sign-extended read, which is v whenever v fits 24 bits. |
| Scenarios.RoundTripI32 | writer_test.go:132-167 | WriteI32 then ReadI32: 4 bytes written, v read. |
| Scenarios.RoundTripI64 | writer.go:102-107 | WriteI64 then ReadI64: 8 bytes written, v read. |
| Scenarios.RoundTripU8 | writer_test.go:169-194 | WriteU8 then ReadU8: 1 byte written, v read. |
| Scenarios.RoundTripU16 | writer_test.go:195-233 | WriteU16 then ReadU16 in order e: 2 bytes written, v read. |
| Scenarios.RoundTripU24 | writer_test.go:234-272 | WriteU24 then ReadU24: 3 bytes written, the low 24 bits of v read. |
| Scenarios.RoundTripU32 | writer_test.go:273-311 | WriteU32 then ReadU32: 4 bytes written, v read. |
| Scenarios.RoundTripU64 | writer.go:176-202 | WriteU64 then ReadU64: 8 bytes written, v read. |
| Scenarios.RoundTripS8 | writer_test.go:313-338 | WriteS8 then ReadS8: 1 byte written; Go's string of s[0] read, which is s[..1] when s[0] is ASCII. |
| Scenarios.RoundTripS16 | writer_test.go:339-374 | WriteS16 then ReadS16 in the same order: 2 bytes written, s[..2] read. |
| Scenarios.RoundTripS24 | writer_test.go:375-410 | As RoundTripS16, for three bytes. |
| Scenarios.RoundTripS32 | writer_test.go:411-446 | As RoundTripS16, for four bytes. |
| Scenarios.RoundTripS64 | writer.go:252-266 | As RoundTripS16, for eight bytes. |
| Scenarios.ReadMinimum16 | reader_test.go:27-36 | Stored 0x00 0x80, read as a little-endian int16, is MinInt16. |
| Scenarios.ReadMinimum24 | reader_test.go:37-46 | Stored 0x00 0x00 0x80, read as a little-endian 24-bit field, is -8388608. |
| Scenarios.ReadMinimum64 | reader_test.go:101-110 | Stored 0x80 and seven zeros, read as a big-endian int64, is MinInt64. |
| Scenarios.ReadStringLittle | reader_test.go:247-256 | Stored "4321" reads as "1234" little-endian. |
| Scenarios.ReadStringBig | reader_test.go:290-299 | Stored bytes read as a big-endian string come back in storage order. |
| Scenarios.StickyReader | reader.go:28-50 | After a failing first transfer, the cursor has still moved by that read's width and the error is reported. Every later read returns its zero value, does no transfer and leaves the cursor where it is. |
| Scenarios.StickyWriter | writer.go:35-39 | After a first transfer that stores only some bytes and fails, the cursor has moved by the stored count, and those bytes are the field's prefix. Every later write, a WriteX batch included, returns 0 with no transfer. |
| Scenarios.MinusOneBytes | writer.go:102-107 | The int64 -1 written little-endian starts with three 0xFF bytes. |
| Scenarios.FailingTransfers | writer.go:35-39 | A whole 1-byte transfer, then an 8-byte transfer that stores 3 bytes and fails: the cursor is 4 on, the 4 bytes are stored, the error is set and two replies are used up. |
| Scenarios.FailingRun | writer.go:271-343 | Writing a uint8, an int64 and a uint16 against that script stops after the int64's transfer; the uint16 is never transferred. |
| Scenarios.FailingBatch | writer.go:269-345 | WriteX of that batch returns 1 + 3 = 4, the cursor is 4 on, the error is sticky, there are exactly two transfers, and the store holds 01 FF FF FF. |
| Scenarios.SeekThenWrite | writer.go:50-58 | SetOffset moves the cursor with no transfer; GetOffset reports it; the next write lands there and moves the cursor by its width. |
| Scenarios.BatchItems | writer.go:272-337 | A batch of an int8, a uint16 and a slice of three int32 writes those five scalars in order. |
| Scenarios.LayoutHead | writer.go:306-317 | An int8 then a uint16 lay out as the int8's bit pattern followed by the uint16's field. |
| Scenarios.LayoutTail | writer.go:282-285 | A slice of three int32 lays out as their three fields in index order. |
| Scenarios.BatchLayout | writer.go:269-345 | The batch's bytes are the fields one after another. |
| Scenarios.BatchFields | reader.go:53-91 | Each field of that layout decodes, at its offset, as the value written. |
| Scenarios.SmallInt32 | writer.go:160-164 | A small non-negative int32 is its byte followed by three zero bytes, little-endian. |
| Scenarios.BatchBytes | writer.go:269-345 | The batch -128, 0x1234, [1, 2, 3] little-endian is the bytes 80, 34 12, 01 00 00 00, 02 00 00 00, 03 00 00 00. |
| Scenarios.WriteBatch | writer.go:269-345 | WriteX of that batch on a fresh store returns 15 and stores those bytes at offset 0. |
| Scenarios.ReadBatch | reader.go:53-91 | Reading an int8, a uint16 and three int32 decodes the 15 bytes at the cursor field by field. |
| Scenarios.BatchRoundTrip | writer.go:269-345 | Any batch of an int8, a uint16 and three int32 written with WriteX returns 15 and reads back, field by field, as the values written. |

## Left out

- The store implementations (`os.File`, `bytes.Reader`) and the file create, sync, close and remove plumbing of the tests. The `Store` class stands in for them. End of data is not derived from the store's contents: a short or failed transfer is a scripted reply.
- `setErr` in both files: it is never called, and no operation depends on it.
- The `Endian` type and its constants are defined in a file that is not part of this model. The code only compares an endian value with `LittleEndian`, so a two-constructor datatype stands in for it.
- The `panic` default branch of `WriteX` (writer.go:338-339). `Item` is a closed datatype of Go's eight fixed-width integer types, so an unsupported argument cannot be represented.
- Pointer arguments of `WriteX` (writer.go:322-337) write the pointed-to value, so they are modelled as the value itself.
- Writing.Item: a `Many` slice may mix scalar types, whereas a Go slice argument has one element type. The model accepts a superset of the calls Go accepts, and every homogeneous slice behaves as the code does.
- Reading.Reader.ReadRaw: the result is a copy. Aliasing with the scratch buffer, which the next read overwrites, is not modelled.
- Reading.Reader.ReadRaw, Writing.Writer.WriteS8, WriteS16, WriteS24, WriteS32 and WriteS64: the Go index and slice panics (n > 8, or a string shorter than the width) are preconditions. They apply only when no error is set, since the code checks the error first.
- Reading.Reader.ReadU16 (and every read): when the read's own transfer fails, the result is specified only through the bytes the store delivered. The scratch buffer between the delivered count and the requested width is not specified, because a Go ReaderAt may use all of the slice it is given.
- Every 64-bit cursor is an unbounded integer, so the wrap-around of `offset` past 2^63 is not modelled. Go's `int` counts are naturals for the same reason.
- A shift-and-`|` of non-overlapping bytes is modelled as multiplication by a power of 256 and `+`, which gives the same value.
- Concurrency: instances are unsynchronised and single-owner.
- Scenarios.RoundTripI16 and the other round-trip scenarios write one value and read it back in a single byte order e. The repository's tests write little-endian and then big-endian before reading both back. That two-order sequence is stated as a scenario for int16 only (`Scenarios.BothOrdersI16`); for the other widths it follows from the same per-call contracts and `Store.OverlayAppend`, but it is not written out.
