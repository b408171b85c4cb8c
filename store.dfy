/**
 * The random-access byte store that a Reader reads from (Go's io.ReaderAt) and
 * a Writer writes to (io.WriterAt). Its contents are a sparse map from offsets
 * to bytes (an offset never written reads as zero, as a hole in a file does).
 * How each transfer turns out is an oracle: the store answers transfers from a
 * script of replies, each a byte count and an optional error, and once the
 * script is used up every transfer is complete and error-free. The store also
 * counts its transfers, so that "no I/O was done" can be stated.
 */
module Store {
  import opened ByteOrder

  datatype Option<T> = None | Some(value: T)

  /** The error value a store reports for a failed transfer. */
  datatype IoError = IoError(code: int)

  /** What a store reports for one transfer: the number of bytes moved and the error, if any. */
  datatype Reply = Reply(count: nat, err: Option<IoError>)

  function Min(a: nat, b: nat): (m: nat)
  {
    if a < b then a else b
  }

  /** The byte at offset k. */
  function Get(m: map<int, Byte>, k: int): (b: Byte)
  {
    if k in m then m[k] else 0
  }

  /** The n bytes at offsets off, off + 1, ... */
  function Slice(m: map<int, Byte>, off: int, n: nat): (d: seq<Byte>)
    ensures |d| == n
  {
    seq<Byte>(n, i requires 0 <= i < n => Get(m, off + i))
  }

  /** m with the bytes p placed at offsets off, off + 1, ... */
  function Overlay(m: map<int, Byte>, off: int, p: seq<Byte>): (r: map<int, Byte>)
    decreases |p|
  {
    if p == [] then m else Overlay(m[off := p[0]], off + 1, p[1..])
  }

  /** An overlay replaces exactly the bytes it covers. */
  lemma {:induction false} OverlayGet(m: map<int, Byte>, off: int, p: seq<Byte>, k: int)
    ensures Get(Overlay(m, off, p), k) == if off <= k < off + |p| then p[k - off] else Get(m, k)
    decreases |p|
  {
    if p != [] {
      OverlayGet(m[off := p[0]], off + 1, p[1..], k);
    }
  }

  /** Reading back the range an overlay covers gives the overlaid bytes. */
  lemma OverlaySlice(m: map<int, Byte>, off: int, p: seq<Byte>)
    ensures Slice(Overlay(m, off, p), off, |p|) == p
  {
    forall i | 0 <= i < |p|
      ensures Slice(Overlay(m, off, p), off, |p|)[i] == p[i]
    {
      OverlayGet(m, off, p, off + i);
    }
  }

  /** Two overlays at adjacent offsets are one overlay of the concatenation. */
  lemma {:induction false} OverlayAppend(m: map<int, Byte>, off: int, p: seq<Byte>, q: seq<Byte>)
    ensures Overlay(Overlay(m, off, p), off + |p|, q) == Overlay(m, off, p + q)
    decreases |p|
  {
    if p != [] {
      OverlayAppend(m[off := p[0]], off + 1, p[1..], q);
      assert (p + q)[1..] == p[1..] + q;
    } else {
      assert p + q == q;
    }
  }

  /**
   * The reply a transfer of n bytes gets from the script replies: the next
   * scripted reply with its count capped at n, or a complete, error-free
   * transfer once the script is used up.
   */
  function Respond(replies: seq<Reply>, n: nat): (r: Reply)
    ensures r.count <= n
    ensures replies == [] ==> r == Reply(n, None)
    ensures replies != [] ==> r.err == replies[0].err && r.count == Min(replies[0].count, n)
  {
    if replies == [] then Reply(n, None) else Reply(Min(replies[0].count, n), replies[0].err)
  }

  /** The script after one more transfer. */
  function Rest(replies: seq<Reply>): (rest: seq<Reply>)
  {
    if replies == [] then [] else replies[1..]
  }

  class Store {
    var data: map<int, Byte>
    var replies: seq<Reply>
    var transfers: nat

    constructor (contents: map<int, Byte>, script: seq<Reply>)
      ensures data == contents && replies == script && transfers == 0
    {
      data := contents;
      replies := script;
      transfers := 0;
    }

    /**
     * The reply the next transfer of n bytes gets: the next scripted reply with
     * its count capped at n, or a complete, error-free transfer.
     */
    function Answer(n: nat): (r: Reply)
      reads this
      ensures r.count <= n
      ensures replies == [] ==> r == Reply(n, None)
    {
      Respond(replies, n)
    }

    /** The script after one more transfer. */
    function Later(): (rest: seq<Reply>)
      reads this
    {
      Rest(replies)
    }

    /**
     * ReadAt: fills the first count of the n bytes of p from offsets off, off + 1, ...
     * What the rest of p[..n] holds afterwards is not specified: a Go ReaderAt
     * may use all of p as scratch space.
     */
    method ReadAt(p: array<Byte>, n: nat, off: int) returns (count: nat, err: Option<IoError>)
      requires n <= p.Length
      modifies this, p
      ensures Reply(count, err) == old(Answer(n))
      ensures data == old(data) && replies == old(Later()) && transfers == old(transfers) + 1
      ensures p[..count] == Slice(data, off, count)
      ensures p[n..] == old(p[n..])
    {
      var r := Answer(n);
      count, err := r.count, r.err;
      forall i | 0 <= i < count {
        p[i] := Get(data, off + i);
      }
      replies := Later();
      transfers := transfers + 1;
    }

    /** WriteAt: stores the first count bytes of p at offsets off, off + 1, ... */
    method WriteAt(p: seq<Byte>, off: int) returns (count: nat, err: Option<IoError>)
      modifies this
      ensures Reply(count, err) == old(Answer(|p|))
      ensures data == Overlay(old(data), off, p[..count])
      ensures replies == old(Later()) && transfers == old(transfers) + 1
    {
      var r := Answer(|p|);
      count, err := r.count, r.err;
      data := Overlay(data, off, p[..count]);
      replies := Later();
      transfers := transfers + 1;
    }
  }
}
