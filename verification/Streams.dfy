/** The receiving side of a connection: bytes that arrive in chunks of any size. */
module Streams {
  import opened Registers

  /** A 16-bit field of a frame; on the wire the high byte comes first. */
  datatype U16 = U16(hi: byte, lo: byte) {
    function Bytes(): seq<byte> {
      [hi, lo]
    }

    function Value(): nat {
      (hi as int) * 256 + (lo as int)
    }
  }

  /** A connection over which a finite number of bytes will still arrive before
      the read deadline; after them every read fails. */
  class Conn {
    var pending: seq<byte>
    var written: seq<byte>
    var calls: nat
    /** How many bytes beyond the first the k-th read delivers, if available. */
    const chunk: nat -> nat
    const writable: bool

    constructor (pending: seq<byte>, chunk: nat -> nat, writable: bool)
      ensures this.pending == pending && written == [] && this.writable == writable
    {
      this.pending, this.chunk, this.writable := pending, chunk, writable;
      written, calls := [], 0;
    }

    /** Go's `conn.Read(buf[from:])`: callers only know that it delivers some
        non-empty prefix of what arrives, or fails when nothing is left. */
    method Read(buf: array<byte>, from: nat) returns (n: nat, ok: bool)
      requires from < buf.Length
      modifies this, buf
      ensures n <= |old(pending)| && from + n <= buf.Length
      ensures ok == (n > 0) == (|old(pending)| > 0)
      ensures buf[..from + n] == old(buf[..from]) + old(pending)[..n]
      ensures pending == old(pending)[n..] && written == old(written)
    {
      n := 1 + chunk(calls);
      n := if n <= buf.Length - from then n else buf.Length - from;
      n := if n <= |pending| then n else |pending|;
      ok := n > 0;
      var got := pending[..n];
      forall i | 0 <= i < n {
        buf[from + i] := got[i];
      }
      assert buf[..from] == old(buf[..from]) && buf[from..from + n] == got;
      assert buf[..from + n] == buf[..from] + buf[from..from + n];
      pending := pending[n..];
      calls := calls + 1;
    }

    method Write(bytes: seq<byte>) returns (ok: bool)
      modifies this
      ensures ok == writable && pending == old(pending)
      ensures written == if ok then old(written) + bytes else old(written)
    {
      ok := writable;
      if ok {
        written := written + bytes;
      }
    }
  }

  /** Fills the buffer whatever the chunking; on a premature end it reports how
      much arrived. */
  method ReadFull(conn: Conn, buf: array<byte>) returns (total: nat, ok: bool)
    modifies conn, buf
    ensures ok <==> |old(conn.pending)| >= buf.Length
    ensures ok ==> total == buf.Length && buf[..] == old(conn.pending)[..total]
    ensures !ok ==> total == |old(conn.pending)|
    ensures conn.pending == old(conn.pending)[total..] && conn.written == old(conn.written)
  {
    total := 0;
    ghost var all := conn.pending;
    while total < buf.Length
      invariant total <= buf.Length && total <= |all|
      invariant buf[..total] == all[..total]
      invariant conn.pending == all[total..] && conn.written == old(conn.written)
    {
      var n;
      n, ok := conn.Read(buf, total);
      assert all[..total] + all[total..][..n] == all[..total + n];
      total := total + n;
      if !ok {
        return;
      }
    }
    assert buf[..] == buf[..total];
    ok := true;
  }
}
