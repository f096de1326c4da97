/** Modbus RTU framing: requests with a CRC, and the checks on a reply. */
module ModbusRtu {
  import opened Registers
  import opened WordBits
  import opened Crc
  import opened Streams

  datatype Failure = WriteFailed | Closed | ExceptionUnread | WrongSlave | CrcMismatch

  datatype Outcome = Payload(bytes: seq<byte>) | Exception(func: byte, code: byte) | Failed(reason: Failure)

  /** A frame whose last two bytes are the CRC of the others, low byte first. */
  predicate Sealed(f: seq<byte>) {
    |f| >= 2 && BitsOf(f[|f| - 2]) + BitsOf(f[|f| - 1]) == Crc16(f[..|f| - 2])
  }

  /** What a device reads from a request frame, by its positions on the wire. */
  datatype Query = ReadQuery(slave: byte, addr: U16, quantity: U16)
                 | WriteQuery(slave: byte, addr: U16, value: U16)

  function ParseQuery(f: seq<byte>): Option<Query> {
    if |f| != 8 || !Sealed(f) then None
    else if f[1] == 0x03 then Some(ReadQuery(f[0], U16(f[2], f[3]), U16(f[4], f[5])))
    else if f[1] == 0x06 then Some(WriteQuery(f[0], U16(f[2], f[3]), U16(f[4], f[5])))
    else None
  }

  /** After the header of an exception reply: three more bytes. */
  function DecodeException(func: byte, s: seq<byte>): (Outcome, seq<byte>) {
    if |s| < 3 then (Failed(ExceptionUnread), []) else (Exception(func, s[0]), s[3..])
  }

  /** After the header of a data reply: the data and the CRC of everything. */
  function DecodeData(header: seq<byte>, s: seq<byte>): (Outcome, seq<byte>)
    requires |header| == 3
  {
    var n := header[2] as int;
    if |s| < n + 2 then (Failed(Closed), [])
    else (if Sealed(header + s[..n + 2]) then Payload(s[..n]) else Failed(CrcMismatch), s[n + 2..])
  }

  /** What the read function makes of the bytes that arrive. */
  function DecodeReply(slave: byte, s: seq<byte>): (Outcome, seq<byte>) {
    if |s| < 3 then (Failed(Closed), [])
    else if s[1] & 0x80 != 0 then DecodeException(s[1], s[3..])
    else if s[0] != slave then (Failed(WrongSlave), s[3..])
    else DecodeData(s[..3], s[3..])
  }

  /** What the write function makes of them; the reply's CRC is not checked. */
  function DecodeWriteReply(s: seq<byte>): (Outcome, seq<byte>) {
    if |s| < 8 then (Failed(Closed), [])
    else (if s[1] & 0x80 != 0 then Exception(s[1], s[2]) else Payload([]), s[8..])
  }

  function RequestBody(slave: byte, func: byte, addr: U16, value: U16): seq<byte> {
    [slave, func] + addr.Bytes() + value.Bytes()
  }

  ghost predicate IsRequest(f: seq<byte>, slave: byte, func: byte, addr: U16, value: U16) {
    |f| == 8 && f[..6] == RequestBody(slave, func, addr, value) && Sealed(f)
  }

  lemma {:induction false} SealWith(body: seq<byte>, crc: bv16)
    requires ToWord(crc) == Crc16(body)
    ensures Sealed(body + [LoByte(crc), HiByte(crc)])
  {
    JoinSplit(crc);
    JoinBits(LoByte(crc), HiByte(crc));
    var f := body + [LoByte(crc), HiByte(crc)];
    assert f[..|f| - 2] == body;
  }

  /** The device understands exactly what was asked. */
  lemma {:induction false} RequestRoundTrip(f: seq<byte>, slave: byte, func: byte, addr: U16, value: U16)
    requires IsRequest(f, slave, func, addr, value)
    ensures f[0] == slave && f[1] == func && U16(f[2], f[3]) == addr && U16(f[4], f[5]) == value
    ensures func == 0x03 ==> ParseQuery(f) == Some(ReadQuery(slave, addr, value))
    ensures func == 0x06 ==> ParseQuery(f) == Some(WriteQuery(slave, addr, value))
  {
    assert forall i :: 0 <= i < 6 ==> f[i] == f[..6][i];
  }

  method NewRequest(slave: byte, func: byte, addr: U16, value: U16) returns (req: seq<byte>)
    ensures IsRequest(req, slave, func, addr, value)
  {
    var buf := new byte[6];
    buf[0] := slave;
    buf[1] := func;
    buf[2], buf[3] := addr.hi, addr.lo;
    buf[4], buf[5] := value.hi, value.lo;
    assert buf[..] == RequestBody(slave, func, addr, value);
    var crc := CRC16(buf[..]);
    req := buf[..] + [LoByte(crc), HiByte(crc)];
    SealWith(buf[..], crc);
  }

  method CheckSeal(f: seq<byte>) returns (ok: bool)
    requires |f| >= 2
    ensures ok <==> Sealed(f)
  {
    var n := |f| - 2;
    var respCRC := Join(f[n], f[n + 1]);
    var calcCRC := CRC16(f[..n]);
    ok := respCRC == calcCRC;
    JoinBits(f[n], f[n + 1]);
    if ToWord(respCRC) == ToWord(calcCRC) {
      ToWordInjective(respCRC, calcCRC);
    }
  }

  method ReadHoldingRegistersRTU(conn: Conn, slave: byte, addr: U16, quantity: U16) returns (outcome: Outcome)
    modifies conn
    ensures if conn.writable then
        && |conn.written| == |old(conn.written)| + 8 && conn.written[..|old(conn.written)|] == old(conn.written)
        && ParseQuery(conn.written[|old(conn.written)|..]) == Some(ReadQuery(slave, addr, quantity))
        && (outcome, conn.pending) == DecodeReply(slave, old(conn.pending))
      else
        outcome == Failed(WriteFailed) && conn.written == old(conn.written) && conn.pending == old(conn.pending)
  {
    var req := NewRequest(slave, 0x03, addr, quantity);
    RequestRoundTrip(req, slave, 0x03, addr, quantity);
    var sent := conn.Write(req);
    if !sent {
      return Failed(WriteFailed);
    }
    assert conn.written[|old(conn.written)|..] == req;
    outcome := ReadReply(conn, slave);
  }

  method ReadReply(conn: Conn, slave: byte) returns (outcome: Outcome)
    modifies conn
    ensures (outcome, conn.pending) == DecodeReply(slave, old(conn.pending))
    ensures conn.written == old(conn.written)
  {
    var header := new byte[3];
    var n, ok := ReadFull(conn, header);
    if !ok {
      return Failed(Closed);
    }
    assert header[0] == header[..][0] && header[1] == header[..][1];
    if header[1] & 0x80 != 0 {
      outcome := ReadExceptionCode(conn, header[1]);
      return;
    }
    if header[0] != slave {
      return Failed(WrongSlave);
    }
    outcome := ReadData(conn, header[..]);
  }

  method ReadExceptionCode(conn: Conn, func: byte) returns (outcome: Outcome)
    modifies conn
    ensures (outcome, conn.pending) == DecodeException(func, old(conn.pending))
    ensures conn.written == old(conn.written)
  {
    var errBuf := new byte[3];
    var n, ok := ReadFull(conn, errBuf);
    if !ok {
      return Failed(ExceptionUnread);
    }
    assert errBuf[0] == errBuf[..][0];
    return Exception(func, errBuf[0]);
  }

  method ReadData(conn: Conn, header: seq<byte>) returns (outcome: Outcome)
    requires |header| == 3
    modifies conn
    ensures (outcome, conn.pending) == DecodeData(header, old(conn.pending))
    ensures conn.written == old(conn.written)
  {
    ghost var s := conn.pending;
    var byteCount := header[2] as int;
    var payload := new byte[byteCount + 2];
    var n, ok := ReadFull(conn, payload);
    if !ok {
      return Failed(Closed);
    }
    var sealed := CheckSeal(header + payload[..]);
    if !sealed {
      return Failed(CrcMismatch);
    }
    assert payload[..byteCount] == payload[..][..byteCount] == s[..byteCount + 2][..byteCount] == s[..byteCount];
    return Payload(payload[..byteCount]);
  }

  method WriteSingleRegisterRTU(conn: Conn, slave: byte, addr: U16, value: U16) returns (outcome: Outcome)
    modifies conn
    ensures if conn.writable then
        && |conn.written| == |old(conn.written)| + 8 && conn.written[..|old(conn.written)|] == old(conn.written)
        && ParseQuery(conn.written[|old(conn.written)|..]) == Some(WriteQuery(slave, addr, value))
        && (outcome, conn.pending) == DecodeWriteReply(old(conn.pending))
      else
        outcome == Failed(WriteFailed) && conn.written == old(conn.written) && conn.pending == old(conn.pending)
  {
    var req := NewRequest(slave, 0x06, addr, value);
    RequestRoundTrip(req, slave, 0x06, addr, value);
    var sent := conn.Write(req);
    if !sent {
      return Failed(WriteFailed);
    }
    assert conn.written[|old(conn.written)|..] == req;
    ghost var s := conn.pending;
    var resp := new byte[8];
    var n, ok := ReadFull(conn, resp);
    if !ok {
      return Failed(Closed);
    }
    assert resp[1] == s[..8][1] == s[1] && resp[2] == s[..8][2] == s[2];
    if resp[1] & 0x80 != 0 {
      return Exception(resp[1], resp[2]);
    }
    return Payload([]);
  }

  // ---- what the checks achieve ----

  /** A sealed frame is one whose CRC, trailer included, is zero. */
  lemma {:induction false} SealedIffZero(f: seq<byte>)
    requires |f| >= 2
    ensures Sealed(f) <==> Crc16(f) == ZERO
  {
    var n := |f| - 2;
    assert f == f[..n] + [f[n], f[n + 1]];
    Residue(f[..n], f[n], f[n + 1]);
  }

  function DataReply(slave: byte, count: byte, data: seq<byte>, lo: byte, hi: byte): seq<byte> {
    [slave, 0x03, count] + data + [lo, hi]
  }

  /** A sound reply is accepted and yields its data. */
  lemma {:induction false} ReplyAccepted(slave: byte, count: byte, data: seq<byte>, lo: byte, hi: byte, tail: seq<byte>)
    requires count as int == |data| && Sealed(DataReply(slave, count, data, lo, hi))
    ensures DecodeReply(slave, DataReply(slave, count, data, lo, hi) + tail) == (Payload(data), tail)
  {
    var f := DataReply(slave, count, data, lo, hi);
    var s := f + tail;
    assert f[..3] == [slave, 0x03, count] && f[3..|data| + 3] == data;
    assert s[0] == f[0] && s[1] == f[1] && s[2] == f[2];
    assert s[..|data| + 5] == f && s[|data| + 5..] == tail;
    SplitReply(s, |data|);
    DecodeSealed(s);
  }

  lemma {:induction false} DecodeSealed(s: seq<byte>)
    requires |s| >= 3 && s[2] as int + 5 <= |s| && Sealed(s[..s[2] as int + 5])
    ensures DecodeData(s[..3], s[3..]) == (Payload(s[3..][..s[2] as int]), s[s[2] as int + 5..])
  {
    var n, header, more := s[2] as int, s[..3], s[3..];
    SplitReply(s, n);
    assert header[2] == s[2] && |more| >= n + 2;
    assert Sealed(header + more[..n + 2]);
  }

  /** Conversely data only ever come from a sealed reply of this slave at the front of the
      stream, which is consumed as a whole. */
  lemma {:induction false} PayloadSound(slave: byte, s: seq<byte>) returns (f: seq<byte>)
    requires DecodeReply(slave, s).0.Payload?
    ensures |f| >= 5 && |f| == 5 + f[2] as int && f[0] == slave && f[1] & 0x80 == 0 && Sealed(f)
    ensures s == f + DecodeReply(slave, s).1 && DecodeReply(slave, s).0 == Payload(f[3..|f| - 2])
  {
    DataSound(s);
    f := s[..s[2] as int + 5];
    SplitReply(s, s[2] as int);
  }

  lemma {:induction false} DataSound(s: seq<byte>)
    requires |s| >= 3 && DecodeData(s[..3], s[3..]).0.Payload?
    ensures var n := s[2] as int;
      n + 5 <= |s| && Sealed(s[..n + 5]) && DecodeData(s[..3], s[3..]) == (Payload(s[..n + 5][3..n + 3]), s[n + 5..])
  {
    var n := s[2] as int;
    assert s[..3][2] == s[2] && |s[3..]| == |s| - 3;
    assert n + 5 <= |s|;
    SplitReply(s, n);
  }

  lemma {:induction false} SplitReply(s: seq<byte>, n: nat)
    requires n + 5 <= |s|
    ensures s[..3] + s[3..][..n + 2] == s[..n + 5] && s[3..][n + 2..] == s[n + 5..]
    ensures s[3..][..n] == s[..n + 5][3..n + 3] && s == s[..n + 5] + s[n + 5..]
  {
  }

  /** A device echoes a write; the echo confirms it and is consumed as a whole. */
  lemma {:induction false} EchoConfirms(slave: byte, addr: U16, value: U16, lo: byte, hi: byte, tail: seq<byte>)
    ensures DecodeWriteReply([slave, 0x06] + addr.Bytes() + value.Bytes() + [lo, hi] + tail) == (Payload([]), tail)
  {
    var f := [slave, 0x06] + addr.Bytes() + value.Bytes() + [lo, hi];
    var s := f + tail;
    assert s[1] == 0x06 && 0x06 as byte & 0x80 == 0;
    assert s[8..] == tail;
  }

  /** An exception reply to a write has five bytes, but eight are awaited: alone it is not
      decoded, and behind it three bytes of what follows are lost, but its code comes
      through. */
  lemma {:induction false} WriteRefused(slave: byte, func: byte, code: byte, lo: byte, hi: byte, tail: seq<byte>)
    requires func & 0x80 != 0
    ensures DecodeWriteReply([slave, func, code, lo, hi] + tail) ==
            if |tail| < 3 then (Failed(Closed), []) else (Exception(func, code), tail[3..])
  {
    var s := [slave, func, code, lo, hi] + tail;
    assert s[1] == func && s[2] == code;
    if |tail| >= 3 {
      assert s[8..] == tail[3..];
    }
  }

  /** How a reply may be damaged: within any sixteen consecutive bits, or by an odd
      number of bit flips anywhere. */
  ghost predicate Damaged(f: seq<byte>, g: seq<byte>) {
    |f| == |g| && (Burst(Bits(f), Bits(g)) || Odd(Bits(f)) != Odd(Bits(g)))
  }

  /** A damaged sealed frame is not sealed. */
  lemma {:induction false} DamageBreaksSeal(f: seq<byte>, g: seq<byte>)
    requires Sealed(f) && Damaged(f, g)
    ensures !Sealed(g)
  {
    SealedIffZero(f);
    SealedIffZero(g);
    if Burst(Bits(f), Bits(g)) {
      BurstDetected(f, g);
    } else {
      OddFlipsDetected(f, g);
    }
  }

  /** Hence a reply so damaged anywhere but in its length byte never yields data. */
  lemma {:induction false} DamageRejected(slave: byte, f: seq<byte>, g: seq<byte>, tail: seq<byte>)
    requires Sealed(f) && Damaged(f, g) && |f| >= 5 && |f| == 5 + f[2] as int && g[2] == f[2]
    ensures !DecodeReply(slave, g + tail).0.Payload?
  {
    DamageBreaksSeal(f, g);
    var s := g + tail;
    assert s[..3][2] == g[2] && s[..3] + s[3..][..g[2] as int + 2] == g;
  }

  /** The exception reply of the standard is five bytes long, with the code in the
      third. The reader takes that byte for a length and waits for three more, so the
      reply on its own is never decoded, and with more bytes behind it the low byte of
      its CRC is reported as the code. */
  lemma {:induction false} ExceptionMisread(slave: byte, func: byte, code: byte, lo: byte, hi: byte, tail: seq<byte>)
    requires func & 0x80 != 0
    ensures DecodeReply(slave, [slave, func, code, lo, hi] + tail) ==
            if tail == [] then (Failed(ExceptionUnread), []) else (Exception(func, lo), tail[1..])
  {
    var s := [slave, func, code, lo, hi] + tail;
    assert s[1] == func && s[3..] == [lo, hi] + tail;
    if tail != [] {
      assert s[3..][3..] == tail[1..];
    }
  }

  /** So the code comes through exactly when something follows and the low CRC byte
      happens to equal it. */
  lemma {:induction false} ExceptionReadRightly(slave: byte, func: byte, code: byte, lo: byte, hi: byte,
                                                tail: seq<byte>)
    requires func & 0x80 != 0
    ensures DecodeReply(slave, [slave, func, code, lo, hi] + tail).0 == Exception(func, code) <==>
            tail != [] && lo == code
  {
    ExceptionMisread(slave, func, code, lo, hi, tail);
  }

  /** The exception reply to a read: function 0x03 with its highest bit set. */
  function ReadException(slave: byte, code: byte, lo: byte, hi: byte): seq<byte> {
    [slave, 0x83, code, lo, hi]
  }

  /** Bit 1 of the low CRC byte of such a reply is never set. */
  lemma {:induction false} SealedLowBit(slave: byte, code: byte, lo: byte, hi: byte)
    requires Sealed(ReadException(slave, code, lo, hi))
    ensures !BitOf(lo, 1)
  {
    var f := ReadException(slave, code, lo, hi);
    assert f[..3] == [slave, 0x83, code];
    ThreeByteBit(slave, 0x83, code);
    assert BitsOf(lo)[1] == (BitsOf(lo) + BitsOf(hi))[1];
  }

  /** So an exception reply to a read whose CRC is right is never taken for an illegal
      address (code 2), not even if it is one, whatever follows it. */
  lemma {:induction false} NeverIllegalAddress(slave: byte, from: byte, code: byte, lo: byte, hi: byte,
                                               tail: seq<byte>)
    requires Sealed(ReadException(from, code, lo, hi))
    ensures var outcome := DecodeReply(slave, ReadException(from, code, lo, hi) + tail).0;
      !outcome.Payload? && (outcome.Exception? ==> outcome.code != 2)
  {
    SealedLowBit(from, code, lo, hi);
    ExceptionMisread(from, 0x83, code, lo, hi, tail);
    assert DecodeReply(slave, ReadException(from, code, lo, hi) + tail) ==
           DecodeReply(from, ReadException(from, code, lo, hi) + tail);
  }
}
