/** Modbus over TCP: requests, and the loop that skips replies to earlier requests
    (MODBUS Messaging on TCP/IP V1.0b, section 3.1.3: MBAP header; MODBUS Application
    Protocol V1.1b3, sections 6.3, 6.12 and 7). */
module ModbusTcp {
  import opened Registers
  import opened Streams

  datatype Failure = WriteFailed | Closed | BadLength | ShortPdu | ShortData | DeadlinePassed

  datatype Outcome = Payload(bytes: seq<byte>) | Exception(func: byte, code: byte) | Failed(reason: Failure)

  /** Which request a reply is awaited for. */
  datatype Kind = Reading | Writing

  const MAX_LENGTH := 260

  function MinLength(kind: Kind): nat {
    if kind == Reading then 2 else 1
  }

  function Get16(bytes: seq<byte>, at: nat): U16
    requires at + 1 < |bytes|
  {
    U16(bytes[at], bytes[at + 1])
  }

  function GetLength(bytes: seq<byte>): nat
    requires |bytes| >= 7
  {
    Get16(bytes, 4).Value()
  }

  function DecodePdu(kind: Kind, pdu: seq<byte>): Outcome {
    match kind
    case Reading =>
      if pdu != [] && pdu[0] & 0x80 != 0 then Exception(pdu[0], if |pdu| > 1 then pdu[1] else 0)
      else if |pdu| < 2 then Failed(ShortPdu)
      else if |pdu| < 2 + pdu[1] as int then Failed(ShortData)
      else Payload(pdu[2..2 + pdu[1] as int])
    case Writing =>
      if pdu != [] && pdu[0] & 0x80 != 0 then Exception(pdu[0], if |pdu| > 1 then pdu[1] else 0)
      else Payload([])
  }

  /** The next frame of a stream, or why there is none. */
  datatype Next = Frame(tx: U16, pdu: seq<byte>, rest: seq<byte>) | Broken(reason: Failure, rest: seq<byte>)

  function NextFrame(kind: Kind, s: seq<byte>): (next: Next)
    ensures next.Frame? ==> |next.rest| < |s|
  {
    if |s| < 7 then Broken(Closed, [])
    else
      var len := GetLength(s);
      if len < MinLength(kind) || len > MAX_LENGTH then Broken(BadLength, s[7..])
      else if |s| < 6 + len then Broken(Closed, [])
      else Frame(Get16(s, 0), s[7..6 + len], s[6 + len..])
  }

  /** Awaiting the reply to transaction `tx` on a byte stream; `expired(k)` says that
      the deadline has passed when the loop looks at the clock for the k-th time. */
  function Await(kind: Kind, tx: U16, s: seq<byte>, expired: nat -> bool, k: nat): (Outcome, seq<byte>)
    decreases |s|
  {
    if expired(k) then (Failed(DeadlinePassed), s)
    else
      match NextFrame(kind, s)
      case Broken(reason, rest) => (Failed(reason), rest)
      case Frame(respTx, pdu, rest) =>
        if respTx != tx then Await(kind, tx, rest, expired, k + 1) else (DecodePdu(kind, pdu), rest)
  }

  function ReadRequest(tx: U16, slave: byte, addr: U16, quantity: U16): seq<byte> {
    tx.Bytes() + [0, 0] + [0, 6] + [slave, 0x03] + addr.Bytes() + quantity.Bytes()
  }

  function WriteRequest(tx: U16, slave: byte, addr: U16, value: U16): seq<byte> {
    tx.Bytes() + [0, 0] + [0, 9] + [slave, 0x10] + addr.Bytes() + [0, 1] + [2] + value.Bytes()
  }

  method NewReadRequest(slave: byte, addr: U16, quantity: U16, tx: U16) returns (req: array<byte>)
    ensures fresh(req) && req[..] == ReadRequest(tx, slave, addr, quantity)
  {
    req := new byte[12];
    req[0], req[1] := tx.hi, tx.lo;
    req[2], req[3] := 0, 0;
    req[4], req[5] := 0, 6;
    req[6] := slave;
    req[7] := 0x03;
    req[8], req[9] := addr.hi, addr.lo;
    req[10], req[11] := quantity.hi, quantity.lo;
  }

  method NewWriteRequest(slave: byte, addr: U16, value: U16, tx: U16) returns (req: array<byte>)
    ensures fresh(req) && req[..] == WriteRequest(tx, slave, addr, value)
  {
    req := new byte[15];
    req[0], req[1] := tx.hi, tx.lo;
    req[2], req[3] := 0, 0;
    req[4], req[5] := 0, 9;
    req[6] := slave;
    req[7] := 0x10;
    req[8], req[9] := addr.hi, addr.lo;
    req[10], req[11] := 0, 1;
    req[12] := 2;
    req[13], req[14] := value.hi, value.lo;
  }

  lemma {:induction false} SplitFrame(s: seq<byte>, len: nat)
    requires 1 <= len && 6 + len <= |s|
    ensures s[7..][..len - 1] == s[7..6 + len] && s[7..][len - 1..] == s[6 + len..]
  {
  }

  /** Reads a header and, if its length field is sane, the rest of the frame. */
  method ReadFrame(conn: Conn, kind: Kind) returns (next: Next)
    modifies conn
    ensures next == NextFrame(kind, old(conn.pending)) && conn.pending == next.rest
    ensures conn.written == old(conn.written)
  {
    ghost var s := conn.pending;
    var mbap := new byte[7];
    var n, ok := ReadFull(conn, mbap);
    if !ok {
      return Broken(Closed, []);
    }
    assert mbap[..] == s[..7];
    assert mbap[0] == s[0] && mbap[1] == s[1] && mbap[4] == s[4] && mbap[5] == s[5];
    var respTx := Get16(mbap[..], 0);
    var respLen := GetLength(mbap[..]);
    if respLen < MinLength(kind) || respLen > MAX_LENGTH {
      return Broken(BadLength, conn.pending);
    }
    var pdu := new byte[respLen - 1];
    n, ok := ReadFull(conn, pdu);
    if !ok {
      return Broken(Closed, []);
    }
    SplitFrame(s, respLen);
    return Frame(respTx, pdu[..], conn.pending);
  }

  method AwaitReply(conn: Conn, kind: Kind, tx: U16, expired: nat -> bool) returns (outcome: Outcome)
    modifies conn
    ensures (outcome, conn.pending) == Await(kind, tx, old(conn.pending), expired, 0)
    ensures conn.written == old(conn.written)
  {
    var k := 0;
    while !expired(k)
      invariant Await(kind, tx, old(conn.pending), expired, 0) == Await(kind, tx, conn.pending, expired, k)
      invariant conn.written == old(conn.written)
      decreases |conn.pending|
    {
      var next := ReadFrame(conn, kind);
      if next.Broken? {
        return Failed(next.reason);
      }
      k := k + 1;
      if next.tx != tx {
        continue;
      }
      return DecodePdu(kind, next.pdu);
    }
    return Failed(DeadlinePassed);
  }

  method ReadHoldingRegistersTCP(conn: Conn, slave: byte, addr: U16, quantity: U16, tx: U16, expired: nat -> bool)
      returns (outcome: Outcome)
    modifies conn
    ensures if conn.writable then
        && conn.written == old(conn.written) + ReadRequest(tx, slave, addr, quantity)
        && (outcome, conn.pending) == Await(Reading, tx, old(conn.pending), expired, 0)
      else
        outcome == Failed(WriteFailed) && conn.written == old(conn.written) && conn.pending == old(conn.pending)
  {
    var req := NewReadRequest(slave, addr, quantity, tx);
    var ok := conn.Write(req[..]);
    if !ok {
      return Failed(WriteFailed);
    }
    outcome := AwaitReply(conn, Reading, tx, expired);
  }

  method WriteMultipleRegistersTCP(conn: Conn, slave: byte, addr: U16, value: U16, tx: U16, expired: nat -> bool)
      returns (outcome: Outcome)
    modifies conn
    ensures if conn.writable then
        && conn.written == old(conn.written) + WriteRequest(tx, slave, addr, value)
        && (outcome, conn.pending) == Await(Writing, tx, old(conn.pending), expired, 0)
      else
        outcome == Failed(WriteFailed) && conn.written == old(conn.written) && conn.pending == old(conn.pending)
  {
    var req := NewWriteRequest(slave, addr, value, tx);
    var ok := conn.Write(req[..]);
    if !ok {
      return Failed(WriteFailed);
    }
    outcome := AwaitReply(conn, Writing, tx, expired);
  }

  // ---- resynchronisation ----

  /** A frame the loop accepts as such, whatever it contains. */
  predicate WellFormed(kind: Kind, f: seq<byte>) {
    |f| >= 7 && MinLength(kind) <= GetLength(f) <= MAX_LENGTH && |f| == 6 + GetLength(f)
  }

  predicate Stale(kind: Kind, tx: U16, f: seq<byte>) {
    WellFormed(kind, f) && Get16(f, 0) != tx
  }

  predicate Mine(kind: Kind, tx: U16, f: seq<byte>) {
    WellFormed(kind, f) && Get16(f, 0) == tx
  }

  function Concat(fs: seq<seq<byte>>): seq<byte> {
    if fs == [] then [] else fs[0] + Concat(fs[1..])
  }

  /** A stream that begins with a well-formed frame, as the loop sees it. */
  lemma {:induction false} FrameAhead(kind: Kind, f: seq<byte>, tail: seq<byte>)
    requires WellFormed(kind, f)
    ensures NextFrame(kind, f + tail) == Frame(Get16(f, 0), f[7..], tail)
  {
    var s, len := f + tail, GetLength(f);
    assert s[0] == f[0] && s[1] == f[1] && s[4] == f[4] && s[5] == f[5];
    assert s[7..6 + len] == f[7..];
    assert s[6 + len..] == tail;
  }

  /** A frame found is a well-formed prefix of the stream. */
  lemma {:induction false} FrameFound(kind: Kind, s: seq<byte>) returns (f: seq<byte>)
    requires NextFrame(kind, s).Frame?
    ensures var next := NextFrame(kind, s);
      s == f + next.rest && WellFormed(kind, f) && Get16(f, 0) == next.tx && f[7..] == next.pdu
  {
    var len := GetLength(s);
    f := s[..6 + len];
    assert f[0] == s[0] && f[1] == s[1] && f[4] == s[4] && f[5] == s[5];
    assert f[7..] == s[7..6 + len];
  }

  /** Completeness: after any number of replies to other transactions the first
      frame with the right transaction identifier is decoded, and the stream is
      left at the frame boundary behind it. */
  lemma {:induction false} SkipsStale(kind: Kind, tx: U16, stale: seq<seq<byte>>, f: seq<byte>, tail: seq<byte>,
                                      expired: nat -> bool, k: nat)
    requires (forall i :: 0 <= i < |stale| ==> Stale(kind, tx, stale[i])) && Mine(kind, tx, f)
    requires forall i :: k <= i <= k + |stale| ==> !expired(i)
    ensures Await(kind, tx, Concat(stale) + f + tail, expired, k) == (DecodePdu(kind, f[7..]), tail)
    decreases |stale|
  {
    if stale == [] {
      assert Concat(stale) + f + tail == f + tail;
      FrameAhead(kind, f, tail);
    } else {
      var rest := Concat(stale[1..]) + f + tail;
      assert Concat(stale) + f + tail == stale[0] + rest;
      FrameAhead(kind, stale[0], rest);
      SkipsStale(kind, tx, stale[1..], f, tail, expired, k + 1);
    }
  }

  /** The stream is whole frames of other transactions, seen before the deadline,
      then a frame `f` of this one, then `rest`. */
  ghost predicate Explains(kind: Kind, tx: U16, s: seq<byte>, stale: seq<seq<byte>>, f: seq<byte>, rest: seq<byte>) {
    && s == Concat(stale) + (f + rest) && Mine(kind, tx, f)
    && (forall i :: 0 <= i < |stale| ==> Stale(kind, tx, stale[i]))
  }

  lemma {:induction false} ExplainsCons(kind: Kind, tx: U16, head: seq<byte>, s: seq<byte>,
                                        stale: seq<seq<byte>>, f: seq<byte>, rest: seq<byte>)
    requires Stale(kind, tx, head) && Explains(kind, tx, s, stale, f, rest)
    ensures Explains(kind, tx, head + s, [head] + stale, f, rest)
  {
    assert ([head] + stale)[1..] == stale;
    assert head + (Concat(stale) + (f + rest)) == head + Concat(stale) + (f + rest);
  }

  predicate Decided(o: Outcome) {
    o.Failed? ==> o.reason == ShortPdu || o.reason == ShortData
  }

  /** Soundness: an answer only ever comes from the first frame with the right
      identifier, everything before it being whole frames with other identifiers. */
  lemma {:induction false} OnlyMine(kind: Kind, tx: U16, s: seq<byte>, expired: nat -> bool, k: nat)
      returns (stale: seq<seq<byte>>, f: seq<byte>)
    requires Decided(Await(kind, tx, s, expired, k).0)
    ensures Explains(kind, tx, s, stale, f, Await(kind, tx, s, expired, k).1)
    ensures Await(kind, tx, s, expired, k).0 == DecodePdu(kind, f[7..])
    decreases |s|
  {
    var next := NextFrame(kind, s);
    var head := FrameFound(kind, s);
    if next.tx == tx {
      stale, f := [], head;
    } else {
      stale, f := OnlyMine(kind, tx, next.rest, expired, k + 1);
      ExplainsCons(kind, tx, head, next.rest, stale, f, Await(kind, tx, next.rest, expired, k + 1).1);
      stale := [head] + stale;
    }
  }

  /** The loop gives up at a frame boundary when it finds the deadline passed, and reads on
      until then. */
  lemma {:induction false} StopsAtDeadline(kind: Kind, tx: U16, stale: seq<seq<byte>>, tail: seq<byte>,
                                           expired: nat -> bool, k: nat)
    requires forall i :: 0 <= i < |stale| ==> Stale(kind, tx, stale[i])
    requires expired(k + |stale|) && forall i :: k <= i < k + |stale| ==> !expired(i)
    ensures Await(kind, tx, Concat(stale) + tail, expired, k) == (Failed(DeadlinePassed), tail)
    decreases |stale|
  {
    if stale == [] {
      assert Concat(stale) + tail == tail;
    } else {
      assert Concat(stale) + tail == stale[0] + (Concat(stale[1..]) + tail);
      FrameAhead(kind, stale[0], Concat(stale[1..]) + tail);
      StopsAtDeadline(kind, tx, stale[1..], tail, expired, k + 1);
    }
  }

  /** A length field below 2 (1 for a write) or beyond 260. */
  predicate Refused(kind: Kind, s: seq<byte>)
    requires |s| >= 7
  {
    var len := s[4] as int * 256 + s[5] as int;
    len > 260 || len < (if kind == Reading then 2 else 1)
  }

  /** Such a frame is refused, whatever follows; every other one is awaited as a whole. */
  lemma {:induction false} RefusedExactly(kind: Kind, s: seq<byte>)
    ensures NextFrame(kind, s).Broken? && NextFrame(kind, s).reason == BadLength <==> |s| >= 7 && Refused(kind, s)
    ensures NextFrame(kind, s).Broken? && NextFrame(kind, s).reason == Closed <==>
            |s| < 7 || (!Refused(kind, s) && |s| < 6 + (s[4] as int * 256 + s[5] as int))
  {
  }

  // ---- what a reply says ----

  /** A reply to a read yields data exactly if it is no exception and holds a count and at
      least as many bytes: those behind the count. */
  lemma {:induction false} ReadPduExactly(pdu: seq<byte>, data: seq<byte>)
    ensures DecodePdu(Reading, pdu) == Payload(data) <==>
            && |pdu| >= 2 + |data| && pdu[0] & 0x80 == 0 && pdu[1] as int == |data| && pdu[2..2 + |data|] == data
  {
  }

  /** A reply to a write confirms it exactly if it is no exception. */
  lemma {:induction false} WritePduExactly(pdu: seq<byte>)
    ensures DecodePdu(Writing, pdu) == Payload([]) <==> (pdu == [] || pdu[0] & 0x80 == 0)
    ensures DecodePdu(Writing, pdu).Payload? ==> DecodePdu(Writing, pdu) == Payload([])
  {
  }

  /** Either reply is an exception exactly if the highest bit of its function is set; the code
      follows the function, and is 0 if it is missing. */
  lemma {:induction false} ExceptionPduExactly(kind: Kind, pdu: seq<byte>, func: byte, code: byte)
    ensures DecodePdu(kind, pdu) == Exception(func, code) <==>
            || (|pdu| >= 2 && func & 0x80 != 0 && pdu[..2] == [func, code])
            || (pdu == [func] && func & 0x80 != 0 && code == 0)
  {
  }

  // ---- the device's side ----

  /** What a device reads from a request frame. */
  datatype Query = ReadQuery(tx: U16, slave: byte, addr: U16, quantity: U16)
                 | WriteQuery(tx: U16, slave: byte, addr: U16, value: U16)

  function ParseQuery(f: seq<byte>): Option<Query> {
    if |f| == 12 && Get16(f, 2) == U16(0, 0) && Get16(f, 4) == U16(0, 6) && f[7] == 0x03 then
      Some(ReadQuery(Get16(f, 0), f[6], Get16(f, 8), Get16(f, 10)))
    else if |f| == 15 && Get16(f, 2) == U16(0, 0) && Get16(f, 4) == U16(0, 9) && f[7] == 0x10
            && Get16(f, 10) == U16(0, 1) && f[12] == 2 then
      Some(WriteQuery(Get16(f, 0), f[6], Get16(f, 8), Get16(f, 13)))
    else
      None
  }

  /** The device understands exactly what was asked. */
  lemma {:induction false} RequestRoundTrip(tx: U16, slave: byte, addr: U16, x: U16)
    ensures ParseQuery(ReadRequest(tx, slave, addr, x)) == Some(ReadQuery(tx, slave, addr, x))
    ensures ParseQuery(WriteRequest(tx, slave, addr, x)) == Some(WriteQuery(tx, slave, addr, x))
  {
  }

  /** A device's reply carrying `data`; `len` and `count` are its length fields. */
  function DataReply(tx: U16, slave: byte, len: U16, count: byte, data: seq<byte>): seq<byte> {
    tx.Bytes() + [0, 0] + len.Bytes() + [slave, 0x03, count] + data
  }

  /** The fields say how long the reply is; a request for n <= 125 registers is
      answered with 2n bytes. */
  predicate CountsRight(len: U16, count: byte, data: seq<byte>) {
    |data| <= 250 && count as int == |data| && len.Value() == 3 + |data|
  }

  function ExceptionReply(tx: U16, slave: byte, func: byte, code: byte): seq<byte> {
    tx.Bytes() + [0, 0, 0, 3, slave, func, code]
  }

  lemma {:induction false} DataReplyMine(tx: U16, slave: byte, len: U16, count: byte, data: seq<byte>)
    requires CountsRight(len, count, data)
    ensures Mine(Reading, tx, DataReply(tx, slave, len, count, data))
    ensures DecodePdu(Reading, DataReply(tx, slave, len, count, data)[7..]) == Payload(data)
  {
    var f := DataReply(tx, slave, len, count, data);
    assert Get16(f, 4) == len;
    assert f[7..] == [0x03, count] + data;
    DataPdu(count, data);
  }

  lemma {:induction false} DataPdu(count: byte, data: seq<byte>)
    requires count as int == |data|
    ensures DecodePdu(Reading, [0x03, count] + data) == Payload(data)
  {
    assert ([0x03, count] + data)[2..] == data;
  }

  /** A device's confirmation of a write: function 0x10, and what was written where. */
  function WriteReply(tx: U16, slave: byte, addr: U16, quantity: U16): seq<byte> {
    tx.Bytes() + [0, 0, 0, 6, slave, 0x10] + addr.Bytes() + quantity.Bytes()
  }

  lemma {:induction false} WriteReplyMine(tx: U16, slave: byte, addr: U16, quantity: U16)
    ensures Mine(Writing, tx, WriteReply(tx, slave, addr, quantity))
    ensures DecodePdu(Writing, WriteReply(tx, slave, addr, quantity)[7..]) == Payload([])
  {
    var f := WriteReply(tx, slave, addr, quantity);
    assert f[7] == 0x10 && 0x10 as byte & 0x80 == 0;
    WritePduExactly(f[7..]);
  }

  lemma {:induction false} ExceptionReplyMine(kind: Kind, tx: U16, slave: byte, func: byte, code: byte)
    requires func & 0x80 != 0
    ensures Mine(kind, tx, ExceptionReply(tx, slave, func, code))
    ensures DecodePdu(kind, ExceptionReply(tx, slave, func, code)[7..]) == Exception(func, code)
  {
    assert ExceptionReply(tx, slave, func, code)[7..] == [func, code];
  }

  /** End to end: whatever stale replies precede it, the device's reply is returned
      as data, or as the exception it carries. */
  lemma {:induction false} DataRoundTrip(tx: U16, slave: byte, len: U16, count: byte, data: seq<byte>,
                                         stale: seq<seq<byte>>, tail: seq<byte>, expired: nat -> bool)
    requires CountsRight(len, count, data) && (forall i :: 0 <= i < |stale| ==> Stale(Reading, tx, stale[i]))
    requires forall i :: 0 <= i <= |stale| ==> !expired(i)
    ensures Await(Reading, tx, Concat(stale) + DataReply(tx, slave, len, count, data) + tail, expired, 0) ==
            (Payload(data), tail)
  {
    DataReplyMine(tx, slave, len, count, data);
    SkipsStale(Reading, tx, stale, DataReply(tx, slave, len, count, data), tail, expired, 0);
  }

  /** A refused write is reported as refused, like a refused read. */
  lemma {:induction false} ExceptionRoundTrip(kind: Kind, tx: U16, slave: byte, func: byte, code: byte,
                                              stale: seq<seq<byte>>, tail: seq<byte>, expired: nat -> bool)
    requires func & 0x80 != 0 && (forall i :: 0 <= i < |stale| ==> Stale(kind, tx, stale[i]))
    requires forall i :: 0 <= i <= |stale| ==> !expired(i)
    ensures Await(kind, tx, Concat(stale) + ExceptionReply(tx, slave, func, code) + tail, expired, 0) ==
            (Exception(func, code), tail)
  {
    ExceptionReplyMine(kind, tx, slave, func, code);
    SkipsStale(kind, tx, stale, ExceptionReply(tx, slave, func, code), tail, expired, 0);
  }

  lemma {:induction false} WriteRoundTrip(tx: U16, slave: byte, addr: U16, quantity: U16,
                                          stale: seq<seq<byte>>, tail: seq<byte>, expired: nat -> bool)
    requires forall i :: 0 <= i < |stale| ==> Stale(Writing, tx, stale[i])
    requires forall i :: 0 <= i <= |stale| ==> !expired(i)
    ensures Await(Writing, tx, Concat(stale) + WriteReply(tx, slave, addr, quantity) + tail, expired, 0) ==
            (Payload([]), tail)
  {
    WriteReplyMine(tx, slave, addr, quantity);
    SkipsStale(Writing, tx, stale, WriteReply(tx, slave, addr, quantity), tail, expired, 0);
  }
}
