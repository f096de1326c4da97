/** The broker on top of the codec: where in the device's byte stream its requests begin. */
module Framing {
  import opened Registers
  import opened BrokerModel
  import Streams
  import Tcp = ModbusTcp
  import Rtu = ModbusRtu

  datatype Proto = OverTcp | OverRtu(slave: byte)

  // ---- what the broker keeps a connection for ----

  predicate IsFrame(op: Op) {
    op.ReadFrame? || op.WriteFrame?
  }

  /** The answers after which the next request begins where a reply has ended. An illegal
      address keeps the connection too, but over RTU its length is not known. */
  predicate Settles(proto: Proto, op: Op) {
    match op
    case ReadFrame(_, _, _, _, answer) => answer.Ok? || (answer.IllegalAddress? && proto.OverTcp?)
    case WriteFrame(_, answer) => answer.Ok?
    case _ => true
  }

  /** A connection was dialled, and every request on it so far was answered like that. */
  function Aligned(proto: Proto, log: seq<Op>): bool {
    if log == [] then false
    else
      var before, op := log[..|log| - 1], log[|log| - 1];
      match op
      case Dial(_, _, ok) => ok || Aligned(proto, before)
      case Configured(_) => false
      case _ => Aligned(proto, before) && Settles(proto, op)
  }

  /** Some read since the last successful dial was answered with an illegal address. */
  function IllegalSeen(log: seq<Op>): bool {
    if log == [] then false
    else
      var before, op := log[..|log| - 1], log[|log| - 1];
      if op.Dial? && op.ok then false
      else IllegalSeen(before) || (op.ReadFrame? && op.answer.IllegalAddress?)
  }

  lemma {:induction false} AlignedSnoc(proto: Proto, log: seq<Op>, op: Op)
    ensures Aligned(proto, log + [op]) ==
            match op
            case Dial(_, _, ok) => ok || Aligned(proto, log)
            case Configured(_) => false
            case _ => Aligned(proto, log) && Settles(proto, op)
  {
    assert (log + [op])[..|log|] == log;
  }

  /** Without illegal addresses the protocols do not differ. */
  lemma {:induction false} AlignedEither(slave: byte, log: seq<Op>)
    requires Aligned(OverTcp, log) && !IllegalSeen(log)
    ensures Aligned(OverRtu(slave), log)
  {
    var op := log[|log| - 1];
    if !(op.Dial? && op.ok) {
      AlignedEither(slave, log[..|log| - 1]);
    }
  }

  ghost predicate FramesAligned(log: seq<Op>) {
    forall i :: 0 <= i < |log| && IsFrame(log[i]) ==> Aligned(OverTcp, log[..i])
  }

  lemma {:induction false} FramesSnoc(log: seq<Op>, op: Op)
    requires FramesAligned(log) && (IsFrame(op) ==> Aligned(OverTcp, log))
    ensures FramesAligned(log + [op])
  {
    var more := log + [op];
    forall i | 0 <= i < |more| && IsFrame(more[i])
      ensures Aligned(OverTcp, more[..i])
    {
      assert more[..i] == log[..i];
      assert log[..|log|] == log;
    }
  }

  /** A held connection is aligned, and every request was sent on an aligned one. */
  ghost predicate Orderly(b: Fields) {
    (b.conn.Some? ==> Aligned(OverTcp, b.log)) && FramesAligned(b.log)
  }

  /** One more operation; `held` says whether the connection is kept afterwards. */
  lemma {:induction false} OrderlySnoc(b: Fields, op: Op, c: Fields)
    requires Orderly(b) && c.log == b.log + [op] && (IsFrame(op) ==> b.conn.Some?)
    requires c.conn.Some? ==>
               (op.Dial? && op.ok) || (b.conn.Some? && !op.Configured? && Settles(OverTcp, op))
    ensures Orderly(c)
  {
    FramesSnoc(b.log, op);
    AlignedSnoc(OverTcp, b.log, op);
  }

  lemma {:induction false} DialOrderly(env: Env, b: Fields)
    requires Orderly(b) && b.conn == None
    ensures Orderly(DialRound(env, b).0)
  {
    var b1 := DialOnce(env, b);
    OrderlySnoc(b, Dial(b.addr, b.now, env.dials(b.tick)), if env.dials(b.tick) then Attach(b1) else b1);
    if !env.dials(b.tick) {
      OrderlySnoc(b1, Wait(b1.backoff.current, b1.now, env.Cancelled(b1.tick)), BackOff(env, b1));
    }
  }

  lemma {:induction false} DialLoopOrderly(env: Env, b: Fields)
    requires Orderly(b) && b.conn == None
    ensures Orderly(DialLoop(env, b).0)
    decreases env.lifetime - b.tick
  {
    DialOrderly(env, b);
    if DialRound(env, b).1 == Again {
      DialLoopOrderly(env, DialRound(env, b).0);
    }
  }

  lemma {:induction false} EnsureOrderly(env: Env, b: Fields)
    requires Orderly(b)
    ensures Orderly(EnsureConnected(env, b).0)
  {
    if b.conn == None && !b.dormant {
      DialLoopOrderly(env, b.SetState(Connecting));
    }
  }

  /** After a read request the connection is dropped unless the answer settles it. */
  lemma {:induction false} SendReadOrderly(env: Env, b: Fields)
    requires Orderly(b) && b.conn.Some?
    ensures var c := SendRead(env, b.EnforceGap());
      Orderly(if env.reply(b.tick) == Trouble then c.HandleError() else c)
  {
    var w := b.EnforceGap();
    var c := SendRead(env, w);
    var op := ReadFrame(w.conn.value, w.now, w.now + env.took(w.tick), w.gap, env.reply(w.tick));
    OrderlySnoc(b, op, if env.reply(b.tick) == Trouble then c.HandleError() else c);
  }

  lemma {:induction false} ReadOrderly(env: Env, b: Fields, attempt: nat)
    requires Orderly(b) && attempt <= READ_ATTEMPTS
    ensures Orderly(ReadAttempts(env, b, attempt).0)
    decreases READ_ATTEMPTS - attempt
  {
    EnsureOrderly(env, b);
    var (b1, problem) := EnsureConnected(env, b);
    if problem == None {
      SendReadOrderly(env, b1);
      var b3 := SendRead(env, b1.EnforceGap()).HandleError();
      if env.reply(b1.tick) == Trouble && !b3.aborting && attempt < READ_ATTEMPTS {
        ReadOrderly(env, b3, attempt + 1);
      }
    }
  }

  lemma {:induction false} SendWriteOrderly(env: Env, b: Fields)
    requires Orderly(b) && b.conn.Some?
    ensures var c := SendWrite(env, b); Orderly(if env.reply(b.tick).Ok? then c else c.HandleError())
  {
    var c := SendWrite(env, b);
    OrderlySnoc(b, WriteFrame(b.conn.value, env.reply(b.tick)), if env.reply(b.tick).Ok? then c else c.HandleError());
  }

  lemma {:induction false} WriteOrderly(env: Env, b: Fields, attempt: nat)
    requires Orderly(b) && attempt <= WRITE_ATTEMPTS
    ensures Orderly(WriteAttempts(env, b, attempt).0)
    decreases WRITE_ATTEMPTS - attempt
  {
    EnsureOrderly(env, b);
    var (b1, problem) := EnsureConnected(env, b);
    if problem == None {
      SendWriteOrderly(env, b1);
      if !env.reply(b1.tick).Ok? && attempt < WRITE_ATTEMPTS {
        WriteOrderly(env, SendWrite(env, b1).HandleError(), attempt + 1);
      }
    }
  }

  lemma {:induction false} BatchOrderly(env: Env, b: Fields, n: nat, done: seq<Result>)
    requires Orderly(b)
    ensures Orderly(BatchFrom(env, b, n, done).0)
    decreases n
  {
    if n > 0 && !env.Cancelled(b.tick) {
      ReadOrderly(env, Idle(env, b), 1);
      var (b1, r) := ExecuteRead(env, Idle(env, b));
      BatchOrderly(env, b1, n - 1, done + [r]);
    }
  }

  lemma {:induction false} ReconfigureOrderly(env: Env, b: Fields, addr: string)
    requires Orderly(b)
    ensures Orderly(ExecuteReconfigure(env, b, addr).0)
  {
    var b1 := Adopt(b, addr);
    OrderlySnoc(b, Configured(addr), b1);
    OrderlySnoc(b1, Dial(addr, b1.now, env.dials(b1.tick)), ExecuteReconfigure(env, b, addr).0);
  }

  lemma {:induction false} ExecuteOrderly(env: Env, b: Fields, cmd: Command)
    requires Orderly(b)
    ensures Orderly(Execute(env, b, cmd).0)
  {
    match cmd
    case Read => ReadOrderly(env, b, 1);
    case Write => WriteOrderly(env, b, 1);
    case ReadBatch(n) => BatchOrderly(env, b, n, []);
    case Reconfigure(addr) => ReconfigureOrderly(env, b, addr);
    case Disconnect => OrderlySnoc(b, Dropped(b.tick), ExecuteDisconnect(b));
    case SetDelay(gap) => OrderlySnoc(b, GapSet(gap), b.(gap := gap).Record(GapSet(gap)));
    case Stop => OrderlySnoc(b, Stopped, Cleanup(b));
  }

  /** In every run a request goes out only on a connection on which every earlier request
      was answered with data, a confirmation or an illegal address. */
  lemma {:induction false} RunOrderly(env: Env, b: Fields, cmds: seq<Command>)
    requires Orderly(b)
    ensures Orderly(Run(env, b, cmds).0)
    decreases |cmds|
  {
    if cmds != [] {
      ExecuteOrderly(env, Idle(env, b), cmds[0]);
      if !cmds[0].Stop? {
        RunOrderly(env, Execute(env, Idle(env, b), cmds[0]).0, cmds[1..]);
      }
    }
  }

  // ---- the device's bytes ----

  /** Everything the device sends on a connection, and how much of it was consumed. */
  datatype Wire = Wire(all: seq<byte>, at: nat)

  /** How the broker classifies an outcome; 2 is the code of an illegal address. */
  function TcpAnswer(o: Tcp.Outcome): Reply {
    match o
    case Payload(bytes) => Ok(bytes)
    case Exception(_, code) => if code == 2 then IllegalAddress else Trouble
    case Failed(_) => Trouble
  }

  function RtuAnswer(o: Rtu.Outcome): Reply {
    match o
    case Payload(bytes) => Ok(bytes)
    case Exception(_, code) => if code == 2 then IllegalAddress else Trouble
    case Failed(_) => Trouble
  }

  function RtuOutcome(kind: Tcp.Kind, slave: byte, s: seq<byte>): (Rtu.Outcome, seq<byte>) {
    if kind == Tcp.Reading then Rtu.DecodeReply(slave, s) else Rtu.DecodeWriteReply(s)
  }

  /** A request with this transaction identifier is written, and the bytes up to `seen`
      arrive before the codec gives up or has its answer. */
  ghost predicate TcpExchange(kind: Tcp.Kind, tx: Streams.U16, expired: nat -> bool, seen: nat, answer: Reply,
                              w: Wire, v: Wire)
  {
    && w.at <= seen <= |w.all| && v.all == w.all
    && var (outcome, rest) := Tcp.Await(kind, tx, w.all[w.at..seen], expired, 0);
       answer == TcpAnswer(outcome) && v.at + |rest| == seen
  }

  ghost predicate RtuExchange(kind: Tcp.Kind, slave: byte, seen: nat, answer: Reply, w: Wire, v: Wire) {
    && w.at <= seen <= |w.all| && v.all == w.all
    && var (outcome, rest) := RtuOutcome(kind, slave, w.all[w.at..seen]);
       answer == RtuAnswer(outcome) && v.at + |rest| == seen
  }

  /** The same, or the request could not be written; RTU has no identifiers. */
  ghost predicate Exchange(proto: Proto, kind: Tcp.Kind, tx: Streams.U16, answer: Reply, w: Wire, v: Wire) {
    || (v == w && answer == Trouble)
    || match proto
       case OverTcp => exists expired, seen: nat :: TcpExchange(kind, tx, expired, seen, answer, w, v)
       case OverRtu(slave) => exists seen: nat :: RtuExchange(kind, slave, seen, answer, w, v)
  }

  ghost predicate WireStep(proto: Proto, op: Op, tx: Streams.U16, w: Wire, v: Wire) {
    match op
    case Dial(_, _, ok) => if ok then v.at == 0 else v == w
    case ReadFrame(_, _, _, _, answer) => Exchange(proto, Tcp.Reading, tx, answer, w, v)
    case WriteFrame(_, answer) => Exchange(proto, Tcp.Writing, tx, answer, w, v)
    case _ => v == w
  }

  /** The answers in a broker's log are what the codec makes of these bytes when its requests
      carry these identifiers, whatever the device sends and whenever it arrives. */
  ghost predicate Wired(proto: Proto, log: seq<Op>, ids: seq<Streams.U16>, wires: seq<Wire>) {
    && |wires| == |log| + 1 && |ids| == |log|
    && forall i :: 0 <= i < |log| ==> WireStep(proto, log[i], ids[i], wires[i], wires[i + 1])
  }

  // ---- frame boundaries ----

  /** One whole reply: a frame as its length field says; over RTU a sealed data reply, or
      eight bytes that confirm a write. */
  ghost predicate Whole(proto: Proto, f: seq<byte>) {
    match proto
    case OverTcp => Tcp.WellFormed(Tcp.Writing, f)
    case OverRtu(slave) =>
      || (|f| == 8 && f[1] & 0x80 == 0)
      || (|f| >= 5 && |f| == 5 + f[2] as int && f[0] == slave && f[1] & 0x80 == 0 && Rtu.Sealed(f))
  }

  ghost predicate AllWhole(proto: Proto, fs: seq<seq<byte>>) {
    forall i :: 0 <= i < |fs| ==> Whole(proto, fs[i])
  }

  /** What was consumed is whole replies. */
  ghost predicate Splits(proto: Proto, w: Wire, fs: seq<seq<byte>>) {
    AllWhole(proto, fs) && w.at <= |w.all| && w.all[..w.at] == Tcp.Concat(fs)
  }

  ghost predicate AtBoundary(proto: Proto, w: Wire) {
    exists fs :: Splits(proto, w, fs)
  }

  lemma {:induction false} ConcatAdd(fs: seq<seq<byte>>, gs: seq<seq<byte>>)
    ensures Tcp.Concat(fs + gs) == Tcp.Concat(fs) + Tcp.Concat(gs)
  {
    if fs == [] {
      assert fs + gs == gs;
    } else {
      ConcatAdd(fs[1..], gs);
      assert (fs + gs)[1..] == fs[1..] + gs;
    }
  }

  /** Whole replies are consumed, up to `seen` of which `rest` is left. */
  lemma {:induction false} Consumed(proto: Proto, w: Wire, v: Wire, seen: nat, gs: seq<seq<byte>>, rest: seq<byte>)
    requires AtBoundary(proto, w) && v.all == w.all && w.at <= seen <= |w.all| && v.at + |rest| == seen
    requires AllWhole(proto, gs) && w.all[w.at..seen] == Tcp.Concat(gs) + rest
    ensures AtBoundary(proto, v)
  {
    var fs :| Splits(proto, w, fs);
    ConcatAdd(fs, gs);
    CutFront(w.all, w.at, seen, Tcp.Concat(gs), rest);
    assert Splits(proto, v, fs + gs);
  }

  lemma {:induction false} CutFront(all: seq<byte>, at: nat, seen: nat, front: seq<byte>, rest: seq<byte>)
    requires at <= seen <= |all| && all[at..seen] == front + rest
    ensures all[..seen - |rest|] == all[..at] + front
  {
    assert all[at..seen][..|front|] == front;
    assert all[at..seen][..|front|] == all[at..at + |front|];
  }

  lemma {:induction false} TcpConsumes(kind: Tcp.Kind, tx: Streams.U16, expired: nat -> bool, s: seq<byte>)
      returns (gs: seq<seq<byte>>)
    requires TcpAnswer(Tcp.Await(kind, tx, s, expired, 0).0) != Trouble
    ensures AllWhole(OverTcp, gs) && s == Tcp.Concat(gs) + Tcp.Await(kind, tx, s, expired, 0).1
  {
    var stale, f, rest := Explained(kind, tx, expired, s);
    gs := stale + [f];
    ExplainedWhole(kind, tx, s, stale, f, rest);
  }

  lemma {:induction false} Explained(kind: Tcp.Kind, tx: Streams.U16, expired: nat -> bool, s: seq<byte>)
      returns (stale: seq<seq<byte>>, f: seq<byte>, rest: seq<byte>)
    requires TcpAnswer(Tcp.Await(kind, tx, s, expired, 0).0) != Trouble
    ensures Tcp.Explains(kind, tx, s, stale, f, rest)
    ensures Tcp.Await(kind, tx, s, expired, 0) == (Tcp.DecodePdu(kind, f[7..]), rest)
  {
    rest := Tcp.Await(kind, tx, s, expired, 0).1;
    stale, f := Tcp.OnlyMine(kind, tx, s, expired, 0);
  }

  lemma {:induction false} ExplainedWhole(kind: Tcp.Kind, tx: Streams.U16, s: seq<byte>, stale: seq<seq<byte>>,
                                          f: seq<byte>, rest: seq<byte>)
    requires Tcp.Explains(kind, tx, s, stale, f, rest)
    ensures AllWhole(OverTcp, stale + [f]) && s == Tcp.Concat(stale + [f]) + rest
  {
    ConcatAdd(stale, [f]);
    assert [f][1..] == [] && Tcp.Concat([f]) == f;
    assert Tcp.Concat(stale) + (f + rest) == Tcp.Concat(stale) + f + rest;
    forall i | 0 <= i < |stale + [f]|
      ensures Whole(OverTcp, (stale + [f])[i])
    {
      assert i < |stale| ==> Tcp.Stale(kind, tx, stale[i]);
    }
  }

  lemma {:induction false} RtuConsumes(kind: Tcp.Kind, slave: byte, s: seq<byte>) returns (f: seq<byte>)
    requires RtuOutcome(kind, slave, s).0.Payload?
    ensures Whole(OverRtu(slave), f) && s == f + RtuOutcome(kind, slave, s).1
  {
    if kind == Tcp.Writing {
      f := s[..8];
    } else {
      f := Rtu.PayloadSound(slave, s);
    }
  }

  /** An answer that settles leaves the stream at a boundary. */
  lemma {:induction false} ExchangeSettles(proto: Proto, kind: Tcp.Kind, tx: Streams.U16, answer: Reply,
                                           w: Wire, v: Wire)
    requires Exchange(proto, kind, tx, answer, w, v) && AtBoundary(proto, w)
    requires answer.Ok? || (answer.IllegalAddress? && proto.OverTcp?)
    ensures AtBoundary(proto, v)
  {
    match proto
    case OverTcp =>
      var expired, seen: nat :| TcpExchange(kind, tx, expired, seen, answer, w, v);
      var gs := TcpConsumes(kind, tx, expired, w.all[w.at..seen]);
      Consumed(proto, w, v, seen, gs, Tcp.Await(kind, tx, w.all[w.at..seen], expired, 0).1);
    case OverRtu(slave) =>
      var seen: nat :| RtuExchange(kind, slave, seen, answer, w, v);
      var f := RtuConsumes(kind, slave, w.all[w.at..seen]);
      assert [f][1..] == [] && Tcp.Concat([f]) == f;
      Consumed(proto, w, v, seen, [f], RtuOutcome(kind, slave, w.all[w.at..seen]).1);
  }

  lemma {:induction false} AlignedAtBoundary(proto: Proto, log: seq<Op>, ids: seq<Streams.U16>, wires: seq<Wire>,
                                             i: nat)
    requires Wired(proto, log, ids, wires) && i <= |log| && Aligned(proto, log[..i])
    ensures AtBoundary(proto, wires[i])
    decreases i
  {
    var op := log[i - 1];
    assert log[..i][..i - 1] == log[..i - 1];
    assert WireStep(proto, op, ids[i - 1], wires[i - 1], wires[i - 1 + 1]);
    if op.Dial? && op.ok {
      assert Splits(proto, wires[i], []);
    } else {
      AlignedAtBoundary(proto, log, ids, wires, i - 1);
      match op
      case ReadFrame(_, _, _, _, answer) =>
        ExchangeSettles(proto, Tcp.Reading, ids[i - 1], answer, wires[i - 1], wires[i]);
      case WriteFrame(_, answer) =>
        ExchangeSettles(proto, Tcp.Writing, ids[i - 1], answer, wires[i - 1], wires[i]);
      case _ =>
    }
  }

  /** Over TCP every request of every run begins behind whole replies, whatever the device
      sends, stale, damaged or late. */
  lemma {:induction false} TcpBoundaries(env: Env, base: int, max: int, now: int, cmds: seq<Command>,
                                         ids: seq<Streams.U16>, wires: seq<Wire>, i: nat)
    requires var log := Run(env, New(base, max, now), cmds).0.log;
      Wired(OverTcp, log, ids, wires) && i < |log| && IsFrame(log[i])
    ensures AtBoundary(OverTcp, wires[i])
  {
    RunOrderly(env, New(base, max, now), cmds);
    AlignedAtBoundary(OverTcp, Run(env, New(base, max, now), cmds).0.log, ids, wires, i);
  }

  /** Over RTU so does every request that follows no illegal address on its connection. */
  lemma {:induction false} RtuBoundaries(env: Env, base: int, max: int, now: int, cmds: seq<Command>,
                                         slave: byte, ids: seq<Streams.U16>, wires: seq<Wire>, i: nat)
    requires var log := Run(env, New(base, max, now), cmds).0.log;
      Wired(OverRtu(slave), log, ids, wires) && i < |log| && IsFrame(log[i]) && !IllegalSeen(log[..i])
    ensures AtBoundary(OverRtu(slave), wires[i])
  {
    RunOrderly(env, New(base, max, now), cmds);
    AlignedEither(slave, Run(env, New(base, max, now), cmds).0.log[..i]);
    AlignedAtBoundary(OverRtu(slave), Run(env, New(base, max, now), cmds).0.log, ids, wires, i);
  }

  // ---- a device that sends whole frames ----

  lemma {:induction false} SameHead(f: seq<byte>, g: seq<byte>, s: seq<byte>, t: seq<byte>)
    requires Whole(OverTcp, f) && Whole(OverTcp, g) && f + s <= g + t
    ensures f == g && s <= t
  {
    assert forall i :: 0 <= i < 7 ==> (f + s)[i] == (g + t)[i];
    assert f[4] == g[4] && f[5] == g[5];
    assert f == (f + s)[..|f|] == (g + t)[..|f|] == g;
    assert s == (f + s)[|f|..] && t == (g + t)[|g|..];
  }

  /** Frames are recognised without ambiguity. */
  lemma {:induction false} SameFrames(fs: seq<seq<byte>>, ds: seq<seq<byte>>)
    requires AllWhole(OverTcp, fs) && AllWhole(OverTcp, ds) && Tcp.Concat(fs) <= Tcp.Concat(ds)
    ensures fs <= ds
  {
    if fs != [] {
      assert Whole(OverTcp, fs[0]);
      SameHead(fs[0], ds[0], Tcp.Concat(fs[1..]), Tcp.Concat(ds[1..]));
      SameFrames(fs[1..], ds[1..]);
      assert fs == [fs[0]] + fs[1..] && ds == [ds[0]] + ds[1..];
    }
  }

  /** If all the device sends is whole frames, every request begins exactly behind some
      number of them. */
  lemma {:induction false} BehindReplies(env: Env, base: int, max: int, now: int, cmds: seq<Command>,
                                         ids: seq<Streams.U16>, wires: seq<Wire>, i: nat, ds: seq<seq<byte>>)
      returns (k: nat)
    requires var log := Run(env, New(base, max, now), cmds).0.log;
      Wired(OverTcp, log, ids, wires) && i < |log| && IsFrame(log[i])
    requires AllWhole(OverTcp, ds) && wires[i].all == Tcp.Concat(ds)
    ensures k <= |ds| && wires[i].at == |Tcp.Concat(ds[..k])|
  {
    TcpBoundaries(env, base, max, now, cmds, ids, wires, i);
    var fs :| Splits(OverTcp, wires[i], fs);
    SameFrames(fs, ds);
    k := |fs|;
    assert fs == ds[..k];
  }

  /** Replies k to m - 1 are to other requests, and reply m is to this one. */
  ghost predicate FirstMine(kind: Tcp.Kind, tx: Streams.U16, ds: seq<seq<byte>>, k: nat, m: nat) {
    k <= m < |ds| && Tcp.Mine(kind, tx, ds[m]) && forall j :: k <= j < m ==> Tcp.Stale(kind, tx, ds[j])
  }

  /** The first k replies were consumed. */
  ghost predicate Behind(w: Wire, ds: seq<seq<byte>>, k: nat) {
    w.all == Tcp.Concat(ds) && k <= |ds| && w.at == |Tcp.Concat(ds[..k])|
  }

  /** What the request consumed: frames of others, then its own, which is the answer. */
  ghost predicate ExplainedBy(kind: Tcp.Kind, tx: Streams.U16, answer: Reply, w: Wire, v: Wire, seen: nat,
                              stale: seq<seq<byte>>, f: seq<byte>, rest: seq<byte>)
  {
    && w.at <= seen <= |w.all| && v.all == w.all && v.at + |rest| == seen
    && Tcp.Explains(kind, tx, w.all[w.at..seen], stale, f, rest)
    && answer == TcpAnswer(Tcp.DecodePdu(kind, f[7..]))
  }

  lemma {:induction false} ExchangeExplained(kind: Tcp.Kind, tx: Streams.U16, answer: Reply, w: Wire, v: Wire)
      returns (seen: nat, stale: seq<seq<byte>>, f: seq<byte>, rest: seq<byte>)
    requires answer != Trouble && Exchange(OverTcp, kind, tx, answer, w, v)
    ensures ExplainedBy(kind, tx, answer, w, v, seen, stale, f, rest)
  {
    var expired, n: nat :| TcpExchange(kind, tx, expired, n, answer, w, v);
    seen := n;
    stale, f, rest := Explained(kind, tx, expired, w.all[w.at..seen]);
  }

  lemma {:induction false} ExchangeMine(kind: Tcp.Kind, tx: Streams.U16, seen: nat, w: Wire, v: Wire,
                                        stale: seq<seq<byte>>, f: seq<byte>, rest: seq<byte>,
                                        ds: seq<seq<byte>>, k: nat)
    requires w.at <= seen <= |w.all| && v.at + |rest| == seen
    requires Tcp.Explains(kind, tx, w.all[w.at..seen], stale, f, rest)
    requires AllWhole(OverTcp, ds) && w.all == Tcp.Concat(ds) && k <= |ds| && w.at == |Tcp.Concat(ds[..k])|
    ensures var m := k + |stale|;
      FirstMine(kind, tx, ds, k, m) && f == ds[m] && v.at == |Tcp.Concat(ds[..m + 1])|
  {
    assert w.all[w.at..seen] == w.all[w.at..][..seen - w.at];
    MineAmong(kind, tx, w.all[w.at..seen], stale, f, rest, ds, k);
  }

  /** Frames found in the stream behind the first k replies are the next replies. */
  lemma {:induction false} MineAmong(kind: Tcp.Kind, tx: Streams.U16, s: seq<byte>, stale: seq<seq<byte>>,
                                     f: seq<byte>, rest: seq<byte>, ds: seq<seq<byte>>, k: nat)
    requires Tcp.Explains(kind, tx, s, stale, f, rest) && AllWhole(OverTcp, ds) && k <= |ds|
    requires |Tcp.Concat(ds[..k])| <= |Tcp.Concat(ds)| && s <= Tcp.Concat(ds)[|Tcp.Concat(ds[..k])|..]
    ensures var m := k + |stale|;
      && FirstMine(kind, tx, ds, k, m) && f == ds[m]
      && |Tcp.Concat(ds[..m + 1])| + |rest| == |Tcp.Concat(ds[..k])| + |s|
  {
    var gs := stale + [f];
    ExplainedWhole(kind, tx, s, stale, f, rest);
    NextFrames(ds, k, gs, s, rest);
    SameMine(kind, tx, stale, f, ds, k);
  }

  lemma {:induction false} NextFrames(ds: seq<seq<byte>>, k: nat, gs: seq<seq<byte>>, s: seq<byte>, rest: seq<byte>)
    requires AllWhole(OverTcp, ds) && AllWhole(OverTcp, gs) && k <= |ds| && s == Tcp.Concat(gs) + rest
    requires |Tcp.Concat(ds[..k])| <= |Tcp.Concat(ds)| && s <= Tcp.Concat(ds)[|Tcp.Concat(ds[..k])|..]
    ensures gs <= ds[k..] && k + |gs| <= |ds|
    ensures |Tcp.Concat(ds[..k + |gs|])| + |rest| == |Tcp.Concat(ds[..k])| + |s|
  {
    assert ds == ds[..k] + ds[k..];
    ConcatAdd(ds[..k], ds[k..]);
    assert Tcp.Concat(ds)[|Tcp.Concat(ds[..k])|..] == Tcp.Concat(ds[k..]);
    assert Tcp.Concat(gs) == s[..|Tcp.Concat(gs)|];
    SameFrames(gs, ds[k..]);
    assert ds[..k + |gs|] == ds[..k] + gs;
    ConcatAdd(ds[..k], gs);
  }

  lemma {:induction false} SameMine(kind: Tcp.Kind, tx: Streams.U16, stale: seq<seq<byte>>, f: seq<byte>,
                                    ds: seq<seq<byte>>, k: nat)
    requires k <= |ds| && stale + [f] <= ds[k..] && Tcp.Mine(kind, tx, f)
    requires forall i :: 0 <= i < |stale| ==> Tcp.Stale(kind, tx, stale[i])
    ensures FirstMine(kind, tx, ds, k, k + |stale|) && f == ds[k + |stale|]
  {
    assert f == ds[k..][|stale|];
    forall j | k <= j < k + |stale|
      ensures Tcp.Stale(kind, tx, ds[j])
    {
      assert ds[j] == ds[k..][j - k] == stale[j - k];
    }
  }

  function KindOf(op: Op): Tcp.Kind {
    if op.ReadFrame? then Tcp.Reading else Tcp.Writing
  }

  /** The answer is what reply m says, which is the first to this request from reply k on,
      and the next request will begin behind it. */
  ghost predicate AnsweredBy(kind: Tcp.Kind, answer: Reply, tx: Streams.U16, ds: seq<seq<byte>>, k: nat, m: nat,
                             v: Wire)
  {
    && FirstMine(kind, tx, ds, k, m) && v.at == |Tcp.Concat(ds[..m + 1])|
    && answer == TcpAnswer(Tcp.DecodePdu(kind, ds[m][7..]))
  }

  lemma {:induction false} ExplainedAnswer(kind: Tcp.Kind, tx: Streams.U16, answer: Reply, w: Wire, v: Wire,
                                           seen: nat, stale: seq<seq<byte>>, f: seq<byte>, rest: seq<byte>,
                                           ds: seq<seq<byte>>, k: nat)
    requires ExplainedBy(kind, tx, answer, w, v, seen, stale, f, rest) && AllWhole(OverTcp, ds) && Behind(w, ds, k)
    ensures AnsweredBy(kind, answer, tx, ds, k, k + |stale|, v)
  {
    ExchangeMine(kind, tx, seen, w, v, stale, f, rest, ds, k);
  }

  lemma {:induction false} ExchangeAnswered(kind: Tcp.Kind, tx: Streams.U16, answer: Reply, w: Wire, v: Wire,
                                            ds: seq<seq<byte>>, k: nat)
      returns (m: nat)
    requires answer != Trouble && Exchange(OverTcp, kind, tx, answer, w, v)
    requires AllWhole(OverTcp, ds) && Behind(w, ds, k)
    ensures AnsweredBy(kind, answer, tx, ds, k, m, v)
  {
    var seen, stale, f, rest := ExchangeExplained(kind, tx, answer, w, v);
    m := k + |stale|;
    ExplainedAnswer(kind, tx, answer, w, v, seen, stale, f, rest, ds, k);
  }

  /** What a frame says, byte by byte: data behind their count, a confirmation, or exception
      code 2, which is an illegal address. */
  ghost predicate Says(kind: Tcp.Kind, f: seq<byte>, answer: Reply) {
    match answer
    case Ok(bytes) =>
      if kind == Tcp.Reading then
        |f| >= 9 + |bytes| && f[7] & 0x80 == 0 && f[8] as int == |bytes| && f[9..9 + |bytes|] == bytes
      else
        bytes == [] && (|f| == 7 || (|f| > 7 && f[7] & 0x80 == 0))
    case IllegalAddress => |f| >= 9 && f[7] & 0x80 != 0 && f[8] == 2
    case Trouble => true
  }

  lemma {:induction false} FrameSays(kind: Tcp.Kind, f: seq<byte>)
    requires Whole(OverTcp, f)
    ensures Says(kind, f, TcpAnswer(Tcp.DecodePdu(kind, f[7..])))
  {
    match Tcp.DecodePdu(kind, f[7..])
    case Payload(data) =>
      if kind == Tcp.Reading {
        Tcp.ReadPduExactly(f[7..], data);
        assert f[7..][2..2 + |data|] == f[9..9 + |data|];
      } else {
        Tcp.WritePduExactly(f[7..]);
      }
    case Exception(func, code) => Tcp.ExceptionPduExactly(kind, f[7..], func, code);
    case Failed(_) =>
  }

  /** And every answer but trouble is what the first reply with the identifier of that very
      request says, all replies between where the request began and that one having others. */
  lemma {:induction false} AnswersAreMine(env: Env, base: int, max: int, now: int, cmds: seq<Command>,
                                          ids: seq<Streams.U16>, wires: seq<Wire>, i: nat, ds: seq<seq<byte>>)
      returns (k: nat, m: nat)
    requires var log := Run(env, New(base, max, now), cmds).0.log;
      Wired(OverTcp, log, ids, wires) && i < |log| && IsFrame(log[i]) && log[i].answer != Trouble
    requires AllWhole(OverTcp, ds) && wires[i].all == Tcp.Concat(ds)
    ensures k <= |ds| && wires[i].at == |Tcp.Concat(ds[..k])|
    ensures var op := Run(env, New(base, max, now), cmds).0.log[i];
      AnsweredBy(KindOf(op), op.answer, ids[i], ds, k, m, wires[i + 1]) && Says(KindOf(op), ds[m], op.answer)
  {
    k := BehindReplies(env, base, max, now, cmds, ids, wires, i, ds);
    var log := Run(env, New(base, max, now), cmds).0.log;
    assert WireStep(OverTcp, log[i], ids[i], wires[i], wires[i + 1]);
    m := ExchangeAnswered(KindOf(log[i]), ids[i], log[i].answer, wires[i], wires[i + 1], ds, k);
    FrameSays(KindOf(log[i]), ds[m]);
  }

  // ---- the counter behind the identifiers ----

  const IDS := 0x1_0000

  /** How many requests a log holds. */
  function Requests(log: seq<Op>): nat {
    if log == [] then 0
    else Requests(log[..|log| - 1]) + if IsFrame(log[|log| - 1]) then 1 else 0
  }

  /** The lowest sixteen bits of a counter that every request increments first; it stood at
      `start` when the log began. That it wraps at 2^32 makes no difference to them. */
  ghost predicate Counted(start: nat, log: seq<Op>, ids: seq<Streams.U16>) {
    && |ids| == |log|
    && forall i :: 0 <= i < |log| && IsFrame(log[i]) ==> ids[i].Value() == (start + Requests(log[..i + 1])) % IDS
  }

  lemma {:induction false} RequestsGrow(log: seq<Op>, i: nat, j: nat)
    requires i <= j <= |log|
    ensures Requests(log[..i]) <= Requests(log[..j])
    ensures i < j && IsFrame(log[j - 1]) ==> Requests(log[..i]) < Requests(log[..j])
    decreases j
  {
    if i < j {
      assert log[..j][..j - 1] == log[..j - 1];
      RequestsGrow(log, i, j - 1);
    }
  }

  lemma {:induction false} SameByte(a: byte, b: byte)
    ensures a as int == b as int ==> a == b
  {
    assert (a as int) as byte == a;
  }

  lemma {:induction false} SameValue(x: Streams.U16, y: Streams.U16)
    ensures x == y <==> x.Value() == y.Value()
  {
    SameByte(x.hi, y.hi);
    SameByte(x.lo, y.lo);
    if x.Value() == y.Value() {
      SameDigits(x.hi as int, x.lo as int, y.hi as int, y.lo as int);
    }
  }

  lemma {:induction false} SameDigits(a: int, b: int, c: int, d: int)
    requires 0 <= b < 256 && 0 <= d < 256 && a * 256 + b == c * 256 + d
    ensures a == c && b == d
  {
  }

  /** Two requests share an identifier exactly if a multiple of 65536 requests lies between
      them. */
  lemma {:induction false} SharedExactly(start: nat, log: seq<Op>, ids: seq<Streams.U16>, i: nat, j: nat)
    requires Counted(start, log, ids) && i < |log| && j < |log| && IsFrame(log[i]) && IsFrame(log[j])
    ensures ids[i] == ids[j] <==> (Requests(log[..i + 1]) - Requests(log[..j + 1])) % IDS == 0
  {
    SameValue(ids[i], ids[j]);
    SameResidue(start + Requests(log[..i + 1]), start + Requests(log[..j + 1]));
  }

  lemma {:induction false} SameResidue(a: nat, b: nat)
    ensures a % IDS == b % IDS <==> (a - b) % IDS == 0
  {
  }

  /** Fewer than 65536 requests lie between them. */
  predicate Near(log: seq<Op>, i: nat, j: nat)
    requires i < |log| && j < |log|
  {
    -IDS < Requests(log[..i + 1]) - Requests(log[..j + 1]) < IDS
  }

  lemma {:induction false} SmallMultiple(x: int)
    requires -IDS < x < IDS && x % IDS == 0
    ensures x == 0
  {
  }

  lemma {:induction false} NearApart(start: nat, log: seq<Op>, ids: seq<Streams.U16>, i: nat, j: nat)
    requires Counted(start, log, ids) && i < |log| && j < |log| && IsFrame(log[i]) && IsFrame(log[j])
    requires Near(log, i, j) && ids[i] == ids[j]
    ensures i == j
  {
    SharedExactly(start, log, ids, i, j);
    SmallMultiple(Requests(log[..i + 1]) - Requests(log[..j + 1]));
    if i < j {
      RequestsGrow(log, i + 1, j + 1);
    } else if j < i {
      RequestsGrow(log, j + 1, i + 1);
    }
  }

  /** Each reply of the device carries the identifier of a request: reply r that of request
      `to[r]`, in any order. */
  ghost predicate RepliesTo(log: seq<Op>, ids: seq<Streams.U16>, ds: seq<seq<byte>>, to: seq<nat>)
    requires |ids| == |log|
  {
    && AllWhole(OverTcp, ds) && |to| == |ds|
    && forall r :: 0 <= r < |ds| ==>
         to[r] < |log| && IsFrame(log[to[r]]) && Tcp.Get16(ds[r], 0) == ids[to[r]]
  }

  /** The reply that answers request i is the one to it, unless it is one to a request that
      is a multiple of 65536 requests away. */
  ghost predicate Own(log: seq<Op>, i: nat, j: nat)
    requires i < |log| && j < |log|
  {
    (Requests(log[..i + 1]) - Requests(log[..j + 1])) % IDS == 0 && (Near(log, i, j) ==> i == j)
  }

  /** So a request is only ever answered by the first reply to itself, however many replies to
      others, given up or still to come, are in the stream. */
  lemma {:induction false} OwnReplies(env: Env, base: int, max: int, now: int, cmds: seq<Command>, start: nat,
                                      ids: seq<Streams.U16>, wires: seq<Wire>, i: nat, ds: seq<seq<byte>>,
                                      to: seq<nat>)
      returns (k: nat, m: nat)
    requires var log := Run(env, New(base, max, now), cmds).0.log;
      && Wired(OverTcp, log, ids, wires) && Counted(start, log, ids)
      && i < |log| && IsFrame(log[i]) && log[i].answer != Trouble && RepliesTo(log, ids, ds, to)
    requires wires[i].all == Tcp.Concat(ds)
    ensures k <= m < |ds| && (forall r :: k <= r < m ==> to[r] != i)
    ensures Own(Run(env, New(base, max, now), cmds).0.log, i, to[m])
    ensures wires[i].at == |Tcp.Concat(ds[..k])| && wires[i + 1].at == |Tcp.Concat(ds[..m + 1])|
    ensures var op := Run(env, New(base, max, now), cmds).0.log[i];
      op.answer == TcpAnswer(Tcp.DecodePdu(KindOf(op), ds[m][7..])) && Says(KindOf(op), ds[m], op.answer)
  {
    k, m := AnswersAreMine(env, base, max, now, cmds, ids, wires, i, ds);
    OnlyOwn(start, Run(env, New(base, max, now), cmds).0.log, ids, i, ds, to, k, m);
  }

  lemma {:induction false} OnlyOwn(start: nat, log: seq<Op>, ids: seq<Streams.U16>, i: nat, ds: seq<seq<byte>>,
                                   to: seq<nat>, k: nat, m: nat)
    requires Counted(start, log, ids) && i < |log| && IsFrame(log[i]) && RepliesTo(log, ids, ds, to)
    requires FirstMine(KindOf(log[i]), ids[i], ds, k, m)
    ensures Own(log, i, to[m]) && forall r :: k <= r < m ==> to[r] != i
  {
    SharedExactly(start, log, ids, i, to[m]);
    if Near(log, i, to[m]) {
      NearApart(start, log, ids, i, to[m]);
    }
    forall r | k <= r < m
      ensures to[r] != i
    {
      assert Tcp.Stale(KindOf(log[i]), ids[i], ds[r]);
    }
  }

  // ---- a device that sends sound replies over RTU ----

  /** A sealed data reply, or a sealed exception reply to a read. */
  ghost predicate SoundReply(slave: byte, f: seq<byte>) {
    && |f| >= 5 && f[0] == slave && Rtu.Sealed(f)
    && ((f[1] & 0x80 == 0 && |f| == 5 + f[2] as int) || (f[1] == 0x83 && |f| == 5))
  }

  /** A write is confirmed by eight bytes or refused by an exception of five. */
  ghost predicate SoundReplyTo(kind: Tcp.Kind, slave: byte, f: seq<byte>) {
    if kind == Tcp.Reading then SoundReply(slave, f)
    else (|f| == 8 && f[1] & 0x80 == 0) || (|f| == 5 && f[1] & 0x80 != 0)
  }

  lemma {:induction false} SoundPayload(slave: byte, f: seq<byte>, t: seq<byte>, s: seq<byte>)
    requires SoundReply(slave, f) && s <= f + t && Rtu.DecodeReply(slave, s).0.Payload?
    ensures s == f + Rtu.DecodeReply(slave, s).1
  {
    var g := Rtu.PayloadSound(slave, s);
    SamePrefix(g, f, t, Rtu.DecodeReply(slave, s).1);
    assert 0x83 as byte & 0x80 != 0;
  }

  /** Two data replies with the same length byte at the front of a stream. */
  lemma {:induction false} SamePrefix(g: seq<byte>, f: seq<byte>, t: seq<byte>, rest: seq<byte>)
    requires |f| >= 3 && |g| >= 3 && g + rest <= f + t
    ensures g[1] == f[1] && g[2] == f[2] && (|g| == |f| ==> g == f)
  {
    assert (g + rest)[1] == g[1] && (f + t)[1] == f[1] && (g + rest)[1] == (f + t)[1];
    assert (g + rest)[2] == g[2] && (f + t)[2] == f[2] && (g + rest)[2] == (f + t)[2];
    if |g| == |f| {
      forall i | 0 <= i < |g|
        ensures g[i] == f[i]
      {
        assert (g + rest)[i] == g[i] && (f + t)[i] == f[i] && (g + rest)[i] == (f + t)[i];
      }
      assert g == f;
    }
  }

  /** What has arrived of an exception reply, and of what follows it, is trouble. */
  lemma {:induction false} SoundException(slave: byte, f: seq<byte>, t: seq<byte>, s: seq<byte>)
    requires SoundReply(slave, f) && s <= f + t && Rtu.DecodeReply(slave, s).0.Exception?
    ensures RtuAnswer(Rtu.DecodeReply(slave, s).0) == Trouble
  {
    assert s[1] == (f + t)[1] && (f + t)[1] == f[1];
    assert s[..5] == (f + t)[..5] == f[..5] == f;
    assert f == Rtu.ReadException(slave, f[2], f[3], f[4]);
    assert s == f + s[5..];
    Rtu.NeverIllegalAddress(slave, slave, f[2], f[3], f[4], s[5..]);
  }

  lemma {:induction false} ConcatSplit(ds: seq<seq<byte>>, k: nat)
    requires k < |ds|
    ensures Tcp.Concat(ds) == Tcp.Concat(ds[..k]) + (ds[k] + Tcp.Concat(ds[k + 1..]))
    ensures Tcp.Concat(ds[..k + 1]) == Tcp.Concat(ds[..k]) + ds[k]
  {
    assert ds == ds[..k] + ds[k..] && ds[k..][1..] == ds[k + 1..];
    ConcatAdd(ds[..k], ds[k..]);
    assert ds[..k + 1] == ds[..k] + [ds[k]];
    ConcatAdd(ds[..k], [ds[k]]);
    assert [ds[k]][1..] == [] && Tcp.Concat([ds[k]]) == ds[k];
  }

  /** The bytes that have arrived are the beginning of the next reply and what follows it. */
  lemma {:induction false} NextReply(ds: seq<seq<byte>>, k: nat, seen: nat, w: Wire)
    requires Behind(w, ds, k) && w.at <= seen <= |w.all|
    ensures k == |ds| ==> w.all[w.at..seen] == []
    ensures k < |ds| ==> w.all[w.at..seen] <= ds[k] + Tcp.Concat(ds[k + 1..])
    ensures k < |ds| ==> |Tcp.Concat(ds[..k + 1])| == w.at + |ds[k]|
  {
    if k == |ds| {
      assert ds[..k] == ds;
    } else {
      ConcatSplit(ds, k);
      assert w.all[w.at..] == ds[k] + Tcp.Concat(ds[k + 1..]);
      assert w.all[w.at..seen] == w.all[w.at..][..seen - w.at];
    }
  }

  /** A read of a sound device gets data and consumes one reply, or meets trouble. */
  lemma {:induction false} SoundRead(slave: byte, ds: seq<seq<byte>>, k: nat, seen: nat, answer: Reply,
                                     w: Wire, v: Wire)
    requires Behind(w, ds, k) && RtuExchange(Tcp.Reading, slave, seen, answer, w, v)
    requires k < |ds| ==> SoundReply(slave, ds[k])
    ensures answer == Trouble || (answer.Ok? && k < |ds| && Behind(v, ds, k + 1))
  {
    var s := w.all[w.at..seen];
    NextReply(ds, k, seen, w);
    if k < |ds| {
      var f, t := ds[k], Tcp.Concat(ds[k + 1..]);
      var outcome := Rtu.DecodeReply(slave, s).0;
      if outcome.Payload? {
        SoundPayload(slave, f, t, s);
      } else if outcome.Exception? {
        SoundException(slave, f, t, s);
      }
    }
  }

  /** A confirmed write consumes one reply. */
  lemma {:induction false} SoundWrite(slave: byte, ds: seq<seq<byte>>, k: nat, seen: nat, answer: Reply,
                                      w: Wire, v: Wire)
    requires Behind(w, ds, k) && RtuExchange(Tcp.Writing, slave, seen, answer, w, v) && answer.Ok?
    requires k < |ds| ==> SoundReplyTo(Tcp.Writing, slave, ds[k])
    ensures k < |ds| && Behind(v, ds, k + 1)
  {
    var s := w.all[w.at..seen];
    NextReply(ds, k, seen, w);
    assert s[1] == (ds[k] + Tcp.Concat(ds[k + 1..]))[1] == ds[k][1];
  }

  /** The number of successful dials, and of requests since the last of them. */
  function Dials(log: seq<Op>): nat {
    if log == [] then 0
    else
      var op := log[|log| - 1];
      Dials(log[..|log| - 1]) + if op.Dial? && op.ok then 1 else 0
  }

  function SinceDial(log: seq<Op>): nat {
    if log == [] then 0
    else
      var before, op := log[..|log| - 1], log[|log| - 1];
      if op.Dial? && op.ok then 0 else if IsFrame(op) then SinceDial(before) + 1 else SinceDial(before)
  }

  /** On its n-th connection the device sends the replies `script(n)`, which answer the
      requests on it in order. */
  ghost predicate SoundDevice(slave: byte, log: seq<Op>, wires: seq<Wire>, script: nat -> seq<seq<byte>>)
    requires |wires| == |log| + 1
  {
    && (forall i :: 0 <= i < |log| && log[i].Dial? && log[i].ok ==>
          wires[i + 1].all == Tcp.Concat(script(Dials(log[..i + 1]))))
    && (forall i :: 0 <= i < |log| && IsFrame(log[i]) ==> SoundAt(slave, log, i, script))
  }

  ghost predicate SoundAt(slave: byte, log: seq<Op>, i: nat, script: nat -> seq<seq<byte>>)
    requires i < |log|
  {
    var ds, k := script(Dials(log[..i])), SinceDial(log[..i]);
    k < |ds| ==> SoundReplyTo(KindOf(log[i]), slave, ds[k])
  }

  lemma {:induction false} SoundStep(slave: byte, op: Op, tx: Streams.U16, w: Wire, v: Wire, ds: seq<seq<byte>>,
                                     k: nat)
    requires IsFrame(op) && WireStep(OverRtu(slave), op, tx, w, v) && Behind(w, ds, k)
    requires k < |ds| ==> SoundReplyTo(KindOf(op), slave, ds[k])
    ensures op.ReadFrame? ==> !op.answer.IllegalAddress?
    ensures op.answer.Ok? ==> k < |ds| && Behind(v, ds, k + 1)
  {
    SoundTurn(slave, KindOf(op), tx, op.answer, w, v, ds, k);
  }

  lemma {:induction false} SoundTurn(slave: byte, kind: Tcp.Kind, tx: Streams.U16, answer: Reply, w: Wire, v: Wire,
                                     ds: seq<seq<byte>>, k: nat)
    requires Exchange(OverRtu(slave), kind, tx, answer, w, v) && Behind(w, ds, k)
    requires k < |ds| ==> SoundReplyTo(kind, slave, ds[k])
    ensures kind == Tcp.Reading ==> !answer.IllegalAddress?
    ensures answer.Ok? ==> k < |ds| && Behind(v, ds, k + 1)
  {
    if answer != Trouble {
      var seen: nat :| RtuExchange(kind, slave, seen, answer, w, v);
      if kind == Tcp.Reading {
        SoundRead(slave, ds, k, seen, answer, w, v);
      } else if answer.Ok? {
        SoundWrite(slave, ds, k, seen, answer, w, v);
      }
    }
  }

  lemma {:induction false} SoundlyBehind(slave: byte, log: seq<Op>, ids: seq<Streams.U16>, wires: seq<Wire>,
                                         script: nat -> seq<seq<byte>>, i: nat)
    requires Wired(OverRtu(slave), log, ids, wires) && SoundDevice(slave, log, wires, script)
    requires i <= |log| && Aligned(OverTcp, log[..i])
    ensures Behind(wires[i], script(Dials(log[..i])), SinceDial(log[..i]))
    decreases i
  {
    var op := log[i - 1];
    assert log[..i][..i - 1] == log[..i - 1];
    assert WireStep(OverRtu(slave), op, ids[i - 1], wires[i - 1], wires[i - 1 + 1]);
    if op.Dial? && op.ok {
      assert wires[i - 1 + 1].all == Tcp.Concat(script(Dials(log[..i - 1 + 1])));
      assert script(Dials(log[..i]))[..0] == [];
    } else {
      SoundlyBehind(slave, log, ids, wires, script, i - 1);
      if IsFrame(op) {
        assert SoundAt(slave, log, i - 1, script);
        SoundStep(slave, op, ids[i - 1], wires[i - 1], wires[i], script(Dials(log[..i - 1])), SinceDial(log[..i - 1]));
      }
    }
  }

  /** Over RTU every request to a sound device, read or write, begins exactly behind the
      replies to the requests before it on its connection, and no read is ever taken for one
      of an illegal address. */
  lemma {:induction false} SoundRequests(env: Env, base: int, max: int, now: int, cmds: seq<Command>, slave: byte,
                                         ids: seq<Streams.U16>, wires: seq<Wire>, script: nat -> seq<seq<byte>>,
                                         i: nat)
    requires var log := Run(env, New(base, max, now), cmds).0.log;
      && Wired(OverRtu(slave), log, ids, wires) && SoundDevice(slave, log, wires, script)
      && i < |log| && IsFrame(log[i])
    ensures var log := Run(env, New(base, max, now), cmds).0.log;
      && Behind(wires[i], script(Dials(log[..i])), SinceDial(log[..i]))
      && (log[i].ReadFrame? ==> !log[i].answer.IllegalAddress?)
  {
    RunOrderly(env, New(base, max, now), cmds);
    var log := Run(env, New(base, max, now), cmds).0.log;
    SoundlyBehind(slave, log, ids, wires, script, i);
    assert SoundAt(slave, log, i, script) && WireStep(OverRtu(slave), log[i], ids[i], wires[i], wires[i + 1]);
    SoundStep(slave, log[i], ids[i], wires[i], wires[i + 1], script(Dials(log[..i])), SinceDial(log[..i]));
  }

  /** An exception reply whose CRC is wrong may slip through: it is taken for an illegal
      address exactly if the low byte of its CRC is 2 and something follows. The connection
      is then kept one byte into what follows. */
  lemma {:induction false} SlipsExactly(slave: byte, code: byte, lo: byte, hi: byte, tail: seq<byte>, seen: nat,
                                        answer: Reply, w: Wire, v: Wire)
    requires RtuExchange(Tcp.Reading, slave, seen, answer, w, v)
    requires w.all[w.at..seen] == Rtu.ReadException(slave, code, lo, hi) + tail
    ensures answer == IllegalAddress <==> lo == 2 && tail != []
    ensures answer == IllegalAddress ==> v.at == w.at + 5 + 1
    ensures Rtu.Sealed(Rtu.ReadException(slave, code, lo, hi)) ==> answer == Trouble
  {
    Rtu.ExceptionMisread(slave, 0x83, code, lo, hi, tail);
    if Rtu.Sealed(Rtu.ReadException(slave, code, lo, hi)) {
      Rtu.NeverIllegalAddress(slave, slave, code, lo, hi, tail);
    }
  }
}
