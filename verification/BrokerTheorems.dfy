/** What the broker keeps over any sequence of commands, and what one read, write or
    batch does whatever the outside world answers. */
module BrokerTheorems {
  import opened Registers
  import opened Backoffs
  import opened BrokerModel

  // ---- reading the log ----

  /** The address of the last reconfiguration. */
  function Target(log: seq<Op>): string {
    if log == [] then ""
    else if log[|log| - 1].Configured? then log[|log| - 1].to
    else Target(log[..|log| - 1])
  }

  /** Delays drawn since the last successful dial or reconfiguration. */
  function Waits(log: seq<Op>): nat {
    if log == [] then 0
    else
      match log[|log| - 1]
      case Wait(_, _, _) => Waits(log[..|log| - 1]) + 1
      case Configured(_) => 0
      case Dial(_, _, ok) => if ok then 0 else Waits(log[..|log| - 1])
      case _ => Waits(log[..|log| - 1])
  }

  /** When the last read attempt finished. */
  function LastFinish(log: seq<Op>): Option<int> {
    if log == [] then None
    else if log[|log| - 1].ReadFrame? then Some(log[|log| - 1].finish)
    else LastFinish(log[..|log| - 1])
  }

  /** The gap set last, 500 by default. */
  function Gap(log: seq<Op>): int {
    if log == [] then 500
    else if log[|log| - 1].GapSet? then log[|log| - 1].gap
    else Gap(log[..|log| - 1])
  }

  /** Whether the last of all disconnects and reconfigurations was a disconnect; before the
      first one the broker is dormant, too. */
  function Asleep(log: seq<Op>): bool {
    if log == [] then true
    else
      match log[|log| - 1]
      case Configured(_) => false
      case Dropped(_) => true
      case _ => Asleep(log[..|log| - 1])
  }

  /** The state to be reported after everything done so far. */
  function StateAfter(log: seq<Op>): ConnState {
    if log == [] then Dormant
    else
      match log[|log| - 1]
      case Dial(_, _, ok) => if ok then Connected else Disconnected
      case Wait(_, _, cut) => if cut then Disconnected else Reconnecting
      case Configured(_) => Connecting
      case GapSet(_) => StateAfter(log[..|log| - 1])
      case Dropped(_) => Disconnected
      case Stopped => Disconnected
      case ReadFrame(_, _, _, _, answer) => if answer == Trouble then Reconnecting else Connected
      case WriteFrame(_, answer) => if answer.Ok? then Connected else Reconnecting
  }

  /** The last operation is a wait that the context did not cut short. */
  predicate Waiting(log: seq<Op>) {
    log != [] && log[|log| - 1].Wait? && !log[|log| - 1].cut
  }

  /** If so, it is over by then, and not longer. */
  predicate Rested(log: seq<Op>, now: int) {
    Waiting(log) ==> now == log[|log| - 1].start + Positive(log[|log| - 1].delay)
  }

  /** What is right about an operation, given everything done before it: dials and
      frames go to the configured address, behind a wait comes a dial when the wait is over,
      delays double up to the cap, and a read attempt keeps the gap set last to the one
      before. */
  ghost predicate OpOk(before: seq<Op>, op: Op, base: int, max: int) {
    && (Waiting(before) ==> op.Dial?)
    && match op
       case Dial(to, start, _) => to == Target(before) && Rested(before, start)
       case Wait(d, _, _) => d == Capped(base, max, Waits(before))
       case ReadFrame(to, start, finish, gap, _) =>
         && to == Target(before) && start <= finish && gap == Gap(before)
         && (LastFinish(before).Some? ==> start >= LastFinish(before).value + gap)
       case WriteFrame(to, _) => to == Target(before)
       case _ => true
  }

  ghost predicate LogOk(log: seq<Op>, base: int, max: int) {
    forall i :: 0 <= i < |log| ==> OpOk(log[..i], log[i], base, max)
  }

  lemma {:induction false} LogOkSnoc(log: seq<Op>, op: Op, base: int, max: int)
    requires LogOk(log, base, max) && OpOk(log, op, base, max)
    ensures LogOk(log + [op], base, max)
  {
    var more := log + [op];
    forall i | 0 <= i < |more|
      ensures OpOk(more[..i], more[i], base, max)
    {
      assert more[..i] == log[..i];
      if i == |log| {
        assert log[..i] == log;
      }
    }
  }

  // ---- the invariant ----

  /** Connected means holding a connection, to the current address; dormant means
      holding none. */
  ghost predicate Coherent(b: Fields) {
    && (b.state == Connected <==> b.conn.Some?)
    && (b.dormant ==> b.conn == None)
    && (b.conn.Some? ==> b.conn.value == b.addr)
  }

  /** The fields agree with the log, for a backoff with this base and cap. */
  ghost predicate Faithful(b: Fields, base: int, max: int) {
    && 0 < base <= max
    && LogOk(b.log, base, max)
    && b.addr == Target(b.log) && b.gap == Gap(b.log) && b.dormant == Asleep(b.log)
    && b.backoff == Delays(base, max, Capped(base, max, Waits(b.log)))
    && (LastFinish(b.log).Some? ==> b.lastRead == LastFinish(b.log))
  }

  /** What holds between commands. */
  ghost predicate Good(b: Fields, base: int, max: int) {
    Coherent(b) && Faithful(b, base, max) && b.state == StateAfter(b.log) && !Waiting(b.log)
  }

  lemma {:induction false} NewGood(base: int, max: int, now: int)
    requires 0 < base <= max
    ensures Good(New(base, max, now), base, max)
  {
    assert Pow2(0) == 1;
  }

  /** Appending one operation that is right keeps the log right; the readings of the
      log change as the definitions say. */
  lemma {:induction false} Append(b: Fields, op: Op, base: int, max: int)
    requires Faithful(b, base, max) && OpOk(b.log, op, base, max)
    ensures var log := b.log + [op];
      && LogOk(log, base, max)
      && Target(log) == (if op.Configured? then op.to else b.addr)
      && Gap(log) == (if op.GapSet? then op.gap else b.gap)
      && Asleep(log) == (if op.Configured? then false else op.Dropped? || b.dormant)
      && LastFinish(log) == (if op.ReadFrame? then Some(op.finish) else LastFinish(b.log))
      && Waits(log) == (match op
                        case Wait(_, _, _) => Waits(b.log) + 1
                        case Configured(_) => 0
                        case Dial(_, _, ok) => if ok then 0 else Waits(b.log)
                        case _ => Waits(b.log))
  {
    LogOkSnoc(b.log, op, base, max);
    assert (b.log + [op])[..|b.log|] == b.log;
  }

  lemma {:induction false} DialOnceFaithful(env: Env, b: Fields, base: int, max: int)
    requires Faithful(b, base, max) && Rested(b.log, b.now)
    ensures var d := DialOnce(env, b);
      && (!env.dials(b.tick) ==> Faithful(d, base, max))
      && (env.dials(b.tick) ==> Faithful(Attach(d), base, max))
  {
    Append(b, Dial(b.addr, b.now, env.dials(b.tick)), base, max);
    assert Pow2(0) == 1;
  }

  lemma {:induction false} BackOffFaithful(env: Env, b: Fields, base: int, max: int)
    requires Faithful(b, base, max) && !Waiting(b.log)
    ensures Faithful(BackOff(env, b), base, max) && Rested(BackOff(env, b).log, BackOff(env, b).now)
  {
    Append(b, Wait(b.backoff.current, b.now, env.Cancelled(b.tick)), base, max);
    DoublingCapped(base, max, Waits(b.log));
  }

  lemma {:induction false} DialLoopGood(env: Env, b: Fields, base: int, max: int)
    requires Faithful(b, base, max) && Rested(b.log, b.now) && b.conn == None && !b.dormant && b.state != Connected
    ensures Good(DialLoop(env, b).0, base, max)
    decreases env.lifetime - b.tick
  {
    DialOnceFaithful(env, b, base, max);
    var b1 := DialOnce(env, b);
    if !env.dials(b.tick) {
      BackOffFaithful(env, b1, base, max);
      if !env.Cancelled(b1.tick) {
        DialLoopGood(env, BackOff(env, b1), base, max);
      }
    }
  }

  lemma {:induction false} EnsureGood(env: Env, b: Fields, base: int, max: int)
    requires Good(b, base, max)
    ensures Good(EnsureConnected(env, b).0, base, max)
  {
    if b.conn == None && !b.dormant {
      DialLoopGood(env, b.SetState(Connecting), base, max);
    }
  }

  /** The connection after a read attempt: kept unless there was trouble. */
  function AfterRead(env: Env, b: Fields): Fields
    requires b.conn.Some?
  {
    var c := SendRead(env, b.EnforceGap());
    if env.reply(b.tick) == Trouble then c.HandleError() else c
  }

  lemma {:induction false} SendReadGood(env: Env, b: Fields, base: int, max: int)
    requires Good(b, base, max) && b.conn.Some?
    ensures Good(AfterRead(env, b), base, max)
  {
    var w := b.EnforceGap();
    assert Good(w, base, max) && (LastFinish(w.log).Some? ==> w.now >= LastFinish(w.log).value + w.gap);
    SendGappedGood(env, w, base, max);
  }

  lemma {:induction false} SendGappedGood(env: Env, w: Fields, base: int, max: int)
    requires Good(w, base, max) && w.conn.Some?
    requires LastFinish(w.log).Some? ==> w.now >= LastFinish(w.log).value + w.gap
    ensures var c := SendRead(env, w); Good(if env.reply(w.tick) == Trouble then c.HandleError() else c, base, max)
  {
    var d, op := SendRead(env, w), ReadFrame(w.conn.value, w.now, w.now + env.took(w.tick), w.gap, env.reply(w.tick));
    assert d == w.(log := w.log + [op], now := op.finish, lastRead := Some(op.finish), tick := w.tick + 1,
                   aborting := d.aborting);
    assert OpOk(w.log, op, base, max);
    Append(w, op, base, max);
    assert Faithful(d, base, max);
  }

  lemma {:induction false} SendWriteGood(env: Env, b: Fields, base: int, max: int)
    requires Good(b, base, max) && b.conn.Some?
    ensures var c := SendWrite(env, b); Good(if env.reply(b.tick).Ok? then c else c.HandleError(), base, max)
  {
    Append(b, WriteFrame(b.conn.value, env.reply(b.tick)), base, max);
  }

  /** Whether another attempt follows this one. */
  ghost predicate ReadRetries(env: Env, b: Fields, attempt: nat) {
    var (b1, problem) := EnsureConnected(env, b);
    && problem == None && env.reply(b1.tick) == Trouble && attempt < 3
    && !SendRead(env, b1.EnforceGap()).aborting
  }

  lemma {:induction false} AttemptGood(env: Env, b: Fields, base: int, max: int)
    requires Good(b, base, max) && EnsureConnected(env, b).1 == None
    ensures Good(AfterRead(env, EnsureConnected(env, b).0), base, max)
  {
    EnsureGood(env, b, base, max);
    SendReadGood(env, EnsureConnected(env, b).0, base, max);
  }

  lemma {:induction false} RetryGood(env: Env, b: Fields, attempt: nat, base: int, max: int) returns (b3: Fields)
    requires Good(b, base, max) && ReadRetries(env, b, attempt)
    ensures attempt < 3 && ReadAttempts(env, b, attempt) == ReadAttempts(env, b3, attempt + 1)
    ensures Good(b3, base, max)
  {
    AttemptGood(env, b, base, max);
    b3 := AfterRead(env, EnsureConnected(env, b).0);
  }

  lemma {:induction false} LastReadGood(env: Env, b: Fields, attempt: nat, base: int, max: int)
    requires Good(b, base, max) && attempt <= 3 && !ReadRetries(env, b, attempt)
    ensures Good(ReadAttempts(env, b, attempt).0, base, max)
  {
    if EnsureConnected(env, b).1 == None {
      AttemptGood(env, b, base, max);
    } else {
      EnsureGood(env, b, base, max);
    }
  }

  lemma {:induction false} ReadGood(env: Env, b: Fields, attempt: nat, base: int, max: int)
    requires Good(b, base, max) && attempt <= 3
    ensures Good(ReadAttempts(env, b, attempt).0, base, max)
    decreases 3 - attempt
  {
    if ReadRetries(env, b, attempt) {
      var b3 := RetryGood(env, b, attempt, base, max);
      ReadGood(env, b3, attempt + 1, base, max);
    } else {
      LastReadGood(env, b, attempt, base, max);
    }
  }

  lemma {:induction false} WriteGood(env: Env, b: Fields, attempt: nat, base: int, max: int)
    requires Good(b, base, max) && attempt <= 2
    ensures Good(WriteAttempts(env, b, attempt).0, base, max)
    decreases 2 - attempt
  {
    EnsureGood(env, b, base, max);
    var (b1, problem) := EnsureConnected(env, b);
    if problem == None {
      SendWriteGood(env, b1, base, max);
      if !env.reply(b1.tick).Ok? && attempt < 2 {
        WriteGood(env, SendWrite(env, b1).HandleError(), attempt + 1, base, max);
      }
    }
  }

  lemma {:induction false} BatchGood(env: Env, b: Fields, n: nat, done: seq<Result>, base: int, max: int)
    requires Good(b, base, max)
    ensures Good(BatchFrom(env, b, n, done).0, base, max)
    decreases n
  {
    if n > 0 && !env.Cancelled(b.tick) {
      var b0 := Idle(env, b);
      ReadGood(env, b0, 1, base, max);
      var (b1, r) := ExecuteRead(env, b0);
      BatchGood(env, b1, n - 1, done + [r], base, max);
    }
  }

  lemma {:induction false} ReconfigureGood(env: Env, b: Fields, addr: string, base: int, max: int)
    requires Good(b, base, max)
    ensures Good(ExecuteReconfigure(env, b, addr).0, base, max)
  {
    Append(b, Configured(addr), base, max);
    assert Pow2(0) == 1;
    var a := Adopt(b, addr).SetState(Connecting);
    assert Faithful(a, base, max) && !Waiting(a.log);
    DialOnceFaithful(env, a, base, max);
  }

  lemma {:induction false} DisconnectGood(b: Fields, base: int, max: int)
    requires Good(b, base, max)
    ensures Good(ExecuteDisconnect(b), base, max)
  {
    Append(b, Dropped(b.tick), base, max);
  }

  lemma {:induction false} ExecuteGood(env: Env, b: Fields, cmd: Command, base: int, max: int)
    requires Good(b, base, max)
    ensures Good(Execute(env, b, cmd).0, base, max)
  {
    match cmd
    case Read => ReadGood(env, b, 1, base, max);
    case Write => WriteGood(env, b, 1, base, max);
    case ReadBatch(n) => BatchGood(env, b, n, [], base, max);
    case Reconfigure(addr) => ReconfigureGood(env, b, addr, base, max);
    case Disconnect => DisconnectGood(b, base, max);
    case SetDelay(gap) => Append(b, GapSet(gap), base, max);
    case Stop => Append(b, Stopped, base, max);
  }

  lemma {:induction false} IdleGood(env: Env, b: Fields, base: int, max: int)
    requires Good(b, base, max)
    ensures Good(Idle(env, b), base, max)
  {
  }

  /** In every run from a new broker, after every command: the state is the one that what was
      done last calls for, and Connected exactly when a connection is held; a dormant broker
      holds none, and it is dormant exactly from a disconnect to a reconfiguration; every
      dial and frame so far went to the configured address; dials waited for the delays
      drawn, and not longer; reads kept the gap set last; and reconnect delays doubled up to
      the cap. */
  lemma {:induction false} RunGood(env: Env, b: Fields, cmds: seq<Command>, base: int, max: int)
    requires Good(b, base, max)
    ensures Good(Run(env, b, cmds).0, base, max)
    decreases |cmds|
  {
    if cmds != [] {
      IdleGood(env, b, base, max);
      ExecuteGood(env, Idle(env, b), cmds[0], base, max);
      RunGood(env, Execute(env, Idle(env, b), cmds[0]).0, cmds[1..], base, max);
    }
  }

  /** Spelled out for two consecutive read attempts of a run, retries included. */
  lemma {:induction false} ReadsSpaced(env: Env, base: int, max: int, now: int, cmds: seq<Command>, i: nat, j: nat)
    requires 0 < base <= max
    requires var log := Run(env, New(base, max, now), cmds).0.log;
      i < j < |log| && log[i].ReadFrame? && log[j].ReadFrame? && forall k :: i < k < j ==> !log[k].ReadFrame?
    ensures var log := Run(env, New(base, max, now), cmds).0.log;
      log[j].start >= log[i].finish + log[j].gap
  {
    NewGood(base, max, now);
    RunGood(env, New(base, max, now), cmds, base, max);
    var log := Run(env, New(base, max, now), cmds).0.log;
    LastFinishIs(log, i, j);
    assert OpOk(log[..j], log[j], base, max);
  }

  /** An uncut wait of a run is followed by a dial when it is over, and not later. */
  lemma {:induction false} DialsWait(env: Env, base: int, max: int, now: int, cmds: seq<Command>, i: nat)
    requires 0 < base <= max
    requires var log := Run(env, New(base, max, now), cmds).0.log; i < |log| && log[i].Wait? && !log[i].cut
    ensures var log := Run(env, New(base, max, now), cmds).0.log;
      && i + 1 < |log| && log[i + 1].Dial?
      && log[i + 1].start == log[i].start + Positive(log[i].delay)
  {
    NewGood(base, max, now);
    RunGood(env, New(base, max, now), cmds, base, max);
    var log := Run(env, New(base, max, now), cmds).0.log;
    assert !Waiting(log);
    assert log[..i + 1][|log[..i + 1]| - 1] == log[i];
    assert OpOk(log[..i + 1], log[i + 1], base, max);
  }

  /** A read waits for the gap since the one before, and no longer than needed. */
  lemma {:induction false} WaitsLeast(b: Fields, t: int)
    requires t >= b.now && (b.lastRead.Some? ==> t >= b.lastRead.value + b.gap)
    ensures b.EnforceGap().now <= t
    ensures b.EnforceGap().now >= b.now && (b.lastRead.Some? ==> b.EnforceGap().now >= b.lastRead.value + b.gap)
  {
  }

  lemma {:induction false} LastFinishIs(log: seq<Op>, i: nat, j: nat)
    requires i < j <= |log| && log[i].ReadFrame? && forall k :: i < k < j ==> !log[k].ReadFrame?
    ensures LastFinish(log[..j]) == Some(log[i].finish)
    decreases j
  {
    assert log[..j][..j - 1] == log[..j - 1];
    if i < j - 1 {
      LastFinishIs(log, i, j - 1);
    }
  }

  // ---- silence after a disconnect ----

  /** What a dormant broker answers to a command other than a reconfiguration. */
  ghost predicate Refusal(cmd: Command, rs: seq<Result>) {
    match cmd
    case Read => rs == [NotDone(IsDormant)]
    case Write => rs == [NotDone(IsDormant)]
    case ReadBatch(n) => |rs| == n && forall i :: 0 <= i < n ==> rs[i].NotDone?
    case _ => true
  }

  ghost predicate Silent(b: Fields) {
    b.dormant && b.conn == None
  }

  /** Nothing was dialled, sent or waited for in between. */
  ghost predicate Hushed(before: seq<Op>, after: seq<Op>) {
    && before <= after
    && forall k :: |before| <= k < |after| ==> after[k].GapSet? || after[k].Dropped? || after[k].Stopped?
  }

  lemma {:induction false} BatchSilent(env: Env, b: Fields, n: nat, done: seq<Result>)
    requires Silent(b) && forall i :: 0 <= i < |done| ==> done[i].NotDone?
    ensures var (b1, rs) := BatchFrom(env, b, n, done);
      && Silent(b1) && b1.log == b.log
      && |rs| == |done| + n && forall i :: 0 <= i < |rs| ==> rs[i].NotDone?
    decreases n
  {
    if n > 0 && !env.Cancelled(b.tick) {
      var (b1, r) := ExecuteRead(env, Idle(env, b));
      BatchSilent(env, b1, n - 1, done + [r]);
    }
  }

  lemma {:induction false} SilentStep(env: Env, b: Fields, cmd: Command)
    requires Silent(b) && !cmd.Reconfigure?
    ensures var (b1, rs) := Execute(env, b, cmd); Silent(b1) && Hushed(b.log, b1.log) && Refusal(cmd, rs)
  {
    match cmd
    case ReadBatch(n) => BatchSilent(env, b, n, []);
    case _ =>
  }

  /** The broker when it takes the i-th command of a run. */
  function Before(env: Env, b: Fields, cmds: seq<Command>, i: nat): Fields
    requires i <= |cmds|
    decreases i
  {
    if i == 0 then Idle(env, b) else Before(env, Execute(env, Idle(env, b), cmds[0]).0, cmds[1..], i - 1)
  }

  /** After a disconnect, and until a reconfiguration, nothing is dialled or sent
      and every read and write is refused, whatever the outside world does. */
  lemma {:induction false} SilentUntilReconfigured(env: Env, b: Fields, cmds: seq<Command>, i: nat)
    requires Silent(b) && i < |cmds| && forall k :: 0 <= k <= i ==> !cmds[k].Reconfigure?
    ensures var bi := Before(env, b, cmds, i);
      && Silent(bi) && Hushed(b.log, bi.log)
      && Hushed(b.log, Execute(env, bi, cmds[i]).0.log) && Refusal(cmds[i], Execute(env, bi, cmds[i]).1)
    decreases i
  {
    SilentStep(env, Idle(env, b), cmds[0]);
    if i > 0 {
      assert forall k :: 0 <= k <= i - 1 ==> cmds[1..][k] == cmds[k + 1];
      SilentUntilReconfigured(env, Execute(env, Idle(env, b), cmds[0]).0, cmds[1..], i - 1);
    }
  }

  lemma {:induction false} DisconnectSilences(env: Env, b: Fields, cmds: seq<Command>, i: nat)
    requires i < |cmds| && forall k :: 0 <= k <= i ==> !cmds[k].Reconfigure?
    ensures var d := Execute(env, b, Disconnect).0;
      var bi := Before(env, d, cmds, i);
      Hushed(b.log, Execute(env, bi, cmds[i]).0.log) && Refusal(cmds[i], Execute(env, bi, cmds[i]).1)
  {
    SilentUntilReconfigured(env, Execute(env, b, Disconnect).0, cmds, i);
  }

  /** A stop leaves the broker disconnected, and nothing after it is executed. */
  lemma {:induction false} StopIsFinal(env: Env, b: Fields, cmds: seq<Command>, later: seq<Command>)
    ensures Run(env, b, cmds + [Stop] + later) == Run(env, b, cmds + [Stop])
    ensures var d := Run(env, b, cmds + [Stop]).0; d.conn == None && d.state == Disconnected
    decreases |cmds|
  {
    if cmds == [] {
      assert ([Stop] + later)[0] == Stop && cmds + [Stop] == [Stop];
      assert cmds + [Stop] + later == [Stop] + later;
    } else {
      assert (cmds + [Stop])[1..] == cmds[1..] + [Stop];
      assert (cmds + [Stop] + later)[1..] == cmds[1..] + [Stop] + later;
      StopIsFinal(env, Execute(env, Idle(env, b), cmds[0]).0, cmds[1..], later);
    }
  }

  // ---- retries ----

  /** The answers to the read requests of a log, and to its write requests. */
  function ReadAnswers(log: seq<Op>): seq<Reply> {
    if log == [] then []
    else
      ReadAnswers(log[..|log| - 1]) + if log[|log| - 1].ReadFrame? then [log[|log| - 1].answer] else []
  }

  function WriteAnswers(log: seq<Op>): seq<Reply> {
    if log == [] then []
    else
      WriteAnswers(log[..|log| - 1]) + if log[|log| - 1].WriteFrame? then [log[|log| - 1].answer] else []
  }

  /** How many outside events there were before the last disconnect. */
  function LastDrop(log: seq<Op>): nat {
    if log == [] then 0
    else if log[|log| - 1].Dropped? then log[|log| - 1].tick
    else LastDrop(log[..|log| - 1])
  }

  lemma {:induction false} AnswersSnoc(log: seq<Op>, op: Op)
    ensures LastDrop(log + [op]) == if op.Dropped? then op.tick else LastDrop(log)
    ensures ReadAnswers(log + [op]) == ReadAnswers(log) + if op.ReadFrame? then [op.answer] else []
    ensures WriteAnswers(log + [op]) == WriteAnswers(log) + if op.WriteFrame? then [op.answer] else []
  {
    assert (log + [op])[..|log|] == log;
  }

  /** Between b and d nobody disconnected, and the abort flag was raised exactly if some event
      came with an abort. */
  ghost predicate Heeds(env: Env, b: Fields, d: Fields) {
    && b.tick <= d.tick && LastDrop(d.log) == LastDrop(b.log)
    && (d.aborting <==> b.aborting || exists t :: b.tick <= t < d.tick && env.aborts(t))
  }

  lemma {:induction false} HeedsEvent(env: Env, b: Fields, c: Fields, spent: nat)
    requires b.tick == c.tick && b.aborting == c.aborting && LastDrop(c.log) == LastDrop(b.log)
    ensures Heeds(env, b, Event(env, c, spent))
  {
  }

  lemma {:induction false} HeedsMore(env: Env, b: Fields, c: Fields, d: Fields)
    requires Heeds(env, b, c) && Heeds(env, c, d)
    ensures Heeds(env, b, d)
  {
  }

  /** No request was sent in between, and nobody disconnected. */
  ghost predicate Quiet(env: Env, b: Fields, d: Fields) {
    && ReadAnswers(d.log) == ReadAnswers(b.log) && WriteAnswers(d.log) == WriteAnswers(b.log)
    && d.dormant == b.dormant && Heeds(env, b, d)
  }

  lemma {:induction false} DialQuiet(env: Env, b: Fields)
    ensures Quiet(env, b, DialOnce(env, b)) && Quiet(env, b, BackOff(env, b))
  {
    var dial, wait := Dial(b.addr, b.now, env.dials(b.tick)), Wait(b.backoff.current, b.now, env.Cancelled(b.tick));
    AnswersSnoc(b.log, dial);
    AnswersSnoc(b.log, wait);
    HeedsEvent(env, b, b.Record(dial), env.took(b.tick));
    HeedsEvent(env, b, b.Record(wait).(state := Reconnecting, backoff := b.backoff.Next()),
               Waited(env, b.tick, b.backoff.current));
  }

  lemma {:induction false} DialLoopSendsNothing(env: Env, b: Fields)
    ensures Quiet(env, b, DialLoop(env, b).0)
    decreases env.lifetime - b.tick
  {
    DialQuiet(env, b);
    var b1 := DialOnce(env, b);
    if !env.dials(b.tick) {
      DialQuiet(env, b1);
      var b2 := BackOff(env, b1);
      HeedsMore(env, b, b1, b2);
      if !env.Cancelled(b1.tick) {
        DialLoopSendsNothing(env, b2);
        HeedsMore(env, b, b2, DialLoop(env, b2).0);
      }
    }
  }

  lemma {:induction false} EnsureSendsNothing(env: Env, b: Fields)
    ensures Quiet(env, b, EnsureConnected(env, b).0)
  {
    if b.conn == None && !b.dormant {
      DialLoopSendsNothing(env, b.SetState(Connecting));
    }
  }

  lemma {:induction false} EnsureProblem(env: Env, b: Fields)
    ensures EnsureConnected(env, b).1.Some? ==>
            EnsureConnected(env, b).1.value == ContextDone || EnsureConnected(env, b).1.value == IsDormant
  {
    if b.conn == None && !b.dormant {
      DialLoopProblem(env, b.SetState(Connecting));
    }
  }

  lemma {:induction false} DialLoopProblem(env: Env, b: Fields)
    ensures DialLoop(env, b).1.Some? ==> DialLoop(env, b).1.value == ContextDone
    decreases env.lifetime - b.tick
  {
    var b1 := DialOnce(env, b);
    if !env.dials(b.tick) && !env.Cancelled(b1.tick) {
      DialLoopProblem(env, BackOff(env, b1));
    }
  }

  /** These read requests were sent in between, and no write request. */
  ghost predicate ReadsSent(b: Fields, d: Fields, answers: seq<Reply>) {
    ReadAnswers(d.log) == ReadAnswers(b.log) + answers && WriteAnswers(d.log) == WriteAnswers(b.log)
  }

  ghost predicate WritesSent(b: Fields, d: Fields, answers: seq<Reply>) {
    WriteAnswers(d.log) == WriteAnswers(b.log) + answers && ReadAnswers(d.log) == ReadAnswers(b.log)
  }

  ghost predicate NoConnection(r: Result) {
    r == NotDone(ContextDone) || r == NotDone(IsDormant)
  }

  /** What a read makes of the answers: all but the last are troubles; a success is
      returned, an illegal address too, keeping the connection; otherwise it gave up
      because of an abort, because all attempts were used, or for lack of a
      connection. */
  ghost predicate ReadVerdict(answers: seq<Reply>, most: nat, d: Fields, r: Result) {
    && |answers| <= most
    && (forall i :: 0 <= i < |answers| - 1 ==> answers[i] == Trouble)
    && (answers == [] ==> NoConnection(r))
    && (answers != [] ==>
          match answers[|answers| - 1]
          case Ok(data) => r == Done(data)
          case IllegalAddress => r == NotDone(Refused(IllegalAddress)) && d.conn.Some?
          case Trouble =>
            || (r == NotDone(Refused(Trouble)) && (d.aborting || |answers| == most))
            || (NoConnection(r) && |answers| < most))
  }

  lemma {:induction false} ReadVerdictCons(answers: seq<Reply>, most: nat, d: Fields, r: Result)
    requires ReadVerdict(answers, most, d, r) && most >= 1
    ensures ReadVerdict([Trouble] + answers, most + 1, d, r)
  {
    var all := [Trouble] + answers;
    assert answers != [] ==> all[|all| - 1] == answers[|answers| - 1];
    forall i | 0 <= i < |all| - 1
      ensures all[i] == Trouble
    {
      if i > 0 {
        assert all[i] == answers[i - 1];
      }
    }
  }

  lemma {:induction false} SendReadSends(env: Env, b: Fields)
    requires b.conn.Some?
    ensures ReadsSent(b, SendRead(env, b.EnforceGap()), [env.reply(b.tick)])
  {
    var w := b.EnforceGap();
    AnswersSnoc(b.log, ReadFrame(w.conn.value, w.now, w.now + env.took(w.tick), w.gap, env.reply(w.tick)));
  }

  lemma {:induction false} SendWriteSends(env: Env, b: Fields)
    requires b.conn.Some?
    ensures WritesSent(b, SendWrite(env, b), [env.reply(b.tick)]) && Heeds(env, b, SendWrite(env, b))
  {
    HeedsEvent(env, b, b.Record(WriteFrame(b.conn.value, env.reply(b.tick))), env.took(b.tick));
    AnswersSnoc(b.log, WriteFrame(b.conn.value, env.reply(b.tick)));
  }

  lemma {:induction false} ReadsSentAdd(b: Fields, c: Fields, d: Fields, x: seq<Reply>, y: seq<Reply>)
    requires ReadsSent(b, c, x) && ReadsSent(c, d, y)
    ensures ReadsSent(b, d, x + y)
  {
  }

  lemma {:induction false} WritesSentAdd(b: Fields, c: Fields, d: Fields, x: seq<Reply>, y: seq<Reply>)
    requires WritesSent(b, c, x) && WritesSent(c, d, y)
    ensures WritesSent(b, d, x + y)
  {
  }

  lemma {:induction false} FirstRead(env: Env, b: Fields)
    requires EnsureConnected(env, b).1 == None
    ensures var b1 := EnsureConnected(env, b).0;
      var b2 := SendRead(env, b1.EnforceGap());
      && ReadsSent(b, b2, [env.reply(b1.tick)]) && b2.conn.Some?
      && b.tick <= b1.tick && b2.tick == b1.tick + 1 && Heeds(env, b, b2)
  {
    EnsureSendsNothing(env, b);
    var b1 := EnsureConnected(env, b).0;
    SendReadSends(env, b1);
    var w := b1.EnforceGap();
    HeedsEvent(env, b1, w.Record(ReadFrame(w.conn.value, w.now, w.now + env.took(w.tick), w.gap, env.reply(w.tick))),
               env.took(w.tick));
    HeedsMore(env, b, b1, SendRead(env, w));
  }

  /** When the requests were sent: later and later, each answer being that moment's, and
      none after a moment by which the abort flag was up. */
  ghost predicate SentAt(env: Env, b: Fields, d: Fields, answers: seq<Reply>, ticks: seq<nat>) {
    && |ticks| == |answers|
    && (forall i :: 0 <= i < |ticks| ==> b.tick <= ticks[i] < d.tick && answers[i] == env.reply(ticks[i]))
    && (forall i, j :: 0 <= i < j < |ticks| ==> ticks[i] < ticks[j])
    && (forall i :: 0 <= i < |ticks| - 1 ==>
          !b.aborting && forall t :: b.tick <= t <= ticks[i] ==> !env.aborts(t))
  }

  lemma {:induction false} SentAtCons(env: Env, b: Fields, c: Fields, d: Fields,
                                      answers: seq<Reply>, ticks: seq<nat>)
    requires SentAt(env, c, d, answers, ticks) && Heeds(env, b, c) && Heeds(env, c, d)
    requires !c.aborting && b.tick < c.tick
    ensures SentAt(env, b, d, [env.reply(c.tick - 1)] + answers, [c.tick - 1] + ticks)
  {
  }

  /** A read that began in b and ended in d with r sent these requests, at most so many. */
  ghost predicate KeepsContract(env: Env, b: Fields, d: Fields, r: Result, most: nat,
                                answers: seq<Reply>, ticks: seq<nat>)
  {
    && ReadsSent(b, d, answers) && ReadVerdict(answers, most, d, r)
    && SentAt(env, b, d, answers, ticks) && Heeds(env, b, d)
  }

  /** The `attempt`-th and later attempts of a read do so. */
  ghost predicate AttemptsKeep(env: Env, b: Fields, attempt: nat, answers: seq<Reply>, ticks: seq<nat>)
    requires attempt <= 3
  {
    var (d, r) := ReadAttempts(env, b, attempt);
    KeepsContract(env, b, d, r, 4 - attempt, answers, ticks)
  }

  /** One request was sent in between, in vain, and no abort came. */
  ghost predicate FailedOnce(env: Env, b: Fields, c: Fields) {
    && ReadsSent(b, c, [Trouble]) && Heeds(env, b, c) && !c.aborting
    && b.tick < c.tick && env.reply(c.tick - 1) == Trouble
  }

  lemma {:induction false} ContractCons(env: Env, b: Fields, c: Fields, d: Fields, r: Result, most: nat,
                                        answers: seq<Reply>, ticks: seq<nat>)
    requires KeepsContract(env, c, d, r, most, answers, ticks) && most >= 1 && FailedOnce(env, b, c)
    ensures KeepsContract(env, b, d, r, most + 1, [Trouble] + answers, [c.tick - 1] + ticks)
  {
    ReadsSentAdd(b, c, d, [Trouble], answers);
    ReadVerdictCons(answers, most, d, r);
    SentAtCons(env, b, c, d, answers, ticks);
    HeedsMore(env, b, c, d);
  }

  lemma {:induction false} LastAttempt(env: Env, b: Fields, attempt: nat)
      returns (answers: seq<Reply>, ticks: seq<nat>)
    requires attempt <= 3 && !ReadRetries(env, b, attempt)
    ensures AttemptsKeep(env, b, attempt, answers, ticks)
  {
    var (b1, problem) := EnsureConnected(env, b);
    if problem == None {
      FirstRead(env, b);
      answers, ticks := [env.reply(b1.tick)], [b1.tick];
    } else {
      Unconnected(env, b, attempt);
      answers, ticks := [], [];
    }
  }

  lemma {:induction false} Unconnected(env: Env, b: Fields, attempt: nat)
    requires attempt <= 3 && EnsureConnected(env, b).1.Some?
    ensures AttemptsKeep(env, b, attempt, [], [])
  {
    EnsureSendsNothing(env, b);
    EnsureProblem(env, b);
  }

  lemma {:induction false} RetryIs(env: Env, b: Fields, attempt: nat) returns (b3: Fields)
    requires ReadRetries(env, b, attempt)
    ensures attempt < 3 && ReadAttempts(env, b, attempt) == ReadAttempts(env, b3, attempt + 1)
    ensures FailedOnce(env, b, b3)
  {
    FirstRead(env, b);
    b3 := SendRead(env, EnsureConnected(env, b).0.EnforceGap()).HandleError();
  }

  lemma {:induction false} ContractRetry(env: Env, b: Fields, b3: Fields, attempt: nat,
                                         answers: seq<Reply>, ticks: seq<nat>)
    requires attempt < 3 && FailedOnce(env, b, b3)
    requires ReadAttempts(env, b, attempt) == ReadAttempts(env, b3, attempt + 1)
    requires AttemptsKeep(env, b3, attempt + 1, answers, ticks)
    ensures AttemptsKeep(env, b, attempt, [Trouble] + answers, [b3.tick - 1] + ticks)
  {
    var (d, r) := ReadAttempts(env, b3, attempt + 1);
    ContractCons(env, b, b3, d, r, 3 - attempt, answers, ticks);
  }

  /** A read sends at most three requests, none after the abort flag was raised, be it
      before the read or by another goroutine during it, and decides by its answers as
      said above. */
  lemma {:induction false} ReadContract(env: Env, b: Fields, attempt: nat)
      returns (answers: seq<Reply>, ticks: seq<nat>)
    requires attempt <= 3
    ensures AttemptsKeep(env, b, attempt, answers, ticks)
    decreases 3 - attempt
  {
    if ReadRetries(env, b, attempt) {
      var b3 := RetryIs(env, b, attempt);
      var more, later := ReadContract(env, b3, attempt + 1);
      ContractRetry(env, b, b3, attempt, more, later);
      answers, ticks := [Trouble] + more, [b3.tick - 1] + later;
    } else {
      answers, ticks := LastAttempt(env, b, attempt);
    }
  }

  /** What a write makes of the answers: it retries any error, illegal addresses
      included, and never keeps a connection after an error. */
  ghost predicate WriteVerdict(answers: seq<Reply>, most: nat, d: Fields, r: Result) {
    && |answers| <= most
    && (forall i :: 0 <= i < |answers| - 1 ==> !answers[i].Ok?)
    && (answers == [] ==> NoConnection(r))
    && (answers != [] ==>
          var last := answers[|answers| - 1];
          if last.Ok? then r == Done([])
          else if NoConnection(r) then |answers| < most
          else r == NotDone(Refused(last)) && |answers| == most && d.conn == None)
  }

  lemma {:induction false} WriteVerdictCons(answer: Reply, answers: seq<Reply>, most: nat, d: Fields, r: Result)
    requires WriteVerdict(answers, most, d, r) && !answer.Ok? && most >= 1
    ensures WriteVerdict([answer] + answers, most + 1, d, r)
  {
    var all := [answer] + answers;
    assert answers != [] ==> all[|all| - 1] == answers[|answers| - 1];
    forall i | 0 <= i < |all| - 1
      ensures !all[i].Ok?
    {
      if i > 0 {
        assert all[i] == answers[i - 1];
      }
    }
  }

  lemma {:induction false} FirstWrite(env: Env, b: Fields)
    requires EnsureConnected(env, b).1 == None
    ensures var b1 := EnsureConnected(env, b).0;
      && WritesSent(b, SendWrite(env, b1), [env.reply(b1.tick)]) && Heeds(env, b, SendWrite(env, b1))
  {
    EnsureSendsNothing(env, b);
    var b1 := EnsureConnected(env, b).0;
    SendWriteSends(env, b1);
    HeedsMore(env, b, b1, SendWrite(env, b1));
  }

  /** A write sends at most two requests and decides by its answers. */
  lemma {:induction false} WriteContract(env: Env, b: Fields, attempt: nat) returns (answers: seq<Reply>)
    requires attempt <= 2
    ensures var (d, r) := WriteAttempts(env, b, attempt);
      && WritesSent(b, d, answers) && WriteVerdict(answers, 3 - attempt, d, r)
      && Heeds(env, b, d)
    decreases 2 - attempt
  {
    EnsureProblem(env, b);
    var (b1, problem) := EnsureConnected(env, b);
    answers := [];
    EnsureSendsNothing(env, b);
    if problem == None {
      var answer := env.reply(b1.tick);
      answers := [answer];
      FirstWrite(env, b);
      var b2 := SendWrite(env, b1).HandleError();
      if !answer.Ok? && attempt < 2 {
        var more := WriteContract(env, b2, attempt + 1);
        var (d, r) := WriteAttempts(env, b2, attempt + 1);
        WritesSentAdd(b, b2, d, answers, more);
        WriteVerdictCons(answer, more, 2 - attempt, d, r);
        HeedsMore(env, b, b2, d);
        answers := [answer] + more;
      }
    }
  }

  // ---- batches ----

  /** The broker when the i-th read of a batch starts, unless the context was done by
      then. */
  function BatchAt(env: Env, b: Fields, i: nat): Option<Fields>
    decreases i
  {
    if env.Cancelled(b.tick) then None
    else if i == 0 then Some(Idle(env, b))
    else BatchAt(env, ExecuteRead(env, Idle(env, b)).0, i - 1)
  }

  /** What the i-th request of a batch is answered with. */
  ghost function BatchAnswer(env: Env, b: Fields, i: nat): Result {
    match BatchAt(env, b, i)
    case None => NotDone(ContextDone)
    case Some(s) => ExecuteRead(env, s).1
  }

  lemma {:induction false} BatchAnswerNext(env: Env, b: Fields, i: nat)
    requires !env.Cancelled(b.tick)
    ensures var (b1, r) := ExecuteRead(env, Idle(env, b));
      BatchAnswer(env, b, i) == if i == 0 then r else BatchAnswer(env, b1, i - 1)
  {
  }

  /** One result per request, in order: the i-th is the outcome of the i-th read, or
      says that the context was done before it. */
  lemma {:induction false} BatchContract(env: Env, b: Fields, n: nat, done: seq<Result>)
    ensures var rs := BatchFrom(env, b, n, done).1;
      && |rs| == |done| + n && done <= rs
      && forall i :: 0 <= i < n ==> rs[|done| + i] == BatchAnswer(env, b, i)
    decreases n
  {
    if n > 0 {
      if env.Cancelled(b.tick) {
        assert forall i :: 0 <= i < n ==> BatchAt(env, b, i) == None;
      } else {
        var (b1, r) := ExecuteRead(env, Idle(env, b));
        BatchContract(env, b1, n - 1, done + [r]);
        BatchCons(env, b, n, done, BatchFrom(env, b1, n - 1, done + [r]).1);
      }
    }
  }

  lemma {:induction false} BatchCons(env: Env, b: Fields, n: nat, done: seq<Result>, rs: seq<Result>)
    requires n > 0 && !env.Cancelled(b.tick)
    requires var (b1, r) := ExecuteRead(env, Idle(env, b));
      && |rs| == |done| + n && done + [r] <= rs
      && forall i :: 0 <= i < n - 1 ==> rs[|done| + 1 + i] == BatchAnswer(env, b1, i)
    ensures done <= rs && forall i :: 0 <= i < n ==> rs[|done| + i] == BatchAnswer(env, b, i)
  {
    var (b1, r) := ExecuteRead(env, Idle(env, b));
    forall i | 0 <= i < n
      ensures rs[|done| + i] == BatchAnswer(env, b, i)
    {
      BatchAnswerNext(env, b, i);
      if i > 0 {
        assert rs[|done| + 1 + (i - 1)] == rs[|done| + i];
      } else {
        assert rs[|done|] == (done + [r])[|done|];
      }
    }
  }

  // ---- dialling ----

  /** The n-th dial of a loop that begins in b, and the wait behind it. */
  predicate Dials(env: Env, b: Fields, n: nat) {
    env.dials(b.tick + 2 * n)
  }

  predicate CutBehind(env: Env, b: Fields, n: nat) {
    env.Cancelled(b.tick + 2 * n + 1)
  }

  /** The loop gets as far as the n-th dial. */
  ghost predicate Reaches(env: Env, b: Fields, n: nat) {
    forall i :: 0 <= i < n ==> !Dials(env, b, i) && !CutBehind(env, b, i)
  }

  /** A broker that needs a connection gets one exactly if some dial works before the context
      is done; otherwise it dials until the context is done, and says so. */
  lemma {:induction false} DialLoopExactly(env: Env, b: Fields) returns (n: nat)
    ensures Reaches(env, b, n) && (Dials(env, b, n) || CutBehind(env, b, n))
    ensures var (d, problem) := DialLoop(env, b);
      && problem == (if Dials(env, b, n) then None else Some(ContextDone))
      && d.conn == (if Dials(env, b, n) then Some(b.addr) else b.conn)
      && d.tick == b.tick + 2 * n + if Dials(env, b, n) then 1 else 2
    decreases env.lifetime - b.tick
  {
    var b1 := DialOnce(env, b);
    if env.dials(b.tick) || env.Cancelled(b1.tick) {
      n := 0;
      assert b1.tick == b.tick + 2 * 0 + 1;
    } else {
      var b2 := BackOff(env, b1);
      var m := DialLoopExactly(env, b2);
      n := m + 1;
      assert b2.tick == b.tick + 2 && b2.tick + 2 * m == b.tick + 2 * n;
      assert !Dials(env, b, 0) && !CutBehind(env, b, 0);
      ReachesNext(env, b, b2, m);
      NextRound(env, b, b2, m);
    }
  }

  lemma {:induction false} ReachesNext(env: Env, b: Fields, c: Fields, m: nat)
    requires c.tick == b.tick + 2 && Reaches(env, c, m) && !Dials(env, b, 0) && !CutBehind(env, b, 0)
    ensures Reaches(env, b, m + 1)
  {
    forall i | 0 <= i < m + 1
      ensures !Dials(env, b, i) && !CutBehind(env, b, i)
    {
      if i > 0 {
        assert !Dials(env, c, i - 1) && !CutBehind(env, c, i - 1);
        NextRound(env, b, c, i - 1);
      }
    }
  }

  lemma {:induction false} NextRound(env: Env, b: Fields, c: Fields, n: nat)
    requires c.tick == b.tick + 2
    ensures Dials(env, b, n + 1) == Dials(env, c, n) && CutBehind(env, b, n + 1) == CutBehind(env, c, n)
  {
    assert b.tick + 2 * (n + 1) == c.tick + 2 * n;
  }

  /** A reconfiguration drops the connection, dials the new address once, and answers what
      became of that dial. */
  lemma {:induction false} ReconfigureContract(env: Env, b: Fields, addr: string)
    ensures var (d, r) := ExecuteReconfigure(env, b, addr);
      && d.log == b.log + [Configured(addr), Dial(addr, b.now, env.dials(b.tick))]
      && (r == Done([]) <==> env.dials(b.tick)) && (r == NotDone(DialFailed) <==> !env.dials(b.tick))
      && d.conn == (if env.dials(b.tick) then Some(addr) else None)
  {
  }

  // ---- the abort flag ----

  /** The flag is up exactly if some event since the last disconnect came with an abort. */
  ghost predicate Alert(env: Env, b: Fields) {
    && LastDrop(b.log) <= b.tick
    && (b.aborting <==> exists t :: LastDrop(b.log) <= t < b.tick && env.aborts(t))
  }

  lemma {:induction false} AlertMore(env: Env, b: Fields, d: Fields)
    requires Alert(env, b) && Heeds(env, b, d)
    ensures Alert(env, d)
  {
  }

  lemma {:induction false} BatchHeeds(env: Env, b: Fields, n: nat, done: seq<Result>)
    ensures Heeds(env, b, BatchFrom(env, b, n, done).0)
    decreases n
  {
    HeedsEvent(env, b, b, env.took(b.tick));
    if n > 0 && !env.Cancelled(b.tick) {
      var b0 := Idle(env, b);
      var answers, ticks := ReadContract(env, b0, 1);
      var (b1, r) := ExecuteRead(env, b0);
      HeedsMore(env, b, b0, b1);
      BatchHeeds(env, b1, n - 1, done + [r]);
      HeedsMore(env, b, b1, BatchFrom(env, b1, n - 1, done + [r]).0);
    }
  }

  lemma {:induction false} ReconfigureHeeds(env: Env, b: Fields, addr: string)
    ensures Heeds(env, b, ExecuteReconfigure(env, b, addr).0)
  {
    var a := Adopt(b, addr).SetState(Connecting);
    AnswersSnoc(b.log, Configured(addr));
    DialQuiet(env, a);
    HeedsMore(env, b, a, DialOnce(env, a));
  }

  lemma {:induction false} ExecuteAlert(env: Env, b: Fields, cmd: Command)
    requires Alert(env, b)
    ensures Alert(env, Execute(env, b, cmd).0)
  {
    var d := Execute(env, b, cmd).0;
    match cmd
    case Read =>
      var answers, ticks := ReadContract(env, b, 1);
      AlertMore(env, b, d);
    case Write =>
      var answers := WriteContract(env, b, 1);
      AlertMore(env, b, d);
    case ReadBatch(n) =>
      BatchHeeds(env, b, n, []);
      AlertMore(env, b, d);
    case Reconfigure(addr) =>
      ReconfigureHeeds(env, b, addr);
      AlertMore(env, b, d);
    case Disconnect => AnswersSnoc(b.log, Dropped(b.tick));
    case SetDelay(gap) => AnswersSnoc(b.log, GapSet(gap));
    case Stop => AnswersSnoc(b.log, Stopped);
  }

  lemma {:induction false} RunAlert(env: Env, b: Fields, cmds: seq<Command>)
    requires Alert(env, b)
    ensures Alert(env, Run(env, b, cmds).0)
    decreases |cmds|
  {
    if cmds != [] {
      HeedsEvent(env, b, b, env.took(b.tick));
      AlertMore(env, b, Idle(env, b));
      ExecuteAlert(env, Idle(env, b), cmds[0]);
      if !cmds[0].Stop? {
        RunAlert(env, Execute(env, Idle(env, b), cmds[0]).0, cmds[1..]);
      }
    }
  }

  /** So it is after every command of every run from a new broker. */
  lemma {:induction false} AbortExactly(env: Env, base: int, max: int, now: int, cmds: seq<Command>)
    ensures Alert(env, Run(env, New(base, max, now), cmds).0)
  {
    assert Alert(env, New(base, max, now));
    RunAlert(env, New(base, max, now), cmds);
  }
}
