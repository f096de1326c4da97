/** The broker as the object its goroutine mutates: every method does to the fields
    what `BrokerModel` says. */
module Brokers {
  import opened Registers
  import opened Backoffs
  import opened BrokerModel

  lemma {:induction false} Regroup<T>(x: seq<T>, y: seq<T>, z: seq<T>)
    ensures (x + y) + z == x + (y + z)
  {
  }

  class Broker {
    const env: Env
    const backoff: Backoff
    var addr: string
    var conn: Option<string>
    var state: ConnState
    var dormant: bool
    var aborting: bool
    var lastReadTime: Option<int>
    var interReadDelay: int
    var now: int
    var tick: nat
    var log: seq<Op>

    ghost function View(): Fields
      reads this, backoff
    {
      Fields(addr, conn, state, dormant, aborting, lastReadTime, interReadDelay, backoff.Value(), now, tick, log)
    }

    constructor (env: Env, base: int, maxDelay: int, now: int)
      ensures this.env == env && fresh(backoff) && View() == New(base, maxDelay, now)
    {
      this.env := env;
      backoff := new Backoff(base, maxDelay);
      addr, conn, state, dormant, aborting := "", None, Dormant, true, false;
      lastReadTime, interReadDelay := None, 500;
      this.now, tick, log := now, 0, [];
    }

    method SetState(s: ConnState)
      modifies this
      ensures View() == old(View()).SetState(s)
    {
      state := s;
    }

    /** Time passes outside, and the abort flag may be raised meanwhile. */
    method Elapse(spent: nat)
      modifies this
      ensures View() == Event(env, old(View()), spent)
    {
      now := now + spent;
      aborting := aborting || env.aborts(tick);
      tick := tick + 1;
    }

    method Connect() returns (ok: bool)
      modifies this
      ensures ok == env.dials(old(tick)) && View() == DialOnce(env, old(View()))
    {
      ok := env.dials(tick);
      log := log + [Dial(addr, now, ok)];
      Elapse(env.took(tick));
    }

    method HandleError()
      modifies this
      ensures View() == old(View()).HandleError()
    {
      conn := None;
      if dormant {
        state := Disconnected;
      } else {
        state := Reconnecting;
      }
    }

    method EnforceInterReadDelay()
      modifies this
      ensures View() == old(View()).EnforceGap()
    {
      if lastReadTime == None {
        lastReadTime := Some(now);
        return;
      }
      var elapsed := now - lastReadTime.value;
      if elapsed < interReadDelay {
        now := now + (interReadDelay - elapsed);
      }
    }

    method Attached()
      modifies this, backoff
      ensures View() == Attach(old(View()))
    {
      conn := Some(addr);
      backoff.Reset();
      SetState(Connected);
    }

    /** The wait of the dial loop, which the context may cut short. */
    method WaitOrDone() returns (done: bool)
      modifies this, backoff
      ensures done == env.Cancelled(old(tick)) && View() == BackOff(env, old(View()))
    {
      SetState(Reconnecting);
      var delay := backoff.Next();
      done := env.Cancelled(tick);
      log := log + [Wait(delay, now, done)];
      var spent := if delay > 0 then delay else 0;
      if done && env.took(tick) < spent {
        spent := env.took(tick);
      }
      Elapse(spent);
    }

    method DialRound() returns (round: Round)
      modifies this, backoff
      ensures (View(), round) == BrokerModel.DialRound(env, old(View()))
    {
      var ok := Connect();
      if ok {
        Attached();
        return Success;
      }
      var done := WaitOrDone();
      if done {
        SetState(Disconnected);
        return GivenUp;
      }
      return Again;
    }

    /** The loop of `ensureConnected`. */
    method DialUntilConnected() returns (problem: Option<Problem>)
      modifies this, backoff
      ensures (View(), problem) == DialLoop(env, old(View()))
    {
      while true
        invariant DialLoop(env, old(View())) == DialLoop(env, View())
        decreases env.lifetime - tick
      {
        var round := DialRound();
        if round == Success {
          return None;
        }
        if round == GivenUp {
          return Some(ContextDone);
        }
      }
    }

    method EnsureConnected() returns (problem: Option<Problem>)
      modifies this, backoff
      ensures (View(), problem) == BrokerModel.EnsureConnected(env, old(View()))
    {
      if conn.Some? {
        return None;
      }
      if dormant {
        return Some(IsDormant);
      }
      SetState(Connecting);
      problem := DialUntilConnected();
    }

    method ReadHoldingRegisters() returns (answer: Reply)
      requires conn.Some?
      modifies this
      ensures answer == env.reply(old(tick)) && View() == SendRead(env, old(View()))
    {
      answer := env.reply(tick);
      var finish := now + env.took(tick);
      log := log + [ReadFrame(conn.value, now, finish, interReadDelay, answer)];
      Elapse(env.took(tick));
      lastReadTime := Some(now);
    }

    method WriteRegister() returns (answer: Reply)
      requires conn.Some?
      modifies this
      ensures answer == env.reply(old(tick)) && View() == SendWrite(env, old(View()))
    {
      answer := env.reply(tick);
      log := log + [WriteFrame(conn.value, answer)];
      Elapse(env.took(tick));
    }

    method ExecuteRead() returns (r: Result)
      modifies this, backoff
      ensures (View(), r) == BrokerModel.ExecuteRead(env, old(View()))
    {
      var attempt := 1;
      ghost var b0 := View();
      while attempt <= READ_ATTEMPTS
        invariant 1 <= attempt <= READ_ATTEMPTS
        invariant ReadAttempts(env, b0, 1) == ReadAttempts(env, View(), attempt)
        decreases READ_ATTEMPTS - attempt
      {
        var problem := EnsureConnected();
        if problem.Some? {
          return NotDone(problem.value);
        }
        EnforceInterReadDelay();
        var answer := ReadHoldingRegisters();
        if answer.Ok? {
          return Done(answer.data);
        }
        if answer.IllegalAddress? {
          return NotDone(Refused(answer));
        }
        HandleError();
        if aborting {
          return NotDone(Refused(answer));
        }
        if attempt == READ_ATTEMPTS {
          return NotDone(Refused(answer));
        }
        attempt := attempt + 1;
      }
    }

    method ExecuteWrite() returns (r: Result)
      modifies this, backoff
      ensures (View(), r) == BrokerModel.ExecuteWrite(env, old(View()))
    {
      var attempt := 1;
      ghost var b0 := View();
      while attempt <= WRITE_ATTEMPTS
        invariant 1 <= attempt <= WRITE_ATTEMPTS
        invariant WriteAttempts(env, b0, 1) == WriteAttempts(env, View(), attempt)
        decreases WRITE_ATTEMPTS - attempt
      {
        var problem := EnsureConnected();
        if problem.Some? {
          return NotDone(problem.value);
        }
        var answer := WriteRegister();
        if answer.Ok? {
          return Done([]);
        }
        HandleError();
        if attempt == WRITE_ATTEMPTS {
          return NotDone(Refused(answer));
        }
        attempt := attempt + 1;
      }
    }

    method ExecuteBatch(n: nat) returns (results: seq<Result>)
      modifies this, backoff
      ensures (View(), results) == BrokerModel.ExecuteBatch(env, old(View()), n)
    {
      results := [];
      ghost var b0 := View();
      for i := 0 to n
        invariant |results| == i
        invariant BatchFrom(env, b0, n, []) == BatchFrom(env, View(), n - i, results)
      {
        var cancelled := env.Cancelled(tick);
        Elapse(env.took(tick));
        if cancelled {
          results := results + Repeat(NotDone(ContextDone), n - i);
          return;
        }
        var r := ExecuteRead();
        results := results + [r];
      }
    }

    /** Forgets the old connection and takes the new address. */
    method Adopt(addr: string)
      modifies this, backoff
      ensures View() == BrokerModel.Adopt(old(View()), addr)
    {
      conn := None;
      this.addr := addr;
      dormant := false;
      backoff.Reset();
      log := log + [Configured(addr)];
    }

    method ExecuteReconfigure(addr: string) returns (r: Result)
      modifies this, backoff
      ensures (View(), r) == BrokerModel.ExecuteReconfigure(env, old(View()), addr)
    {
      Adopt(addr);
      SetState(Connecting);
      var ok := Connect();
      if !ok {
        SetState(Disconnected);
        return NotDone(DialFailed);
      }
      conn := Some(addr);
      SetState(Connected);
      return Done([]);
    }

    method ExecuteDisconnect()
      modifies this
      ensures View() == BrokerModel.ExecuteDisconnect(old(View()))
    {
      aborting := false;
      conn := None;
      dormant := true;
      SetState(Disconnected);
      log := log + [Dropped(tick)];
    }

    method Cleanup()
      modifies this
      ensures View() == BrokerModel.Cleanup(old(View()))
    {
      conn := None;
      SetState(Disconnected);
      log := log + [Stopped];
    }

    method Execute(cmd: Command) returns (rs: seq<Result>)
      modifies this, backoff
      ensures (View(), rs) == BrokerModel.Execute(env, old(View()), cmd)
    {
      match cmd {
        case Read =>
          var r := ExecuteRead();
          rs := [r];
        case Write =>
          var r := ExecuteWrite();
          rs := [r];
        case ReadBatch(n) =>
          rs := ExecuteBatch(n);
        case Reconfigure(to) =>
          var r := ExecuteReconfigure(to);
          rs := [r];
        case Disconnect =>
          ExecuteDisconnect();
          rs := [Done([])];
        case SetDelay(gap) =>
          interReadDelay := gap;
          log := log + [GapSet(gap)];
          rs := [Done([])];
        case Stop =>
          Cleanup();
          rs := [];
      }
    }

    /** The command loop. */
    method Run(cmds: seq<Command>) returns (results: seq<Result>)
      modifies this, backoff
      ensures (View(), results) == BrokerModel.Run(env, old(View()), cmds)
    {
      results := [];
      ghost var b0 := View();
      for i := 0 to |cmds|
        invariant BrokerModel.Run(env, b0, cmds).0 == BrokerModel.Run(env, View(), cmds[i..]).0
        invariant BrokerModel.Run(env, b0, cmds).1 == results + BrokerModel.Run(env, View(), cmds[i..]).1
      {
        assert cmds[i..][0] == cmds[i] && cmds[i..][1..] == cmds[i + 1..];
        Elapse(env.took(tick));
        var rs := Execute(cmds[i]);
        Regroup(results, rs, BrokerModel.Run(env, View(), cmds[i + 1..]).1);
        results := results + rs;
        if cmds[i].Stop? {
          return;
        }
      }
      assert cmds[|cmds|..] == [] && results + [] == results;
    }
  }
}
