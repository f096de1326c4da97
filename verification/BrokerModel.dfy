/** The broker: one goroutine that owns the connection and executes commands one at
    a time. Dial results, replies, durations, aborts by other goroutines and the
    lifetime of the context are oracles indexed by a counter of outside events. */
module BrokerModel {
  import opened Registers
  import opened Backoffs

  datatype ConnState = Dormant | Disconnected | Connecting | Connected | Reconnecting

  /** `IllegalAddress` is the exception 0x02, the only error that is not retryable. */
  datatype Reply = Ok(data: seq<byte>) | IllegalAddress | Trouble

  datatype Env = Env(
    dials: nat -> bool,
    reply: nat -> Reply,
    took: nat -> nat,
    aborts: nat -> bool,
    lifetime: nat)
  {
    predicate Cancelled(tick: nat) {
      tick >= lifetime
    }
  }

  /** What the broker does, and when: `cut` says that the context was done before a wait was
      over, and the number of outside events so far is kept with a disconnect. */
  datatype Op =
    | Dial(to: string, start: int, ok: bool)
    | Wait(delay: int, start: int, cut: bool)
    | Configured(to: string)
    | GapSet(gap: int)
    | Dropped(tick: nat)
    | Stopped
    | ReadFrame(to: string, start: int, finish: int, gap: int, answer: Reply)
    | WriteFrame(to: string, answer: Reply)

  datatype Result = Done(data: seq<byte>) | NotDone(why: Problem)

  datatype Problem = IsDormant | ContextDone | Refused(answer: Reply) | DialFailed

  const READ_ATTEMPTS := 3
  const WRITE_ATTEMPTS := 2

  /** The fields of a `Broker`, and its view of the world: a clock, the number of
      outside events so far, and everything done to the outside. */
  datatype Fields = Fields(
    addr: string,
    conn: Option<string>,
    state: ConnState,
    dormant: bool,
    aborting: bool,
    lastRead: Option<int>,
    gap: int,
    backoff: Delays,
    now: int,
    tick: nat,
    log: seq<Op>)
  {
    function Record(op: Op): Fields {
      this.(log := log + [op])
    }

    function SetState(s: ConnState): Fields {
      this.(state := s)
    }

    /** Closes the connection after a communication error. */
    function HandleError(): Fields {
      this.(conn := None, state := if dormant then Disconnected else Reconnecting)
    }

    /** Waits for the rest of the gap since the last read. */
    function EnforceGap(): Fields {
      match lastRead
      case None => this.(lastRead := Some(now))
      case Some(t) => this.(now := if now - t < gap then t + gap else now)
    }
  }

  function New(base: int, max: int, now: int): Fields {
    Fields("", None, Dormant, true, false, None, 500, Delays(base, max, base), now, 0, [])
  }

  /** Something outside takes `spent`; another goroutine may raise the abort flag. */
  function Event(env: Env, b: Fields, spent: nat): Fields {
    b.(now := b.now + spent, tick := b.tick + 1, aborting := b.aborting || env.aborts(b.tick))
  }

  /** Waiting for the next command. */
  function Idle(env: Env, b: Fields): Fields {
    Event(env, b, env.took(b.tick))
  }

  function DialOnce(env: Env, b: Fields): Fields {
    Event(env, b.Record(Dial(b.addr, b.now, env.dials(b.tick))), env.took(b.tick))
  }

  function Attach(b: Fields): Fields {
    b.(conn := Some(b.addr), backoff := b.backoff.Reset(), state := Connected)
  }

  function Positive(x: int): nat {
    if x > 0 then x else 0
  }

  /** How long a wait takes that ends early if the context is done. */
  function Waited(env: Env, tick: nat, delay: int): nat {
    if env.Cancelled(tick) && env.took(tick) < Positive(delay) then env.took(tick) else Positive(delay)
  }

  /** After a failed dial: the next delay is drawn, and waited for unless the context is
      done. */
  function BackOff(env: Env, b: Fields): Fields {
    var delay := b.backoff.current;
    Event(env, b.Record(Wait(delay, b.now, env.Cancelled(b.tick))).(state := Reconnecting, backoff := b.backoff.Next()),
          Waited(env, b.tick, delay))
  }

  datatype Round = Success | GivenUp | Again

  /** Dials once; after a failure either the context is done or the delay is waited for. */
  function DialRound(env: Env, b: Fields): (Fields, Round) {
    var b1 := DialOnce(env, b);
    if env.dials(b.tick) then (Attach(b1), Success)
    else if env.Cancelled(b1.tick) then (BackOff(env, b1).SetState(Disconnected), GivenUp)
    else (BackOff(env, b1), Again)
  }

  /** Dials until it succeeds or the context is done, waiting longer each time. */
  function DialLoop(env: Env, b: Fields): (r: (Fields, Option<Problem>))
    ensures r.1 == None ==> r.0.conn.Some?
    decreases env.lifetime - b.tick
  {
    match DialRound(env, b)
    case (b1, Success) => (b1, None)
    case (b1, GivenUp) => (b1, Some(ContextDone))
    case (b1, Again) => DialLoop(env, b1)
  }

  function EnsureConnected(env: Env, b: Fields): (r: (Fields, Option<Problem>))
    ensures r.1 == None ==> r.0.conn.Some?
  {
    if b.conn.Some? then (b, None)
    else if b.dormant then (b, Some(IsDormant))
    else DialLoop(env, b.SetState(Connecting))
  }

  /** Sends one read request and gets an answer. */
  function SendRead(env: Env, b: Fields): Fields
    requires b.conn.Some?
  {
    var finish := b.now + env.took(b.tick);
    Event(env, b.Record(ReadFrame(b.conn.value, b.now, finish, b.gap, env.reply(b.tick))), env.took(b.tick))
      .(lastRead := Some(finish))
  }

  function SendWrite(env: Env, b: Fields): Fields
    requires b.conn.Some?
  {
    Event(env, b.Record(WriteFrame(b.conn.value, env.reply(b.tick))), env.took(b.tick))
  }

  /** The `attempt`-th and later attempts of a read. */
  function ReadAttempts(env: Env, b: Fields, attempt: nat): (Fields, Result)
    requires attempt <= READ_ATTEMPTS
    decreases READ_ATTEMPTS - attempt
  {
    var (b1, problem) := EnsureConnected(env, b);
    if problem.Some? then (b1, NotDone(problem.value))
    else
      var b2 := SendRead(env, b1.EnforceGap());
      match env.reply(b1.tick)
      case Ok(data) => (b2, Done(data))
      case IllegalAddress => (b2, NotDone(Refused(IllegalAddress)))
      case Trouble =>
        var b3 := b2.HandleError();
        if b3.aborting || attempt == READ_ATTEMPTS then (b3, NotDone(Refused(Trouble)))
        else ReadAttempts(env, b3, attempt + 1)
  }

  /** Any error of a write closes the connection, and the abort flag is not looked at. */
  function WriteAttempts(env: Env, b: Fields, attempt: nat): (Fields, Result)
    requires attempt <= WRITE_ATTEMPTS
    decreases WRITE_ATTEMPTS - attempt
  {
    var (b1, problem) := EnsureConnected(env, b);
    if problem.Some? then (b1, NotDone(problem.value))
    else
      var b2 := SendWrite(env, b1);
      var answer := env.reply(b1.tick);
      if answer.Ok? then (b2, Done([]))
      else if attempt == WRITE_ATTEMPTS then (b2.HandleError(), NotDone(Refused(answer)))
      else WriteAttempts(env, b2.HandleError(), attempt + 1)
  }

  function ExecuteRead(env: Env, b: Fields): (Fields, Result) {
    ReadAttempts(env, b, 1)
  }

  function ExecuteWrite(env: Env, b: Fields): (Fields, Result) {
    WriteAttempts(env, b, 1)
  }

  function Repeat(r: Result, n: nat): seq<Result> {
    seq(n, _ => r)
  }

  /** `n` more reads in a row after the results `done`; once the context is done the
      rest are not tried. */
  function BatchFrom(env: Env, b: Fields, n: nat, done: seq<Result>): (Fields, seq<Result>)
    decreases n
  {
    if n == 0 then (b, done)
    else if env.Cancelled(b.tick) then (Idle(env, b), done + Repeat(NotDone(ContextDone), n))
    else
      var (b1, r) := ExecuteRead(env, Idle(env, b));
      BatchFrom(env, b1, n - 1, done + [r])
  }

  function ExecuteBatch(env: Env, b: Fields, n: nat): (Fields, seq<Result>) {
    BatchFrom(env, b, n, [])
  }

  function Adopt(b: Fields, addr: string): Fields {
    b.(conn := None, addr := addr, dormant := false, backoff := b.backoff.Reset()).Record(Configured(addr))
  }

  /** Drops any connection and tries the new address once. */
  function ExecuteReconfigure(env: Env, b: Fields, addr: string): (Fields, Result) {
    var b1 := DialOnce(env, Adopt(b, addr).SetState(Connecting));
    if env.dials(b.tick) then (b1.(conn := Some(addr), state := Connected), Done([]))
    else (b1.SetState(Disconnected), NotDone(DialFailed))
  }

  function ExecuteDisconnect(b: Fields): Fields {
    b.(aborting := false, conn := None, dormant := true, state := Disconnected).Record(Dropped(b.tick))
  }

  function Cleanup(b: Fields): Fields {
    b.(conn := None, state := Disconnected).Record(Stopped)
  }

  /** Commands from the channel; `Stop` stands for a cancelled context or a closed broker,
      which the loop sees between commands. */
  datatype Command =
    | Read
    | Write
    | ReadBatch(n: nat)
    | Reconfigure(addr: string)
    | Disconnect
    | SetDelay(gap: int)
    | Stop

  function Execute(env: Env, b: Fields, cmd: Command): (Fields, seq<Result>) {
    match cmd
    case Read => var (b1, r) := ExecuteRead(env, b); (b1, [r])
    case Write => var (b1, r) := ExecuteWrite(env, b); (b1, [r])
    case ReadBatch(n) => ExecuteBatch(env, b, n)
    case Reconfigure(addr) => var (b1, r) := ExecuteReconfigure(env, b, addr); (b1, [r])
    case Disconnect => (ExecuteDisconnect(b), [Done([])])
    case SetDelay(gap) => (b.(gap := gap).Record(GapSet(gap)), [Done([])])
    case Stop => (Cleanup(b), [])
  }

  /** A life of the broker, and everything it answered; it waits for each command, and
      nothing is executed after a stop. */
  function Run(env: Env, b: Fields, cmds: seq<Command>): (Fields, seq<Result>)
    decreases |cmds|
  {
    if cmds == [] then (b, [])
    else
      var (b1, rs) := Execute(env, Idle(env, b), cmds[0]);
      if cmds[0].Stop? then (b1, rs)
      else
        var (b2, more) := Run(env, b1, cmds[1..]);
        (b2, rs + more)
  }
}
