/** One read cycle of a section: batch reads span by span, falling back to
    individual reads, steered by the span tracker. Broker replies and context
    cancellation are oracles indexed by a logical clock that ticks at every
    broker call and every look at the context. */
module ReadCycles {
  import opened Registers
  import opened BatchPlanner
  import opened SpanTrackers

  datatype Reply = Data(bytes: seq<byte>) | Fail(err: string)

  datatype Request = Request(addr: word, count: word)

  datatype Env = Env(reply: (nat, Request) -> Reply, cancelled: nat -> bool)

  /** A `broker.Result`; `Empty` is its zero value. */
  datatype Slot = Empty | Got(bytes: seq<byte>) | Failed(err: string)

  datatype Body = Value(bytes: seq<byte>) | Error(err: string)

  /** A `register_value` message, before formatting. */
  datatype Message = Message(tag: Tagged, body: Body)

  const SHORT_RESPONSE := "short response"

  datatype Cycle = Cycle(
    now: nat,
    tracker: Tracker,
    slots: seq<Slot>,
    sent: seq<Message>,
    asked: seq<Request>,
    stopped: bool)
  {
    function Tick(): Cycle {
      this.(now := now + 1)
    }

    function Ask(q: Request): Cycle {
      this.(now := now + 1, asked := asked + [q])
    }

    function Send(m: Message): Cycle {
      this.(sent := sent + [m])
    }

    function Stop(): Cycle {
      this.(stopped := true)
    }

    function Put(idx: map<word, nat>, a: word, s: Slot): Cycle {
      if a in idx && idx[a] < |slots| then this.(slots := slots[idx[a] := s]) else this
    }
  }

  /** `addrToIdx`: the last probe of an address wins. */
  function AddrToIdx(probes: seq<Probe>): (idx: map<word, nat>)
    ensures forall a :: a in idx ==> idx[a] < |probes| && probes[idx[a]].addr == a
  {
    if probes == [] then map[]
    else
      var n := |probes| - 1;
      AddrToIdx(probes[..n])[probes[n].addr := n]
  }

  function RequestFor(t: Tagged): Request {
    Request(t.probe.addr, t.probe.count)
  }

  function SlotOf(r: Reply): Slot {
    match r
    case Data(b) => Got(b)
    case Fail(e) => Failed(e)
  }

  function BodyOf(r: Reply): Body {
    match r
    case Data(b) => Value(b)
    case Fail(e) => Error(e)
  }

  function Answer(env: Env, t: Tagged, c: Cycle): Reply {
    env.reply(c.now, RequestFor(t))
  }

  /** One individual read: ask, store, look at the context. */
  function ReadOne(env: Env, idx: map<word, nat>, t: Tagged, c: Cycle): Cycle {
    c.Ask(RequestFor(t)).Put(idx, t.probe.addr, SlotOf(Answer(env, t, c))).Tick()
  }

  /** An individual read followed by its message. */
  function ReadAndReport(env: Env, idx: map<word, nat>, t: Tagged, c: Cycle): Cycle {
    ReadOne(env, idx, t, c).Send(Message(t, BodyOf(Answer(env, t, c))))
  }

  /** Individual reads of a span's probes. The flag says that all reads failed
      or that the context was cancelled. */
  function Fallback(env: Env, idx: map<word, nat>, ms: seq<Mapping>, c: Cycle, allFailed: bool): (Cycle, bool)
    decreases |ms|
  {
    if ms == [] then (c, allFailed)
    else
      var t, c0 := ms[0].tag, c.Tick();
      if env.cancelled(c.now) then (c0, true)
      else if env.cancelled(c.now + 2) then (ReadOne(env, idx, t, c0), true)
      else
        Fallback(env, idx, ms[1..], ReadAndReport(env, idx, t, c0), allFailed && Answer(env, t, c0).Fail?)
  }

  /** Cutting the probes out of a successful span response. */
  function Extract(idx: map<word, nat>, ms: seq<Mapping>, data: seq<byte>, c: Cycle): Cycle
    decreases |ms|
  {
    if ms == [] then c
    else
      var m := ms[0];
      var end := m.offset + m.length;
      if end > |data| then
        Extract(idx, ms[1..], data, c.Send(Message(m.tag, Error(SHORT_RESPONSE))))
      else
        var part := data[m.offset..end];
        Extract(idx, ms[1..], data, c.Send(Message(m.tag, Value(part))).Put(idx, m.tag.probe.addr, Got(part)))
  }

  function Individually(env: Env, idx: map<word, nat>, span: Span, c: Cycle): Cycle {
    var (c1, allFailed) := Fallback(env, idx, span.probes, c, true);
    if env.cancelled(c1.now) then c1.Tick().Stop()
    else
      c1.Tick().(tracker := if allFailed then c1.tracker.RecordIndividualFailure(span.start)
                            else c1.tracker.RecordSuccess(span.start))
  }

  function Batched(env: Env, idx: map<word, nat>, span: Span, c: Cycle): Cycle {
    var q := Request(span.start, span.total);
    var c1 := c.Ask(q);
    match env.reply(c.now, q)
    case Fail(e) =>
      var (c2, _) := Fallback(env, idx, span.probes, c1.(tracker := c.tracker.RecordFailure(span.start)), true);
      if env.cancelled(c2.now) then c2.Tick().Stop() else c2.Tick()
    case Data(data) =>
      var c2 := c1.(tracker := c.tracker.RecordSuccess(span.start));
      if env.cancelled(c2.now) then c2.Tick().Stop() else Extract(idx, span.probes, data, c2.Tick())
  }

  function SpanPass(env: Env, idx: map<word, nat>, span: Span, c: Cycle): Cycle {
    var state, probing := c.tracker.State(span.start), c.tracker.ShouldProbe(span.start);
    if env.cancelled(c.now) then c.Tick().Stop()
    else if state == Skipped && !probing then c.Tick()
    else if state == Degraded && !probing then Individually(env, idx, span, c.Tick())
    else Batched(env, idx, span, c.Tick())
  }

  function Pass(env: Env, idx: map<word, nat>, spans: seq<Span>, c: Cycle): Cycle
    decreases |spans|
  {
    if spans == [] || c.stopped then c
    else Pass(env, idx, spans[1..], SpanPass(env, idx, spans[0], c))
  }

  function EmptySlots(n: nat): seq<Slot> {
    seq(n, _ => Empty)
  }

  /** What the reader holds when a cycle begins; messages and requests of
      earlier cycles come first. */
  datatype History = History(now: nat, tracker: Tracker, sent: seq<Message>, asked: seq<Request>)

  function Start(h: History, probes: seq<Probe>): Cycle {
    Cycle(h.now, h.tracker.Tick(), EmptySlots(|probes|), h.sent, h.asked, false)
  }

  /** The whole cycle as a function of the oracles. */
  function ReadCycle(env: Env, spans: seq<Span>, probes: seq<Probe>, h: History): Cycle {
    Pass(env, AddrToIdx(probes), spans, Start(h, probes))
  }

  /** The reading goroutine of a hub section: it drives the tracker, asks the
      broker and sends on the results channel. */
  class SectionReader {
    const env: Env
    const tracker: SpanTracker
    var now: nat
    var sent: seq<Message>
    var asked: seq<Request>

    constructor (env: Env, tracker: SpanTracker)
      ensures this.env == env && this.tracker == tracker
      ensures now == 0 && sent == [] && asked == []
    {
      this.env := env;
      this.tracker := tracker;
      now, sent, asked := 0, [], [];
    }

    ghost function View(slots: seq<Slot>): Cycle
      reads this, tracker
    {
      Cycle(now, tracker.Value(), slots, sent, asked, false)
    }

    method Cancelled() returns (b: bool)
      modifies this
      ensures b == env.cancelled(old(now)) && now == old(now) + 1
      ensures sent == old(sent) && asked == old(asked)
    {
      b := env.cancelled(now);
      now := now + 1;
    }

    method ReadRegisters(addr: word, count: word) returns (r: Reply)
      modifies this
      ensures r == env.reply(old(now), Request(addr, count)) && now == old(now) + 1
      ensures sent == old(sent) && asked == old(asked) + [Request(addr, count)]
    {
      r := env.reply(now, Request(addr, count));
      now := now + 1;
      asked := asked + [Request(addr, count)];
    }

    /** Asks for one probe, stores the result and looks at the context. */
    method ReadProbe(t: Tagged, probeResults: array<Slot>, addrToIdx: map<word, nat>) returns (reply: Reply, stop: bool)
      requires forall a :: a in addrToIdx ==> addrToIdx[a] < probeResults.Length
      modifies this, probeResults
      ensures reply == old(Answer(env, t, View(probeResults[..])))
      ensures stop == env.cancelled(old(now) + 1)
      ensures View(probeResults[..]) == old(ReadOne(env, addrToIdx, t, View(probeResults[..])))
    {
      reply := ReadRegisters(t.probe.addr, t.probe.count);
      if t.probe.addr in addrToIdx {
        probeResults[addrToIdx[t.probe.addr]] := SlotOf(reply);
      }
      stop := Cancelled();
    }

    method ReadSpanIndividualFallbackAccum(span: Span, probeResults: array<Slot>, addrToIdx: map<word, nat>)
        returns (result: bool)
      requires forall a :: a in addrToIdx ==> addrToIdx[a] < probeResults.Length
      modifies this, probeResults
      ensures (View(probeResults[..]), result) ==
              old(Fallback(env, addrToIdx, span.probes, View(probeResults[..]), true))
    {
      var allFailed := true;
      ghost var c0 := View(probeResults[..]);
      for i := 0 to |span.probes|
        invariant Fallback(env, addrToIdx, span.probes, c0, true) ==
                  Fallback(env, addrToIdx, span.probes[i..], View(probeResults[..]), allFailed)
      {
        var t := span.probes[i].tag;
        assert span.probes[i..][1..] == span.probes[i + 1..];
        var stop := Cancelled();
        if stop {
          return true;
        }
        var reply;
        reply, stop := ReadProbe(t, probeResults, addrToIdx);
        if reply.Data? {
          allFailed := false;
        }
        if stop {
          return true;
        }
        sent := sent + [Message(t, BodyOf(reply))];
      }
      return allFailed;
    }

    method ExtractProbes(span: Span, data: seq<byte>, probeResults: array<Slot>, addrToIdx: map<word, nat>)
      requires forall a :: a in addrToIdx ==> addrToIdx[a] < probeResults.Length
      modifies this, probeResults
      ensures View(probeResults[..]) == old(Extract(addrToIdx, span.probes, data, View(probeResults[..])))
    {
      ghost var c0 := View(probeResults[..]);
      for i := 0 to |span.probes|
        invariant Extract(addrToIdx, span.probes, data, c0) ==
                  Extract(addrToIdx, span.probes[i..], data, View(probeResults[..]))
      {
        var m := span.probes[i];
        assert span.probes[i..][1..] == span.probes[i + 1..];
        var end := m.offset + m.length;
        if end > |data| {
          sent := sent + [Message(m.tag, Error(SHORT_RESPONSE))];
          continue;
        }
        var part := data[m.offset..end];
        sent := sent + [Message(m.tag, Value(part))];
        if m.tag.probe.addr in addrToIdx {
          probeResults[addrToIdx[m.tag.probe.addr]] := Got(part);
        }
      }
    }

    /** A degraded span outside its probe cycle: individual reads only. */
    method ReadIndividually(span: Span, probeResults: array<Slot>, addrToIdx: map<word, nat>) returns (stop: bool)
      requires forall a :: a in addrToIdx ==> addrToIdx[a] < probeResults.Length
      modifies this, tracker, probeResults
      ensures View(probeResults[..]).(stopped := stop) ==
              old(Individually(env, addrToIdx, span, View(probeResults[..])))
    {
      var allIndivFailed := ReadSpanIndividualFallbackAccum(span, probeResults, addrToIdx);
      stop := Cancelled();
      if stop {
        return;
      }
      if allIndivFailed {
        var _ := tracker.RecordIndividualFailure(span.start);
      } else {
        tracker.RecordSuccess(span.start);
      }
    }

    /** A batch read, with individual reads when it fails. */
    method ReadBatched(span: Span, probeResults: array<Slot>, addrToIdx: map<word, nat>) returns (stop: bool)
      requires forall a :: a in addrToIdx ==> addrToIdx[a] < probeResults.Length
      modifies this, tracker, probeResults
      ensures View(probeResults[..]).(stopped := stop) == old(Batched(env, addrToIdx, span, View(probeResults[..])))
    {
      var reply := ReadRegisters(span.start, span.total);
      if reply.Fail? {
        var _ := tracker.RecordFailure(span.start);
        var _ := ReadSpanIndividualFallbackAccum(span, probeResults, addrToIdx);
        stop := Cancelled();
        return;
      }
      tracker.RecordSuccess(span.start);
      stop := Cancelled();
      if stop {
        return;
      }
      ExtractProbes(span, reply.bytes, probeResults, addrToIdx);
    }

    /** The body of the span loop; `stop` says that the cycle was abandoned. */
    method ReadSpan(span: Span, probeResults: array<Slot>, addrToIdx: map<word, nat>) returns (stop: bool)
      requires forall a :: a in addrToIdx ==> addrToIdx[a] < probeResults.Length
      modifies this, tracker, probeResults
      ensures View(probeResults[..]).(stopped := stop) ==
              old(SpanPass(env, addrToIdx, span, View(probeResults[..])))
    {
      stop := Cancelled();
      if stop {
        return;
      }
      var state, shouldProbe := tracker.State(span.start), tracker.ShouldProbe(span.start);
      if state == Skipped && !shouldProbe {
        return;
      }
      if state == Degraded && !shouldProbe {
        stop := ReadIndividually(span, probeResults, addrToIdx);
        return;
      }
      stop := ReadBatched(span, probeResults, addrToIdx);
    }

    ghost function Past(): History
      reads this, tracker
    {
      History(now, tracker.Value(), sent, asked)
    }

    /** Reads every span of a plan; `None` when the context was cancelled. */
    method ReadBatchSpans(spans: seq<Span>, probes: seq<Probe>) returns (results: Option<seq<Slot>>)
      modifies this, tracker
      ensures var c := old(ReadCycle(env, spans, probes, Past()));
        && Past() == History(c.now, c.tracker, c.sent, c.asked)
        && results == if c.stopped then None else Some(c.slots)
    {
      ghost var c0 := Start(Past(), probes);
      var probeResults := new Slot[|probes|](_ => Empty);
      var addrToIdx := BuildIndex(probes);
      tracker.Tick();
      assert probeResults[..] == EmptySlots(|probes|);
      for i := 0 to |spans|
        invariant Pass(env, addrToIdx, spans, c0) == Pass(env, addrToIdx, spans[i..], View(probeResults[..]))
      {
        assert spans[i..][1..] == spans[i + 1..];
        var stop := ReadSpan(spans[i], probeResults, addrToIdx);
        if stop {
          return None;
        }
      }
      return Some(probeResults[..]);
    }
  }

  method BuildIndex(probes: seq<Probe>) returns (idx: map<word, nat>)
    ensures idx == AddrToIdx(probes)
  {
    idx := map[];
    for i := 0 to |probes|
      invariant idx == AddrToIdx(probes[..i])
    {
      assert probes[..i + 1][..i] == probes[..i];
      idx := idx[probes[i].addr := i];
    }
    assert probes[..|probes|] == probes;
  }
}
