/** The batch reader refines reading every probe alone: against one register
    memory, cutting a probe out of a span response gives the bytes of the
    probe's own read. */
module CycleData {
  import opened Registers
  import opened BatchPlanner
  import opened BatchPlanTheorems
  import opened SpanTrackers
  import opened ReadCycles
  import opened CycleTheorems

  /** Register contents, high byte first. */
  type Memory = int -> (byte, byte)

  /** What the device answers to a read of `n` registers from `addr`. */
  function Image(mem: Memory, addr: int, n: nat): (bytes: seq<byte>)
    ensures |bytes| == 2 * n
  {
    seq(2 * n, i requires 0 <= i < 2 * n =>
      if i % 2 == 0 then mem(addr + i / 2).0 else mem(addr + i / 2).1)
  }

  function ImageOf(mem: Memory, p: Probe): seq<byte> {
    Image(mem, p.addr, p.count)
  }

  /** The simple form and the fast form agree on every well-placed probe. */
  lemma {:induction false} SliceIsRead(mem: Memory, span: Span, m: Mapping)
    requires WellPlaced(m, span)
    ensures m.offset + m.length <= |Image(mem, span.start, span.total)|
    ensures Image(mem, span.start, span.total)[m.offset..m.offset + m.length] == ImageOf(mem, m.tag.probe)
  {
    var part := Image(mem, span.start, span.total)[m.offset..m.offset + m.length];
    forall i | 0 <= i < |part|
      ensures part[i] == ImageOf(mem, m.tag.probe)[i]
    {
      assert (m.offset + i) / 2 == m.tag.Lo() - span.start + i / 2 && (m.offset + i) % 2 == i % 2;
    }
  }

  /** A device that answers, if at all, from this memory. */
  ghost predicate Answers(env: Env, mem: Memory) {
    forall t, q :: env.reply(t, q).Data? ==> env.reply(t, q).bytes == Image(mem, q.addr, q.count)
  }

  /** The error that the probe's own request got between these moments, or exactly what
      reading it alone would give. */
  ghost predicate Truthful(m: Message, env: Env, mem: Memory, from: nat, to: nat) {
    && (m.body.Value? ==> m.body.bytes == ImageOf(mem, m.tag.probe))
    && (m.body.Error? ==> exists t :: from <= t < to && env.reply(t, RequestFor(m.tag)) == Fail(m.body.err))
  }

  ghost predicate AllTruthful(ms: seq<Message>, env: Env, mem: Memory, from: nat, to: nat) {
    forall m :: m in ms ==> Truthful(m, env, mem, from, to)
  }

  function SlotOfBody(b: Body): Slot {
    match b
    case Value(v) => Got(v)
    case Error(e) => Failed(e)
  }

  /** The slot the messages leave at an address: the last one counts. */
  function SlotFor(ms: seq<Message>, a: word): Slot {
    if ms == [] then Empty
    else
      var m := ms[|ms| - 1];
      if m.tag.probe.addr == a then SlotOfBody(m.body) else SlotFor(ms[..|ms| - 1], a)
  }

  lemma {:induction false} SlotForSnoc(ms: seq<Message>, m: Message, a: word)
    ensures SlotFor(ms + [m], a) == if m.tag.probe.addr == a then SlotOfBody(m.body) else SlotFor(ms, a)
  {
    assert (ms + [m])[..|ms|] == ms;
  }

  /** Results and messages tell the same story since message number `base`. */
  ghost predicate Agree(idx: map<word, nat>, c: Cycle, base: nat) {
    && base <= |c.sent|
    && (forall a :: a in idx ==> idx[a] < |c.slots| && c.slots[idx[a]] == SlotFor(c.sent[base..], a))
  }

  ghost predicate OneToOne(idx: map<word, nat>) {
    forall a, b :: a in idx && b in idx && a != b ==> idx[a] != idx[b]
  }

  /** Storing a result and sending its message keep the two in step. */
  lemma {:induction false} PutAndSend(idx: map<word, nat>, c: Cycle, base: nat, m: Message)
    requires Agree(idx, c, base) && OneToOne(idx)
    ensures Agree(idx, c.Send(m).Put(idx, m.tag.probe.addr, SlotOfBody(m.body)), base)
  {
    var d := c.Send(m).Put(idx, m.tag.probe.addr, SlotOfBody(m.body));
    assert d.sent[base..] == c.sent[base..] + [m];
    forall a | a in idx
      ensures d.slots[idx[a]] == SlotFor(d.sent[base..], a)
    {
      SlotForSnoc(c.sent[base..], m, a);
    }
  }

  /** What a cycle that began in `h` must keep: truthful messages, and results that agree
      with them. */
  ghost predicate Faithfully(env: Env, mem: Memory, idx: map<word, nat>, c: Cycle, h: History) {
    && Agree(idx, c, |h.sent|) && h.now <= c.now
    && AllTruthful(c.sent[|h.sent|..], env, mem, h.now, c.now)
  }

  lemma {:induction false} Later(env: Env, mem: Memory, idx: map<word, nat>, c: Cycle, d: Cycle, h: History)
    requires Faithfully(env, mem, idx, c, h) && d.slots == c.slots && d.sent == c.sent && c.now <= d.now
    ensures Faithfully(env, mem, idx, d, h)
  {
    forall m | m in d.sent[|h.sent|..]
      ensures Truthful(m, env, mem, h.now, d.now)
    {
      assert Truthful(m, env, mem, h.now, c.now);
    }
  }

  lemma {:induction false} Report(env: Env, mem: Memory, idx: map<word, nat>, c: Cycle, h: History, m: Message)
    requires Faithfully(env, mem, idx, c, h) && OneToOne(idx) && Truthful(m, env, mem, h.now, c.now)
    ensures Faithfully(env, mem, idx, c.Send(m).Put(idx, m.tag.probe.addr, SlotOfBody(m.body)), h)
  {
    PutAndSend(idx, c, |h.sent|, m);
    assert c.Send(m).sent[|h.sent|..] == c.sent[|h.sent|..] + [m];
  }

  lemma {:induction false} ReadData(env: Env, mem: Memory, idx: map<word, nat>, t: Tagged, c: Cycle, h: History)
    requires Answers(env, mem) && OneToOne(idx) && Faithfully(env, mem, idx, c, h)
    ensures Faithfully(env, mem, idx, ReadAndReport(env, idx, t, c), h)
  {
    var m, d := Message(t, BodyOf(Answer(env, t, c))), c.(now := c.now + 2);
    Later(env, mem, idx, c, d, h);
    Report(env, mem, idx, d, h, m);
    var put, e := d.Send(m).Put(idx, t.probe.addr, SlotOfBody(m.body)), ReadAndReport(env, idx, t, c);
    assert e.slots == put.slots && e.sent == put.sent && e.now == put.now;
  }

  lemma {:induction false} FallbackData(env: Env, mem: Memory, idx: map<word, nat>, ms: seq<Mapping>, c: Cycle,
                                        f: bool, h: History)
    requires Monotone(env) && !env.cancelled(Fallback(env, idx, ms, c, f).0.now)
    requires Answers(env, mem) && OneToOne(idx) && Faithfully(env, mem, idx, c, h)
    ensures Faithfully(env, mem, idx, Fallback(env, idx, ms, c, f).0, h)
    decreases |ms|
  {
    if ms != [] {
      FallbackEffect(env, idx, ms, c, f);
      var t, c0 := ms[0].tag, c.Tick();
      assert !env.cancelled(c.now) && !env.cancelled(c.now + 2);
      Later(env, mem, idx, c, c0, h);
      ReadData(env, mem, idx, t, c0, h);
      FallbackData(env, mem, idx, ms[1..], ReadAndReport(env, idx, t, c0), f && Answer(env, t, c0).Fail?, h);
    }
  }

  lemma {:induction false} ExtractData(env: Env, mem: Memory, idx: map<word, nat>, span: Span, ms: seq<Mapping>,
                                       c: Cycle, h: History)
    requires OneToOne(idx) && Faithfully(env, mem, idx, c, h)
    requires forall k :: 0 <= k < |ms| ==> WellPlaced(ms[k], span)
    ensures Faithfully(env, mem, idx, Extract(idx, ms, Image(mem, span.start, span.total), c), h)
    decreases |ms|
  {
    if ms != [] {
      var m := ms[0];
      SliceIsRead(mem, span, m);
      var part := Image(mem, span.start, span.total)[m.offset..m.offset + m.length];
      Report(env, mem, idx, c, h, Message(m.tag, Value(part)));
      var next := c.Send(Message(m.tag, Value(part))).Put(idx, m.tag.probe.addr, Got(part));
      ExtractData(env, mem, idx, span, ms[1..], next, h);
    }
  }

  lemma {:induction false} SpanPassData(env: Env, mem: Memory, idx: map<word, nat>, span: Span, c: Cycle, h: History)
    requires Monotone(env) && Answers(env, mem) && OneToOne(idx) && GoodSpan(span)
    requires Faithfully(env, mem, idx, c, h) && !c.stopped && !SpanPass(env, idx, span, c).stopped
    ensures Faithfully(env, mem, idx, SpanPass(env, idx, span, c), h)
  {
    var t, c1 := c.tracker, c.Tick();
    Later(env, mem, idx, c, c1, h);
    if t.State(span.start) == Degraded && !t.ShouldProbe(span.start) {
      FallbackEffect(env, idx, span.probes, c1, true);
      FallbackData(env, mem, idx, span.probes, c1, true, h);
    } else if t.State(span.start) != Skipped || t.ShouldProbe(span.start) {
      BatchedData(env, mem, idx, span, c1, h);
    }
  }

  lemma {:induction false} BatchedData(env: Env, mem: Memory, idx: map<word, nat>, span: Span, c: Cycle, h: History)
    requires Monotone(env) && Answers(env, mem) && OneToOne(idx) && GoodSpan(span)
    requires Faithfully(env, mem, idx, c, h) && !c.stopped && !Batched(env, idx, span, c).stopped
    ensures Faithfully(env, mem, idx, Batched(env, idx, span, c), h)
  {
    var q := Request(span.start, span.total);
    var reply := env.reply(c.now, q);
    if reply.Data? {
      var next := c.Ask(q).(tracker := c.tracker.RecordSuccess(span.start)).Tick();
      Later(env, mem, idx, c, next, h);
      ExtractData(env, mem, idx, span, span.probes, next, h);
    } else {
      var c1 := c.Ask(q).(tracker := c.tracker.RecordFailure(span.start));
      Later(env, mem, idx, c, c1, h);
      FallbackEffect(env, idx, span.probes, c1, true);
      FallbackData(env, mem, idx, span.probes, c1, true, h);
    }
  }

  lemma {:induction false} PassData(env: Env, mem: Memory, idx: map<word, nat>, spans: seq<Span>, c: Cycle, h: History)
    requires Monotone(env) && Answers(env, mem) && OneToOne(idx) && forall k :: 0 <= k < |spans| ==> GoodSpan(spans[k])
    requires Faithfully(env, mem, idx, c, h) && !c.stopped && !Pass(env, idx, spans, c).stopped
    ensures Faithfully(env, mem, idx, Pass(env, idx, spans, c), h)
    decreases |spans|
  {
    if spans != [] {
      SpanPassData(env, mem, idx, spans[0], c, h);
      PassData(env, mem, idx, spans[1..], SpanPass(env, idx, spans[0], c), h);
    }
  }

  lemma {:induction false} IndexPoints(probes: seq<Probe>)
    ensures OneToOne(AddrToIdx(probes))
    ensures forall i :: 0 <= i < |probes| ==>
      probes[i].addr in AddrToIdx(probes) && i <= AddrToIdx(probes)[probes[i].addr]
  {
    forall i | 0 <= i < |probes|
      ensures probes[i].addr in AddrToIdx(probes) && i <= AddrToIdx(probes)[probes[i].addr]
    {
      IndexCovers(probes, i);
    }
  }

  lemma {:induction false} IndexCovers(probes: seq<Probe>, i: nat)
    requires i < |probes|
    ensures probes[i].addr in AddrToIdx(probes) && i <= AddrToIdx(probes)[probes[i].addr]
  {
    var n := |probes| - 1;
    if i < n {
      IndexCovers(probes[..n], i);
    }
  }

  /** Whatever mixture of span states and failures, an uncancelled cycle sends for
      each reported probe the bytes of its own read or the error that its own request got in this
      cycle (never "short response"), and its results say the same. */
  lemma {:induction false} CycleFaithful(env: Env, mem: Memory, groups: seq<ProbeGroup>, plan: BatchPlan,
                                         probes: seq<Probe>, h: History)
    requires IsPlan(groups, plan) && NoWrap(Real(Flatten(groups)))
    requires Monotone(env) && Answers(env, mem) && !ReadCycle(env, plan.spans, probes, h).stopped
    ensures var c := ReadCycle(env, plan.spans, probes, h);
      Agree(AddrToIdx(probes), c, |h.sent|) && AllTruthful(c.sent[|h.sent|..], env, mem, h.now, c.now)
  {
    ExactCover(groups, plan);
    IndexPoints(probes);
    PassData(env, mem, AddrToIdx(probes), plan.spans, Start(h, probes), h);
  }

  // ---- the results of a cycle in which every read works ----

  /** No later entry of the section has the address of an earlier real probe. */
  ghost predicate LastOfItsAddress(probes: seq<Probe>, i: nat)
    requires i < |probes|
  {
    forall j :: i < j < |probes| ==> probes[j].addr != probes[i].addr
  }

  ghost predicate RealAddressesUnshared(probes: seq<Probe>) {
    forall i :: 0 <= i < |probes| && probes[i].count != 0 ==> LastOfItsAddress(probes, i)
  }

  lemma {:induction false} IndexOfLast(probes: seq<Probe>, i: nat)
    requires i < |probes|
    ensures probes[i].addr in AddrToIdx(probes)
    ensures AddrToIdx(probes)[probes[i].addr] == i <==> LastOfItsAddress(probes, i)
  {
    var n := |probes| - 1;
    IndexPoints(probes);
    if i < n {
      IndexOfLast(probes[..n], i);
      if LastOfItsAddress(probes, i) {
        assert LastOfItsAddress(probes[..n], i);
      }
    }
  }

  lemma {:induction false} SlotForUnique(ms: seq<Message>, a: word, v: Slot)
    requires forall m :: m in ms && m.tag.probe.addr == a ==> SlotOfBody(m.body) == v
    requires exists t :: t in Labels(ms) && t.probe.addr == a
    ensures SlotFor(ms, a) == v
  {
    var n := |ms| - 1;
    if ms[n].tag.probe.addr != a {
      var t :| t in Labels(ms) && t.probe.addr == a;
      var k :| 0 <= k < |ms| && Labels(ms)[k] == t;
      assert Labels(ms[..n])[k] == t;
      SlotForUnique(ms[..n], a, v);
    }
  }

  /** Slots the index does not point at keep their zero value. */
  ghost predicate Untouched(idx: map<word, nat>, slots: seq<Slot>, i: nat) {
    i < |slots| && slots[i] == Empty && forall a :: a in idx ==> idx[a] != i
  }

  lemma {:induction false} FallbackUntouched(env: Env, idx: map<word, nat>, ms: seq<Mapping>, c: Cycle, f: bool, i: nat)
    requires Untouched(idx, c.slots, i)
    ensures Untouched(idx, Fallback(env, idx, ms, c, f).0.slots, i)
    decreases |ms|
  {
    if ms != [] && !env.cancelled(c.now) && !env.cancelled(c.now + 2) {
      var t, c0 := ms[0].tag, c.Tick();
      FallbackUntouched(env, idx, ms[1..], ReadAndReport(env, idx, t, c0), f && Answer(env, t, c0).Fail?, i);
    }
  }

  lemma {:induction false} ExtractUntouched(idx: map<word, nat>, ms: seq<Mapping>, data: seq<byte>, c: Cycle, i: nat)
    requires Untouched(idx, c.slots, i)
    ensures Untouched(idx, Extract(idx, ms, data, c).slots, i)
    decreases |ms|
  {
    if ms != [] {
      var m := ms[0];
      var end := m.offset + m.length;
      if end > |data| {
        ExtractUntouched(idx, ms[1..], data, c.Send(Message(m.tag, Error(SHORT_RESPONSE))), i);
      } else {
        var part := data[m.offset..end];
        var next := c.Send(Message(m.tag, Value(part))).Put(idx, m.tag.probe.addr, Got(part));
        ExtractUntouched(idx, ms[1..], data, next, i);
      }
    }
  }

  lemma {:induction false} PassUntouched(env: Env, idx: map<word, nat>, spans: seq<Span>, c: Cycle, i: nat)
    requires Untouched(idx, c.slots, i)
    ensures Untouched(idx, Pass(env, idx, spans, c).slots, i)
    decreases |spans|
  {
    if spans != [] && !c.stopped {
      var span, t, c1 := spans[0], c.tracker, c.Tick();
      var q := Request(span.start, span.total);
      FallbackUntouched(env, idx, span.probes, c1, true, i);
      FallbackUntouched(env, idx, span.probes, c1.Ask(q).(tracker := t.RecordFailure(span.start)), true, i);
      var reply := env.reply(c1.now, q);
      if reply.Data? {
        ExtractUntouched(idx, span.probes, reply.bytes, c1.Ask(q).(tracker := t.RecordSuccess(span.start)).Tick(), i);
      }
      PassUntouched(env, idx, spans[1..], SpanPass(env, idx, span, c), i);
    }
  }

  lemma {:induction false} LabelsDrop(ms: seq<Message>, n: nat)
    requires n <= |ms|
    ensures Labels(ms[n..]) == Labels(ms)[n..]
  {
  }

  /** A probe of the section that is real and alone at its address is the only
      thing the plan reads there. */
  lemma {:induction false} OnlyProbeThere(groups: seq<ProbeGroup>, plan: BatchPlan, i: nat, u: Tagged)
    requires IsPlan(groups, plan) && NoWrap(Real(Flatten(groups)))
    requires i < |FlattenProbes(groups)| && RealAddressesUnshared(FlattenProbes(groups))
    requires u in Placed(plan.spans) && FlattenProbes(groups)[i].count != 0
    requires u.probe.addr == FlattenProbes(groups)[i].addr
    ensures u.probe == FlattenProbes(groups)[i]
  {
    var j := PlacedSource(groups, plan, u);
    assert LastOfItsAddress(FlattenProbes(groups), i) && LastOfItsAddress(FlattenProbes(groups), j);
    assert i == j;
  }

  lemma {:induction false} PlacedSource(groups: seq<ProbeGroup>, plan: BatchPlan, u: Tagged) returns (j: nat)
    requires IsPlan(groups, plan) && NoWrap(Real(Flatten(groups))) && u in Placed(plan.spans)
    ensures j < |FlattenProbes(groups)| && FlattenProbes(groups)[j] == u.probe && u.probe.count != 0
  {
    var ts := PlanSource(groups, plan);
    SplitPreservesProbes(Flatten(groups));
    j :| 0 <= j < |Flatten(groups)| && Flatten(groups)[j] == u;
    FlattenAgree(groups);
  }

  /** The probe at place i of the section is placed in some span. */
  lemma {:induction false} ProbePlaced(groups: seq<ProbeGroup>, plan: BatchPlan, i: nat) returns (u: Tagged)
    requires IsPlan(groups, plan) && NoWrap(Real(Flatten(groups)))
    requires i < |FlattenProbes(groups)| && FlattenProbes(groups)[i].count != 0
    ensures u in Placed(plan.spans) && u.probe == FlattenProbes(groups)[i]
  {
    var ts := PlanSource(groups, plan);
    FlattenAgree(groups);
    SplitPreservesProbes(Flatten(groups));
    u := Flatten(groups)[i];
    assert u in Flatten(groups);
  }

  ghost predicate NoneSkipped(t: Tracker, spans: seq<Span>) {
    forall k :: 0 <= k < |spans| ==> Attempted(t.At(spans[k].start), t.cycle)
  }

  ghost predicate AllAlive(env: Env, spans: seq<Span>) {
    forall k :: 0 <= k < |spans| ==> Alive(env, spans[k])
  }

  /** An uncancelled cycle of a section's plan, every read of which works and
      answers from `mem`, with no span skipped. */
  ghost predicate GoodCycle(env: Env, mem: Memory, groups: seq<ProbeGroup>, plan: BatchPlan, h: History) {
    && IsPlan(groups, plan) && NoWrap(Real(Flatten(groups)))
    && Monotone(env) && Answers(env, mem) && AllAlive(env, plan.spans)
    && TrackerOk(h.tracker) && NoneSkipped(h.tracker.Tick(), plan.spans)
    && !ReadCycle(env, plan.spans, FlattenProbes(groups), h).stopped
  }

  /** What such a cycle sends. */
  ghost function Sent(env: Env, groups: seq<ProbeGroup>, plan: BatchPlan, h: History): (ms: seq<Message>) {
    var c := ReadCycle(env, plan.spans, FlattenProbes(groups), h);
    if |h.sent| <= |c.sent| then c.sent[|h.sent|..] else []
  }

  lemma {:induction false} SentExpected(env: Env, mem: Memory, groups: seq<ProbeGroup>, plan: BatchPlan, h: History)
    requires GoodCycle(env, mem, groups, plan, h)
    ensures Labels(Sent(env, groups, plan, h)) == Expected(h.tracker.Tick(), plan.spans)
    ensures forall u :: u in Expected(h.tracker.Tick(), plan.spans) <==> u in Placed(plan.spans)
  {
    var c := ReadCycle(env, plan.spans, FlattenProbes(groups), h);
    MessageConservation(env, groups, plan, FlattenProbes(groups), h);
    LabelsDrop(c.sent, |h.sent|);
    ExactCover(groups, plan);
    ExpectedSorted(h.tracker.Tick(), plan.spans);
    forall u | u in Placed(plan.spans)
      ensures u in Expected(h.tracker.Tick(), plan.spans)
    {
      PlacedMembers(plan.spans, u);
      ExpectedExactly(h.tracker.Tick(), plan.spans, u);
    }
  }

  lemma {:induction false} MessagesAt(env: Env, mem: Memory, groups: seq<ProbeGroup>, plan: BatchPlan, h: History,
                                      i: nat, m: Message)
    requires GoodCycle(env, mem, groups, plan, h)
    requires i < |FlattenProbes(groups)| && RealAddressesUnshared(FlattenProbes(groups))
    requires FlattenProbes(groups)[i].count != 0
    requires m in Sent(env, groups, plan, h) && m.tag.probe.addr == FlattenProbes(groups)[i].addr
    ensures SlotOfBody(m.body) == Got(ImageOf(mem, FlattenProbes(groups)[i]))
  {
    var sent := Sent(env, groups, plan, h);
    SentExpected(env, mem, groups, plan, h);
    CycleFaithful(env, mem, groups, plan, FlattenProbes(groups), h);
    var k :| 0 <= k < |sent| && sent[k] == m;
    assert Labels(sent)[k] == m.tag;
    OnlyProbeThere(groups, plan, i, m.tag);
    assert Truthful(m, env, mem, h.now, ReadCycle(env, plan.spans, FlattenProbes(groups), h).now);
    AliveRequest(env, plan.spans, m.tag);
  }

  lemma {:induction false} AliveRequest(env: Env, spans: seq<Span>, u: Tagged)
    requires AllAlive(env, spans) && u in Placed(spans)
    ensures forall t :: env.reply(t, RequestFor(u)).Data?
  {
    PlacedMembers(spans, u);
    var k :| 0 <= k < |spans| && u in TagsIn(spans[k].probes);
    var j :| 0 <= j < |spans[k].probes| && TagsIn(spans[k].probes)[j] == u;
    assert spans[k].probes[j] in spans[k].probes && Alive(env, spans[k]);
  }

  lemma {:induction false} SlotFilled(env: Env, mem: Memory, groups: seq<ProbeGroup>, plan: BatchPlan, h: History,
                                      i: nat)
    requires GoodCycle(env, mem, groups, plan, h)
    requires i < |FlattenProbes(groups)| && RealAddressesUnshared(FlattenProbes(groups))
    requires FlattenProbes(groups)[i].count != 0
    ensures var probes := FlattenProbes(groups);
      var c := ReadCycle(env, plan.spans, probes, h);
      |c.slots| > i && c.slots[i] == Got(ImageOf(mem, probes[i]))
  {
    var probes := FlattenProbes(groups);
    var sent, a, v := Sent(env, groups, plan, h), probes[i].addr, Got(ImageOf(mem, probes[i]));
    forall m | m in sent && m.tag.probe.addr == a
      ensures SlotOfBody(m.body) == v
    {
      MessagesAt(env, mem, groups, plan, h, i, m);
    }
    SentExpected(env, mem, groups, plan, h);
    var u := ProbePlaced(groups, plan, i);
    assert u in Labels(sent);
    SlotForUnique(sent, a, v);
    CycleFaithful(env, mem, groups, plan, probes, h);
    IndexOfLast(probes, i);
  }

  lemma {:induction false} SlotMissed(env: Env, spans: seq<Span>, probes: seq<Probe>, h: History, i: nat)
    requires i < |probes| && !LastOfItsAddress(probes, i)
    ensures var c := ReadCycle(env, spans, probes, h); |c.slots| > i && c.slots[i] == Empty
  {
    IndexOfLast(probes, i);
    IndexPoints(probes);
    assert Untouched(AddrToIdx(probes), Start(h, probes).slots, i);
    PassUntouched(env, AddrToIdx(probes), spans, Start(h, probes), i);
  }

  /** When every read works and no span is skipped, the batch cycle gives every
      real probe the result of its individual read exactly when no real probe
      shares its address with a later entry of the section. */
  lemma {:induction false} BatchRefinesIndividual(env: Env, mem: Memory, groups: seq<ProbeGroup>, plan: BatchPlan,
                                                  h: History)
    requires GoodCycle(env, mem, groups, plan, h)
    ensures var probes := FlattenProbes(groups);
      var c := ReadCycle(env, plan.spans, probes, h);
      && |c.slots| == |probes|
      && (RealAddressesUnshared(probes) <==>
          forall i :: 0 <= i < |probes| && probes[i].count != 0 ==> c.slots[i] == Got(ImageOf(mem, probes[i])))
  {
    var probes := FlattenProbes(groups);
    var c := ReadCycle(env, plan.spans, probes, h);
    PassSlots(env, AddrToIdx(probes), plan.spans, Start(h, probes));
    forall i | 0 <= i < |probes| && probes[i].count != 0
      ensures RealAddressesUnshared(probes) ==> c.slots[i] == Got(ImageOf(mem, probes[i]))
      ensures !LastOfItsAddress(probes, i) ==> c.slots[i] == Empty
    {
      if RealAddressesUnshared(probes) {
        SlotFilled(env, mem, groups, plan, h, i);
      } else if !LastOfItsAddress(probes, i) {
        SlotMissed(env, plan.spans, probes, h, i);
      }
    }
  }

  lemma {:induction false} PassSlots(env: Env, idx: map<word, nat>, spans: seq<Span>, c: Cycle)
    ensures |Pass(env, idx, spans, c).slots| == |c.slots|
    decreases |spans|
  {
    if spans != [] && !c.stopped {
      SpanPassPrefix(env, idx, spans[0], c);
      PassSlots(env, idx, spans[1..], SpanPass(env, idx, spans[0], c));
    }
  }
}
