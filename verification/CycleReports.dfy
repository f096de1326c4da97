/** What a read cycle reports for each probe and what it stores, byte by byte, for replies of
    any length. */
module CycleReports {
  import opened Registers
  import opened BatchPlanner
  import opened BatchPlanTheorems
  import opened SpanTrackers
  import opened ReadCycles
  import opened CycleTheorems
  import opened CycleData
  import opened TrackerRuns
  import opened CancelledCycles

  // ---- a span's response ----

  /** The response reaches to the end of the probe. */
  predicate Reaches(m: Mapping, data: seq<byte>) {
    m.offset + m.length <= |data|
  }

  /** The bytes of a probe in a response. */
  ghost predicate CutOut(m: Mapping, data: seq<byte>, bytes: seq<byte>) {
    Reaches(m, data) && |bytes| == m.length && forall j :: 0 <= j < |bytes| ==> bytes[j] == data[m.offset + j]
  }

  /** What is reported of a probe: its own bytes, or that the response is too short. */
  ghost predicate ReportsPart(m: Mapping, data: seq<byte>, body: Body) {
    if Reaches(m, data) then body.Value? && CutOut(m, data, body.bytes) else body == Error("short response")
  }

  /** A message for each of these probes was sent in between. */
  ghost predicate Reported(ms: seq<Mapping>, c: Cycle, d: Cycle) {
    && |d.sent| == |c.sent| + |ms| && c.sent <= d.sent
    && forall i :: 0 <= i < |ms| ==> MessageAt(c, d, i).tag == ms[i].tag
  }

  /** The i-th message sent since c. */
  function MessageAt(c: Cycle, d: Cycle, i: nat): Message
    requires |c.sent| + i < |d.sent|
  {
    d.sent[|c.sent| + i]
  }

  lemma {:induction false} ReportedCons(ms: seq<Mapping>, c: Cycle, m: Message, e: Cycle, d: Cycle)
    requires ms != [] && e.sent == c.sent + [m] && m.tag == ms[0].tag && Reported(ms[1..], e, d)
    ensures Reported(ms, c, d) && MessageAt(c, d, 0) == m
    ensures forall i :: 0 < i < |ms| ==> MessageAt(c, d, i) == MessageAt(e, d, i - 1)
  {
    assert e.sent == d.sent[..|e.sent|];
    assert d.sent[|c.sent|] == e.sent[|c.sent|];
    forall i | 0 <= i < |ms|
      ensures MessageAt(c, d, i).tag == ms[i].tag
    {
      if i > 0 {
        assert MessageAt(e, d, i - 1).tag == ms[1..][i - 1].tag;
      }
    }
  }

  /** One probe cut out. */
  function ExtractOne(idx: map<word, nat>, m: Mapping, data: seq<byte>, c: Cycle): Cycle {
    Extract(idx, [m], data, c)
  }

  lemma {:induction false} ExtractOneIs(idx: map<word, nat>, m: Mapping, data: seq<byte>, c: Cycle)
    ensures Reaches(m, data) ==>
      var part := data[m.offset..m.offset + m.length];
      ExtractOne(idx, m, data, c) == c.Send(Message(m.tag, Value(part))).Put(idx, m.tag.probe.addr, Got(part))
    ensures !Reaches(m, data) ==> ExtractOne(idx, m, data, c) == c.Send(Message(m.tag, Error("short response")))
  {
    assert [m][0] == m && [m][1..] == [];
    if Reaches(m, data) {
      var part := data[m.offset..m.offset + m.length];
      var next := c.Send(Message(m.tag, Value(part))).Put(idx, m.tag.probe.addr, Got(part));
      assert Extract(idx, [m], data, c) == Extract(idx, [m][1..], data, next);
      assert Extract(idx, [], data, next) == next;
    } else {
      var next := c.Send(Message(m.tag, Error("short response")));
      assert Extract(idx, [m], data, c) == Extract(idx, [m][1..], data, next);
      assert Extract(idx, [], data, next) == next;
    }
  }

  lemma {:induction false} ExtractCons(idx: map<word, nat>, ms: seq<Mapping>, data: seq<byte>, c: Cycle)
    requires ms != []
    ensures Extract(idx, ms, data, c) == Extract(idx, ms[1..], data, ExtractOne(idx, ms[0], data, c))
  {
    ExtractOneIs(idx, ms[0], data, c);
  }

  lemma {:induction false} OneReports(idx: map<word, nat>, m: Mapping, data: seq<byte>, c: Cycle)
      returns (x: Message)
    ensures ExtractOne(idx, m, data, c).sent == c.sent + [x] && x.tag == m.tag && ReportsPart(m, data, x.body)
  {
    ExtractOneIs(idx, m, data, c);
    x := Message(m.tag,
                 if Reaches(m, data) then Value(data[m.offset..m.offset + m.length]) else Error("short response"));
  }

  lemma {:induction false} ExtractReports(idx: map<word, nat>, ms: seq<Mapping>, data: seq<byte>, c: Cycle)
    ensures var d := Extract(idx, ms, data, c);
      Reported(ms, c, d) && forall i :: 0 <= i < |ms| ==> ReportsPart(ms[i], data, MessageAt(c, d, i).body)
    decreases |ms|
  {
    if ms != [] {
      var e, d := ExtractOne(idx, ms[0], data, c), Extract(idx, ms, data, c);
      ExtractCons(idx, ms, data, c);
      var x := OneReports(idx, ms[0], data, c);
      ExtractReports(idx, ms[1..], data, e);
      ReportedCons(ms, c, x, e, d);
      forall i | 0 <= i < |ms|
        ensures ReportsPart(ms[i], data, MessageAt(c, d, i).body)
      {
        if i > 0 {
          assert ReportsPart(ms[1..][i - 1], data, MessageAt(e, d, i - 1).body);
        }
      }
    }
  }

  /** Probe i is the last at its address that the response reaches. */
  ghost predicate LastReached(ms: seq<Mapping>, data: seq<byte>, i: nat)
    requires i < |ms|
  {
    && Reaches(ms[i], data)
    && forall j :: i < j < |ms| && Reaches(ms[j], data) ==> ms[j].tag.probe.addr != ms[i].tag.probe.addr
  }

  ghost predicate NoneReached(ms: seq<Mapping>, data: seq<byte>, a: word) {
    forall j :: 0 <= j < |ms| && Reaches(ms[j], data) ==> ms[j].tag.probe.addr != a
  }

  /** The slot of an address holds the bytes of the last such probe there, and is unchanged if
      there is none: a probe that is reported as too short stores nothing. */
  lemma {:induction false} ExtractStores(idx: map<word, nat>, ms: seq<Mapping>, data: seq<byte>, c: Cycle, a: word)
    requires OneToOne(idx) && a in idx && idx[a] < |c.slots|
    ensures var d := Extract(idx, ms, data, c);
      && |d.slots| == |c.slots|
      && (NoneReached(ms, data, a) ==> d.slots[idx[a]] == c.slots[idx[a]])
      && forall i :: 0 <= i < |ms| && ms[i].tag.probe.addr == a && LastReached(ms, data, i) ==>
           d.slots[idx[a]].Got? && CutOut(ms[i], data, d.slots[idx[a]].bytes)
    decreases |ms|
  {
    ExtractEffect(idx, ms, data, c);
    if ms != [] {
      var e := ExtractOne(idx, ms[0], data, c);
      ExtractCons(idx, ms, data, c);
      OneStores(idx, ms[0], data, c, a);
      ExtractStores(idx, ms[1..], data, e, a);
      StoresTail(ms, data, a);
      forall i | 0 < i < |ms| && ms[i].tag.probe.addr == a && LastReached(ms, data, i)
        ensures LastReached(ms[1..], data, i - 1) && ms[1..][i - 1] == ms[i]
      {
        assert forall j :: i - 1 < j < |ms[1..]| ==> ms[1..][j] == ms[j + 1];
      }
    }
  }

  lemma {:induction false} OneStores(idx: map<word, nat>, m: Mapping, data: seq<byte>, c: Cycle, a: word)
    requires OneToOne(idx) && a in idx && idx[a] < |c.slots|
    ensures var e := ExtractOne(idx, m, data, c);
      && |e.slots| == |c.slots|
      && if Reaches(m, data) && m.tag.probe.addr == a then
           e.slots[idx[a]].Got? && CutOut(m, data, e.slots[idx[a]].bytes)
         else
           e.slots[idx[a]] == c.slots[idx[a]]
  {
    ExtractOneIs(idx, m, data, c);
  }

  lemma {:induction false} StoresTail(ms: seq<Mapping>, data: seq<byte>, a: word)
    requires ms != []
    ensures NoneReached(ms, data, a) ==> NoneReached(ms[1..], data, a)
    ensures ms[0].tag.probe.addr == a && LastReached(ms, data, 0) ==> NoneReached(ms[1..], data, a)
  {
    assert forall j :: 0 <= j < |ms[1..]| ==> ms[1..][j] == ms[j + 1];
  }

  // ---- individual reads ----

  ghost predicate ReportsReply(r: Reply, body: Body) {
    match r
    case Data(bytes) => body == Value(bytes)
    case Fail(err) => body == Error(err)
  }

  ghost predicate StoresReply(r: Reply, slot: Slot) {
    match r
    case Data(bytes) => slot == Got(bytes)
    case Fail(err) => slot == Failed(err)
  }

  /** The reply to the i-th of some individual reads that begin at that moment. */
  function ReplyAt(env: Env, ms: seq<Mapping>, now: nat, i: nat): Reply
    requires i < |ms|
  {
    env.reply(now + 3 * i + 1, Request(ms[i].tag.probe.addr, ms[i].tag.probe.count))
  }

  lemma {:induction false} ReplyNext(env: Env, ms: seq<Mapping>, now: nat, i: nat)
    requires 0 < i < |ms|
    ensures ReplyAt(env, ms, now, i) == ReplyAt(env, ms[1..], now + 3, i - 1)
  {
    assert now + 3 * i + 1 == now + 3 + 3 * (i - 1) + 1;
  }

  lemma {:induction false} FallbackNext(env: Env, idx: map<word, nat>, ms: seq<Mapping>, c: Cycle, f: bool)
      returns (e: Cycle, g: bool, x: Message)
    requires Monotone(env) && !env.cancelled(Fallback(env, idx, ms, c, f).0.now) && ms != []
    ensures Fallback(env, idx, ms, c, f) == Fallback(env, idx, ms[1..], e, g) && e.now == c.now + 3
    ensures e.sent == c.sent + [x] && x.tag == ms[0].tag && ReportsReply(ReplyAt(env, ms, c.now, 0), x.body)
    ensures e == ReadAndReport(env, idx, ms[0].tag, c.Tick())
  {
    FallbackEffect(env, idx, ms, c, f);
    var t, c0 := ms[0].tag, c.Tick();
    assert !env.cancelled(c.now) && !env.cancelled(c.now + 2);
    e, g := ReadAndReport(env, idx, t, c0), f && Answer(env, t, c0).Fail?;
    x := Message(t, BodyOf(Answer(env, t, c0)));
  }

  lemma {:induction false} FallbackReports(env: Env, idx: map<word, nat>, ms: seq<Mapping>, c: Cycle, f: bool)
    requires Monotone(env) && !env.cancelled(Fallback(env, idx, ms, c, f).0.now)
    ensures var d := Fallback(env, idx, ms, c, f).0;
      && Reported(ms, c, d)
      && forall i :: 0 <= i < |ms| ==> ReportsReply(ReplyAt(env, ms, c.now, i), MessageAt(c, d, i).body)
    decreases |ms|
  {
    if ms != [] {
      var e, g, x := FallbackNext(env, idx, ms, c, f);
      var d := Fallback(env, idx, ms, c, f).0;
      FallbackReports(env, idx, ms[1..], e, g);
      ReportedCons(ms, c, x, e, d);
      forall i | 0 <= i < |ms|
        ensures ReportsReply(ReplyAt(env, ms, c.now, i), MessageAt(c, d, i).body)
      {
        if i > 0 {
          ReplyNext(env, ms, c.now, i);
          assert ReportsReply(ReplyAt(env, ms[1..], e.now, i - 1), MessageAt(e, d, i - 1).body);
        }
      }
    }
  }

  ghost predicate LastAt(ms: seq<Mapping>, i: nat)
    requires i < |ms|
  {
    forall j :: i < j < |ms| ==> ms[j].tag.probe.addr != ms[i].tag.probe.addr
  }

  /** The slot of an address holds what the last read there got, and is unchanged if there was
      none. */
  lemma {:induction false} FallbackStores(env: Env, idx: map<word, nat>, ms: seq<Mapping>, c: Cycle, f: bool, a: word)
    requires Monotone(env) && !env.cancelled(Fallback(env, idx, ms, c, f).0.now)
    requires OneToOne(idx) && a in idx && idx[a] < |c.slots|
    ensures var d := Fallback(env, idx, ms, c, f).0;
      && |d.slots| == |c.slots|
      && ((forall j :: 0 <= j < |ms| ==> ms[j].tag.probe.addr != a) ==> d.slots[idx[a]] == c.slots[idx[a]])
      && forall i :: 0 <= i < |ms| && ms[i].tag.probe.addr == a && LastAt(ms, i) ==>
           StoresReply(ReplyAt(env, ms, c.now, i), d.slots[idx[a]])
    decreases |ms|
  {
    FallbackEffect(env, idx, ms, c, f);
    if ms != [] {
      var e, g, x := FallbackNext(env, idx, ms, c, f);
      ReadStores(env, idx, ms, c, a);
      FallbackStores(env, idx, ms[1..], e, g, a);
      assert forall j :: 0 <= j < |ms[1..]| ==> ms[1..][j] == ms[j + 1];
      assert ms[0].tag.probe.addr == a && LastAt(ms, 0) ==>
             forall j :: 0 <= j < |ms[1..]| ==> ms[1..][j].tag.probe.addr != a;
      forall i | 0 < i < |ms| && ms[i].tag.probe.addr == a && LastAt(ms, i)
        ensures LastAt(ms[1..], i - 1) && ReplyAt(env, ms, c.now, i) == ReplyAt(env, ms[1..], e.now, i - 1)
      {
        ReplyNext(env, ms, c.now, i);
      }
    }
  }

  lemma {:induction false} ReadStores(env: Env, idx: map<word, nat>, ms: seq<Mapping>, c: Cycle, a: word)
    requires ms != [] && OneToOne(idx) && a in idx && idx[a] < |c.slots|
    ensures var e := ReadAndReport(env, idx, ms[0].tag, c.Tick());
      && |e.slots| == |c.slots|
      && if ms[0].tag.probe.addr == a then StoresReply(ReplyAt(env, ms, c.now, 0), e.slots[idx[a]])
         else e.slots[idx[a]] == c.slots[idx[a]]
  {
  }

  // ---- a pass over a span ----

  /** Whether the probes of a span are cut out of its response, and if not, when their own
      reads begin. */
  predicate FromBatch(env: Env, span: Span, c: Cycle) {
    Batching(span, c) && BatchOk(env, span, c.now + 1)
  }

  function ReadsBegin(span: Span, c: Cycle): nat {
    if Batching(span, c) then c.now + 2 else c.now + 1
  }

  function BatchData(env: Env, span: Span, c: Cycle): seq<byte>
    requires FromBatch(env, span, c)
  {
    env.reply(c.now + 1, Request(span.start, span.total)).bytes
  }

  /** What an uncancelled pass over an attempted span reports of its i-th probe: its own part
      of the span's response, or the response to its own read. */
  ghost predicate ReportsProbe(env: Env, span: Span, c: Cycle, i: nat, body: Body)
    requires i < |span.probes|
  {
    if FromBatch(env, span, c) then ReportsPart(span.probes[i], BatchData(env, span, c), body)
    else ReportsReply(ReplyAt(env, span.probes, ReadsBegin(span, c), i), body)
  }

  lemma {:induction false} SpanReports(env: Env, idx: map<word, nat>, span: Span, c: Cycle)
    requires Monotone(env) && !c.stopped && !SpanPass(env, idx, span, c).stopped
    requires Attempted(c.tracker.At(span.start), c.tracker.cycle)
    ensures var d := SpanPass(env, idx, span, c);
      && Reported(span.probes, c, d)
      && forall i :: 0 <= i < |span.probes| ==> ReportsProbe(env, span, c, i, MessageAt(c, d, i).body)
  {
    var c1, q := c.Tick(), Request(span.start, span.total);
    if FromBatch(env, span, c) {
      var e := c1.Ask(q).(tracker := c.tracker.RecordSuccess(span.start)).Tick();
      ExtractReports(idx, span.probes, BatchData(env, span, c), e);
      ReportedFrom(span.probes, c, e, SpanPass(env, idx, span, c));
    } else {
      var e := if Batching(span, c) then c1.Ask(q).(tracker := c.tracker.RecordFailure(span.start)) else c1;
      ReadsReport(env, idx, span, c, e);
    }
  }

  lemma {:induction false} ReportedFrom(ms: seq<Mapping>, c: Cycle, e: Cycle, d: Cycle)
    requires e.sent == c.sent && Reported(ms, e, d)
    ensures Reported(ms, c, d) && forall i :: 0 <= i < |ms| ==> MessageAt(c, d, i) == MessageAt(e, d, i)
  {
    forall i | 0 <= i < |ms|
      ensures MessageAt(c, d, i) == MessageAt(e, d, i) && MessageAt(c, d, i).tag == ms[i].tag
    {
      assert MessageAt(e, d, i).tag == ms[i].tag;
    }
  }

  /** The individual reads of a pass begin in e, and nothing is sent or stored behind them. */
  lemma {:induction false} ReadsEnd(env: Env, idx: map<word, nat>, span: Span, c: Cycle, e: Cycle)
    requires Monotone(env) && !FromBatch(env, span, c) && !c.stopped && !SpanPass(env, idx, span, c).stopped
    requires Attempted(c.tracker.At(span.start), c.tracker.cycle)
    requires var c1, q := c.Tick(), Request(span.start, span.total);
      e == if Batching(span, c) then c1.Ask(q).(tracker := c.tracker.RecordFailure(span.start)) else c1
    ensures var d, f := SpanPass(env, idx, span, c), Fallback(env, idx, span.probes, e, true).0;
      d.sent == f.sent && d.slots == f.slots && !env.cancelled(f.now) && e.now == ReadsBegin(span, c)
  {
    FallbackEffect(env, idx, span.probes, e, true);
  }

  lemma {:induction false} ReadsReport(env: Env, idx: map<word, nat>, span: Span, c: Cycle, e: Cycle)
    requires Monotone(env) && !FromBatch(env, span, c) && !c.stopped && !SpanPass(env, idx, span, c).stopped
    requires Attempted(c.tracker.At(span.start), c.tracker.cycle)
    requires var c1, q := c.Tick(), Request(span.start, span.total);
      e == if Batching(span, c) then c1.Ask(q).(tracker := c.tracker.RecordFailure(span.start)) else c1
    ensures var d := SpanPass(env, idx, span, c);
      && Reported(span.probes, c, d)
      && forall i :: 0 <= i < |span.probes| ==>
           ReportsReply(ReplyAt(env, span.probes, ReadsBegin(span, c), i), MessageAt(c, d, i).body)
  {
    var d := SpanPass(env, idx, span, c);
    ReadsEnd(env, idx, span, c, e);
    FallbackReports(env, idx, span.probes, e, true);
    ReportedFrom(span.probes, c, e, Fallback(env, idx, span.probes, e, true).0);
    SameSent(span.probes, c, Fallback(env, idx, span.probes, e, true).0, d);
  }

  lemma {:induction false} SameSent(ms: seq<Mapping>, c: Cycle, e: Cycle, d: Cycle)
    requires e.sent == d.sent && Reported(ms, c, e)
    ensures Reported(ms, c, d) && forall i :: 0 <= i < |ms| ==> MessageAt(c, d, i) == MessageAt(c, e, i)
  {
    forall i | 0 <= i < |ms|
      ensures MessageAt(c, d, i) == MessageAt(c, e, i) && MessageAt(c, d, i).tag == ms[i].tag
    {
      assert MessageAt(c, e, i).tag == ms[i].tag;
    }
  }

  /** For the spans of a plan: a probe is reported as too short exactly if the response ends
      before it does, and otherwise as the two bytes of each of its registers. */
  lemma {:induction false} ShortExactly(span: Span, m: Mapping, data: seq<byte>, body: Body)
    requires WellPlaced(m, span) && ReportsPart(m, data, body)
    ensures body == Error("short response") <==> 2 * (m.tag.Hi() - span.start) > |data|
    ensures body.Value? <==> 2 * (m.tag.Hi() - span.start) <= |data|
    ensures body.Value? ==>
      && |body.bytes| == 2 * m.tag.probe.count
      && forall j :: 0 <= j < |body.bytes| ==> body.bytes[j] == data[2 * (m.tag.Lo() - span.start) + j]
  {
  }

  /** What it stores: the slot of an address holds what was last got there. */
  lemma {:induction false} SpanStores(env: Env, idx: map<word, nat>, span: Span, c: Cycle, a: word)
    requires Monotone(env) && !c.stopped && !SpanPass(env, idx, span, c).stopped
    requires Attempted(c.tracker.At(span.start), c.tracker.cycle)
    requires OneToOne(idx) && a in idx && idx[a] < |c.slots|
    ensures |SpanPass(env, idx, span, c).slots| == |c.slots|
    ensures var before, after := c.slots[idx[a]], SpanPass(env, idx, span, c).slots[idx[a]];
      if FromBatch(env, span, c) then
        && (NoneReached(span.probes, BatchData(env, span, c), a) ==> after == before)
        && forall i :: 0 <= i < |span.probes| && span.probes[i].tag.probe.addr == a
                       && LastReached(span.probes, BatchData(env, span, c), i) ==>
             after.Got? && CutOut(span.probes[i], BatchData(env, span, c), after.bytes)
      else
        && ((forall j :: 0 <= j < |span.probes| ==> span.probes[j].tag.probe.addr != a) ==> after == before)
        && forall i :: 0 <= i < |span.probes| && span.probes[i].tag.probe.addr == a && LastAt(span.probes, i) ==>
             StoresReply(ReplyAt(env, span.probes, ReadsBegin(span, c), i), after)
  {
    var c1, q := c.Tick(), Request(span.start, span.total);
    if FromBatch(env, span, c) {
      var e := c1.Ask(q).(tracker := c.tracker.RecordSuccess(span.start)).Tick();
      ExtractStores(idx, span.probes, BatchData(env, span, c), e, a);
      assert SpanPass(env, idx, span, c) == Extract(idx, span.probes, BatchData(env, span, c), e);
    } else {
      var e := if Batching(span, c) then c1.Ask(q).(tracker := c.tracker.RecordFailure(span.start)) else c1;
      ReadsEnd(env, idx, span, c, e);
      FallbackStores(env, idx, span.probes, e, true, a);
    }
  }

  // ---- a whole cycle ----

  lemma {:induction false} PassSnoc(env: Env, idx: map<word, nat>, spans: seq<Span>, c: Cycle, k: nat)
    requires k < |spans| && !Pass(env, idx, spans[..k], c).stopped
    ensures Pass(env, idx, spans[..k + 1], c) == SpanPass(env, idx, spans[k], Pass(env, idx, spans[..k], c))
    decreases k
  {
    if k == 0 {
      assert spans[..1][1..] == [];
    } else {
      var e := SpanPass(env, idx, spans[0], c);
      assert spans[..k][1..] == spans[1..][..k - 1] && spans[..k + 1][1..] == spans[1..][..k];
      PassSnoc(env, idx, spans[1..], e, k - 1);
    }
  }

  /** A pass keeps the messages of its beginning and, uncancelled, was never cancelled. */
  lemma {:induction false} PassPrefix(env: Env, idx: map<word, nat>, spans: seq<Span>, c: Cycle, k: nat)
    requires Monotone(env) && k <= |spans| && !c.stopped && !Pass(env, idx, spans, c).stopped
    ensures !Pass(env, idx, spans[..k], c).stopped
    ensures |Pass(env, idx, spans[..k], c).sent| <= |Pass(env, idx, spans, c).sent|
    ensures Pass(env, idx, spans[..k], c).sent <= Pass(env, idx, spans, c).sent
    decreases |spans| - k
  {
    if k == |spans| {
      assert spans[..k] == spans;
    } else {
      PassPrefix(env, idx, spans, c, k + 1);
      var d := Pass(env, idx, spans[..k], c);
      if !d.stopped {
        PassSnoc(env, idx, spans, c, k);
        SpanGrows(env, idx, spans[k], d);
      } else {
        StoppedPrefix(env, idx, spans, c, k);
      }
    }
  }

  lemma {:induction false} StoppedPrefix(env: Env, idx: map<word, nat>, spans: seq<Span>, c: Cycle, k: nat)
    requires k < |spans| && Pass(env, idx, spans[..k], c).stopped
    ensures Pass(env, idx, spans[..k + 1], c).stopped
    decreases k
  {
    if k > 0 && !c.stopped {
      assert spans[..k][1..] == spans[1..][..k - 1] && spans[..k + 1][1..] == spans[1..][..k];
      StoppedPrefix(env, idx, spans[1..], SpanPass(env, idx, spans[0], c), k - 1);
    }
  }

  lemma {:induction false} SpanGrows(env: Env, idx: map<word, nat>, span: Span, c: Cycle)
    requires Monotone(env) && !c.stopped && !SpanPass(env, idx, span, c).stopped
    ensures c.sent <= SpanPass(env, idx, span, c).sent
  {
    if Attempted(c.tracker.At(span.start), c.tracker.cycle) {
      SpanReports(env, idx, span, c);
    } else {
      SpanPassPrefix(env, idx, span, c);
    }
  }

  /** In an uncancelled cycle the messages of the k-th span, if it is attempted, are those
      said above, each for its own probe, in their place among all. */
  lemma {:induction false} CycleReportsSpan(env: Env, spans: seq<Span>, probes: seq<Probe>, h: History, k: nat)
    requires Monotone(env) && k < |spans| && !ReadCycle(env, spans, probes, h).stopped
    ensures var c, d := Pass(env, AddrToIdx(probes), spans[..k], Start(h, probes)), ReadCycle(env, spans, probes, h);
      Attempted(c.tracker.At(spans[k].start), c.tracker.cycle) ==>
        && |c.sent| + |spans[k].probes| <= |d.sent|
        && forall i :: 0 <= i < |spans[k].probes| ==>
             && MessageAt(c, d, i).tag == spans[k].probes[i].tag
             && ReportsProbe(env, spans[k], c, i, MessageAt(c, d, i).body)
  {
    var idx, c0, all := AddrToIdx(probes), Start(h, probes), ReadCycle(env, spans, probes, h);
    PassPrefix(env, idx, spans, c0, k);
    PassPrefix(env, idx, spans, c0, k + 1);
    var c := Pass(env, idx, spans[..k], c0);
    PassSnoc(env, idx, spans, c0, k);
    if Attempted(c.tracker.At(spans[k].start), c.tracker.cycle) {
      SpanReports(env, idx, spans[k], c);
      InPlace(env, spans[k], c, SpanPass(env, idx, spans[k], c), all);
    }
  }

  lemma {:induction false} InPlace(env: Env, span: Span, c: Cycle, d: Cycle, all: Cycle)
    requires Reported(span.probes, c, d) && d.sent <= all.sent
    requires forall i :: 0 <= i < |span.probes| ==> ReportsProbe(env, span, c, i, MessageAt(c, d, i).body)
    ensures forall i :: 0 <= i < |span.probes| ==>
      && MessageAt(c, all, i).tag == span.probes[i].tag
      && ReportsProbe(env, span, c, i, MessageAt(c, all, i).body)
  {
    assert d.sent == all.sent[..|d.sent|];
    forall i | 0 <= i < |span.probes|
      ensures MessageAt(c, all, i).tag == span.probes[i].tag
      ensures ReportsProbe(env, span, c, i, MessageAt(c, all, i).body)
    {
      assert MessageAt(c, all, i) == MessageAt(c, d, i);
    }
  }
}
