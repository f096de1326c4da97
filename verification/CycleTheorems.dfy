/** What one read cycle does to the tracker, which messages it sends and which
    requests it costs, whatever the broker replies. */
module CycleTheorems {
  import opened Registers
  import opened BatchPlanner
  import opened BatchPlanTheorems
  import opened SpanTrackers
  import opened ReadCycles

  // ---- one span record ----

  predicate Probing(r: Record, cycle: nat) {
    r.state != Normal && cycle > 0 && cycle % PROBE_INTERVAL == 0
  }

  predicate Attempted(r: Record, cycle: nat) {
    r.state != Skipped || Probing(r, cycle)
  }

  /** What one uncancelled cycle does to a span, given whether its batch read
      and whether any of its individual reads succeed. */
  function SpanStep(r: Record, threshold: int, cycle: nat, batchOk: bool, someOk: bool): Record {
    if r.state == Skipped && !Probing(r, cycle) then r
    else if r.state == Degraded && !Probing(r, cycle) then
      if someOk then FRESH
      else Record(r.failCount, if r.indivFails >= 1 then Skipped else Degraded, r.indivFails + 1)
    else if batchOk then FRESH
    else Record(r.failCount + 1, if r.state == Normal && r.failCount + 1 >= threshold then Degraded else r.state,
                r.indivFails)
  }

  /** The state of a span determines its counters up to their thresholds. */
  ghost predicate Consistent(r: Record, threshold: int) {
    match r.state
    case Normal => r.failCount < threshold && r.indivFails == 0
    case Degraded => r.failCount >= threshold && r.indivFails <= 1
    case Skipped => r.failCount >= threshold && r.indivFails == 2
  }

  ghost predicate TrackerOk(t: Tracker) {
    t.threshold >= 1 && forall a: word :: Consistent(t.At(a), t.threshold)
  }

  /** Only the record of one address may differ. */
  ghost predicate SameBut(t: Tracker, u: Tracker, a: word) {
    && t.threshold == u.threshold && t.cycle == u.cycle
    && forall b: word :: b != a ==> t.At(b) == u.At(b)
  }

  /** The guarded reset of `RecordSuccess` clears the record completely. */
  lemma {:induction false} SuccessResets(t: Tracker, a: word)
    requires Consistent(t.At(a), t.threshold)
    ensures t.RecordSuccess(a).At(a) == FRESH && SameBut(t, t.RecordSuccess(a), a)
  {
  }

  /** Without that consistency the guard leaves a stale individual counter
      behind exactly when there is one. */
  lemma {:induction false} SuccessResetsExactly(t: Tracker, a: word)
    ensures t.RecordSuccess(a).At(a) == FRESH <==>
            (t.At(a).failCount > 0 || t.State(a) != Normal || t.At(a).indivFails == 0)
  {
    assert t.At(a).state == t.State(a);
  }

  lemma {:induction false} FailureCounts(t: Tracker, a: word)
    ensures SameBut(t, t.RecordFailure(a), a)
    ensures var r := t.At(a);
      t.RecordFailure(a).At(a) ==
      Record(r.failCount + 1,
             if r.state == Normal && r.failCount + 1 >= t.threshold then Degraded else r.state,
             r.indivFails)
  {
  }

  lemma {:induction false} IndividualFailureCounts(t: Tracker, a: word)
    ensures SameBut(t, t.RecordIndividualFailure(a), a)
    ensures var r := t.At(a);
      t.RecordIndividualFailure(a).At(a) ==
      Record(r.failCount, if r.indivFails >= 1 then Skipped else r.state, r.indivFails + 1)
  {
  }

  lemma {:induction false} StepConsistent(r: Record, threshold: int, cycle: nat, batchOk: bool, someOk: bool)
    requires threshold >= 1 && Consistent(r, threshold)
    ensures Consistent(SpanStep(r, threshold, cycle, batchOk, someOk), threshold)
  {
  }

  // ---- cancellation ----

  /** A cancelled context stays cancelled. */
  ghost predicate Monotone(env: Env) {
    forall s, t :: s <= t && env.cancelled(s) ==> env.cancelled(t)
  }

  function Labels(ms: seq<Message>): (ts: seq<Tagged>)
    ensures |ts| == |ms|
  {
    seq(|ms|, i requires 0 <= i < |ms| => ms[i].tag)
  }

  lemma {:induction false} LabelsSnoc(ms: seq<Message>, m: Message)
    ensures Labels(ms + [m]) == Labels(ms) + [m.tag]
  {
  }

  lemma {:induction false} TagsCons(ms: seq<Mapping>)
    requires ms != []
    ensures TagsIn(ms) == [ms[0].tag] + TagsIn(ms[1..])
  {
  }

  function Individual(ms: seq<Mapping>): (rs: seq<Request>)
    ensures |rs| == |ms|
  {
    seq(|ms|, i requires 0 <= i < |ms| => RequestFor(ms[i].tag))
  }

  lemma {:induction false} ReadOneEffect(env: Env, idx: map<word, nat>, t: Tagged, c: Cycle)
    ensures var d, e := ReadOne(env, idx, t, c), ReadAndReport(env, idx, t, c);
      && d.now == e.now == c.now + 2 && d.tracker == e.tracker == c.tracker && d.stopped == e.stopped == c.stopped
      && |d.slots| == |e.slots| == |c.slots| && d.asked == e.asked == c.asked + [RequestFor(t)]
      && d.sent == c.sent && Labels(e.sent) == Labels(c.sent) + [t]
  {
    LabelsSnoc(c.sent, Message(t, BodyOf(Answer(env, t, c))));
  }

  /** Individual reads leave the tracker alone and send the labels of the probes
      in order; cancellation can only cut that sequence short. */
  lemma {:induction false} FallbackEffect(env: Env, idx: map<word, nat>, ms: seq<Mapping>, c: Cycle, f: bool)
    ensures var (d, g) := Fallback(env, idx, ms, c, f);
      && d.tracker == c.tracker && d.stopped == c.stopped && d.now >= c.now && |d.slots| == |c.slots|
      && Labels(c.sent) <= Labels(d.sent) <= Labels(c.sent) + TagsIn(ms)
      && c.asked <= d.asked <= c.asked + Individual(ms)
    decreases |ms|
  {
    if ms != [] && !env.cancelled(c.now) {
      var t, c0 := ms[0].tag, c.Tick();
      TagsCons(ms);
      ReadOneEffect(env, idx, t, c0);
      var e := ReadAndReport(env, idx, t, c0);
      assert c.asked + Individual(ms) == e.asked + Individual(ms[1..]);
      assert Labels(c.sent) + TagsIn(ms) == Labels(e.sent) + TagsIn(ms[1..]);
      if !env.cancelled(c.now + 2) {
        FallbackEffect(env, idx, ms[1..], e, f && Answer(env, t, c0).Fail?);
      }
    }
  }

  /** Whether a span's batch read works when it is sent at that moment. */
  predicate BatchOk(env: Env, span: Span, now: nat) {
    env.reply(now, Request(span.start, span.total)).Data?
  }

  /** Whether any of these individual reads works when they begin at that moment. */
  predicate SomeOk(env: Env, ms: seq<Mapping>, now: nat)
    decreases |ms|
  {
    ms != [] && (env.reply(now + 1, RequestFor(ms[0].tag)).Data? || SomeOk(env, ms[1..], now + 3))
  }

  /** Uncancelled, every probe is read and reported once. */
  lemma {:induction false} FallbackComplete(env: Env, idx: map<word, nat>, ms: seq<Mapping>, c: Cycle, f: bool)
    requires Monotone(env) && !env.cancelled(Fallback(env, idx, ms, c, f).0.now)
    ensures var (d, g) := Fallback(env, idx, ms, c, f);
      && Labels(d.sent) == Labels(c.sent) + TagsIn(ms)
      && d.asked == c.asked + Individual(ms)
      && g == (f && !SomeOk(env, ms, c.now))
    decreases |ms|
  {
    if ms != [] {
      FallbackEffect(env, idx, ms, c, f);
      var t, c0 := ms[0].tag, c.Tick();
      assert !env.cancelled(c.now);
      ReadOneEffect(env, idx, t, c0);
      assert !env.cancelled(c.now + 2);
      TagsCons(ms);
      assert Individual(ms) == [RequestFor(t)] + Individual(ms[1..]);
      FallbackComplete(env, idx, ms[1..], ReadAndReport(env, idx, t, c0), f && Answer(env, t, c0).Fail?);
    }
  }

  lemma {:induction false} ExtractEffect(idx: map<word, nat>, ms: seq<Mapping>, data: seq<byte>, c: Cycle)
    ensures var d := Extract(idx, ms, data, c);
      && d.tracker == c.tracker && d.stopped == c.stopped && d.now == c.now && d.asked == c.asked
      && |d.slots| == |c.slots| && Labels(d.sent) == Labels(c.sent) + TagsIn(ms)
    decreases |ms|
  {
    if ms != [] {
      var m := ms[0];
      var end := m.offset + m.length;
      TagsCons(ms);
      if end > |data| {
        LabelsSnoc(c.sent, Message(m.tag, Error(SHORT_RESPONSE)));
        ExtractEffect(idx, ms[1..], data, c.Send(Message(m.tag, Error(SHORT_RESPONSE))));
      } else {
        var part := data[m.offset..end];
        LabelsSnoc(c.sent, Message(m.tag, Value(part)));
        ExtractEffect(idx, ms[1..], data, c.Send(Message(m.tag, Value(part))).Put(idx, m.tag.probe.addr, Got(part)));
      }
    }
  }

  // ---- one span ----

  /** Every read aimed at this span works; other spans may be dead. */
  ghost predicate Alive(env: Env, span: Span) {
    && (forall t :: env.reply(t, Request(span.start, span.total)).Data?)
    && (forall t, m :: m in span.probes ==> env.reply(t, RequestFor(m.tag)).Data?)
  }

  /** Every read aimed at this span fails; other spans may be fine. */
  ghost predicate Dead(env: Env, span: Span) {
    && (forall t :: env.reply(t, Request(span.start, span.total)).Fail?)
    && (forall t, m :: m in span.probes ==> env.reply(t, RequestFor(m.tag)).Fail?)
  }

  lemma {:induction false} NoneOk(env: Env, ms: seq<Mapping>, now: nat)
    requires forall t, m :: m in ms ==> env.reply(t, RequestFor(m.tag)).Fail?
    ensures !SomeOk(env, ms, now)
    decreases |ms|
  {
    if ms != [] {
      NoneOk(env, ms[1..], now + 3);
    }
  }

  /** Everything a span may cost in one cycle. */
  function FullCost(span: Span): seq<Request> {
    [Request(span.start, span.total)] + Individual(span.probes)
  }

  /** What a pass over a span adds: in order, at most one message per probe and
      at most one request for the span and one for each probe. */
  ghost predicate Adds(span: Span, c: Cycle, d: Cycle) {
    && |d.slots| == |c.slots|
    && Labels(c.sent) <= Labels(d.sent) <= Labels(c.sent) + TagsIn(span.probes)
    && c.asked <= d.asked
    && (d.asked <= c.asked + Individual(span.probes) || d.asked <= c.asked + FullCost(span))
  }

  lemma {:induction false} IndividuallyComplete(env: Env, idx: map<word, nat>, span: Span, c: Cycle)
    requires Monotone(env) && Consistent(c.tracker.At(span.start), c.tracker.threshold)
    requires c.tracker.State(span.start) == Degraded && span.probes != []
    requires !c.stopped && !Individually(env, idx, span, c).stopped
    ensures var d, r := Individually(env, idx, span, c), c.tracker.At(span.start);
      && SameBut(c.tracker, d.tracker, span.start)
      && d.tracker.At(span.start) ==
         (if SomeOk(env, span.probes, c.now) then FRESH
          else Record(r.failCount, if r.indivFails >= 1 then Skipped else Degraded, r.indivFails + 1))
      && Labels(d.sent) == Labels(c.sent) + TagsIn(span.probes)
  {
    FallbackEffect(env, idx, span.probes, c, true);
    FallbackComplete(env, idx, span.probes, c, true);
    SuccessResets(c.tracker, span.start);
    IndividualFailureCounts(c.tracker, span.start);
  }

  lemma {:induction false} BatchedComplete(env: Env, idx: map<word, nat>, span: Span, c: Cycle)
    requires Monotone(env) && Consistent(c.tracker.At(span.start), c.tracker.threshold)
    requires !c.stopped && !Batched(env, idx, span, c).stopped
    ensures var d, r := Batched(env, idx, span, c), c.tracker.At(span.start);
      && SameBut(c.tracker, d.tracker, span.start)
      && d.tracker.At(span.start) ==
         (if BatchOk(env, span, c.now) then FRESH
          else Record(r.failCount + 1,
                      if r.state == Normal && r.failCount + 1 >= c.tracker.threshold then Degraded else r.state,
                      r.indivFails))
      && Labels(d.sent) == Labels(c.sent) + TagsIn(span.probes)
  {
    var q := Request(span.start, span.total);
    var reply := env.reply(c.now, q);
    if reply.Data? {
      SuccessResets(c.tracker, span.start);
      ExtractEffect(idx, span.probes, reply.bytes, c.Ask(q).(tracker := c.tracker.RecordSuccess(span.start)).Tick());
    } else {
      FailureCounts(c.tracker, span.start);
      var c1 := c.Ask(q).(tracker := c.tracker.RecordFailure(span.start));
      FallbackEffect(env, idx, span.probes, c1, true);
      FallbackComplete(env, idx, span.probes, c1, true);
    }
  }

  /** An uncancelled pass over a span takes exactly one step of its record, decided by the
      answers to its own requests, sends one message per probe if the span is attempted,
      and none otherwise. */
  lemma {:induction false} SpanPassComplete(env: Env, idx: map<word, nat>, span: Span, c: Cycle)
    requires Monotone(env) && !c.stopped && Consistent(c.tracker.At(span.start), c.tracker.threshold)
    requires span.probes != [] && !SpanPass(env, idx, span, c).stopped
    ensures var d := SpanPass(env, idx, span, c);
      && SameBut(c.tracker, d.tracker, span.start)
      && d.tracker.At(span.start) ==
         SpanStep(c.tracker.At(span.start), c.tracker.threshold, c.tracker.cycle,
                  BatchOk(env, span, c.now + 1), SomeOk(env, span.probes, c.now + 1))
      && Labels(d.sent) == Labels(c.sent) +
         if Attempted(c.tracker.At(span.start), c.tracker.cycle) then TagsIn(span.probes) else []
  {
    var r := c.tracker.At(span.start);
    var probing := Probing(r, c.tracker.cycle);
    assert c.tracker.ShouldProbe(span.start) == probing && r.state == c.tracker.State(span.start);
    if r.state == Degraded && !probing {
      IndividuallyComplete(env, idx, span, c.Tick());
    } else if Attempted(r, c.tracker.cycle) {
      BatchedComplete(env, idx, span, c.Tick());
    }
  }

  lemma {:induction false} IndividuallyKeepsOk(env: Env, idx: map<word, nat>, span: Span, c: Cycle)
    requires TrackerOk(c.tracker) && c.tracker.State(span.start) == Degraded
    ensures var d := Individually(env, idx, span, c);
      TrackerOk(d.tracker) && SameBut(c.tracker, d.tracker, span.start)
  {
    var t, a := c.tracker, span.start;
    assert Consistent(t.At(a), t.threshold);
    FallbackEffect(env, idx, span.probes, c, true);
    SuccessResets(t, a);
    KeepsOk(t, t.RecordSuccess(a), a);
    IndividualFailureCounts(t, a);
    KeepsOk(t, t.RecordIndividualFailure(a), a);
  }

  lemma {:induction false} BatchedKeepsOk(env: Env, idx: map<word, nat>, span: Span, c: Cycle)
    requires TrackerOk(c.tracker)
    ensures var d := Batched(env, idx, span, c);
      TrackerOk(d.tracker) && SameBut(c.tracker, d.tracker, span.start)
  {
    var t, a, q := c.tracker, span.start, Request(span.start, span.total);
    assert Consistent(t.At(a), t.threshold);
    var reply := env.reply(c.now, q);
    if reply.Data? {
      SuccessResets(t, a);
      KeepsOk(t, t.RecordSuccess(a), a);
      ExtractEffect(idx, span.probes, reply.bytes, c.Ask(q).(tracker := t.RecordSuccess(a)).Tick());
    } else {
      FailureCounts(t, a);
      KeepsOk(t, t.RecordFailure(a), a);
      FallbackEffect(env, idx, span.probes, c.Ask(q).(tracker := t.RecordFailure(a)), true);
    }
  }

  /** Any pass over a span, cancelled or not, keeps the tracker consistent and
      touches no other span. */
  lemma {:induction false} SpanPassKeepsOk(env: Env, idx: map<word, nat>, span: Span, c: Cycle)
    requires TrackerOk(c.tracker)
    ensures var d := SpanPass(env, idx, span, c);
      TrackerOk(d.tracker) && SameBut(c.tracker, d.tracker, span.start)
  {
    if c.tracker.State(span.start) == Degraded {
      IndividuallyKeepsOk(env, idx, span, c.Tick());
    }
    BatchedKeepsOk(env, idx, span, c.Tick());
  }

  lemma {:induction false} KeepsOk(t: Tracker, u: Tracker, a: word)
    requires TrackerOk(t) && SameBut(t, u, a) && Consistent(u.At(a), t.threshold)
    ensures TrackerOk(u)
  {
    forall b: word ensures Consistent(u.At(b), u.threshold) {
      assert b != a ==> u.At(b) == t.At(b);
      assert Consistent(t.At(b), t.threshold);
    }
  }

  lemma {:induction false} IndividuallyPrefix(env: Env, idx: map<word, nat>, span: Span, c: Cycle)
    ensures Adds(span, c, Individually(env, idx, span, c))
  {
    FallbackEffect(env, idx, span.probes, c, true);
  }

  lemma {:induction false} BatchedPrefix(env: Env, idx: map<word, nat>, span: Span, c: Cycle)
    ensures Adds(span, c, Batched(env, idx, span, c))
  {
    var q := Request(span.start, span.total);
    var reply := env.reply(c.now, q);
    if reply.Data? {
      ExtractEffect(idx, span.probes, reply.bytes, c.Ask(q).(tracker := c.tracker.RecordSuccess(span.start)).Tick());
      assert c.asked + [q] <= c.asked + FullCost(span);
    } else {
      var c1 := c.Ask(q).(tracker := c.tracker.RecordFailure(span.start));
      FallbackEffect(env, idx, span.probes, c1, true);
      assert c1.asked + Individual(span.probes) == c.asked + FullCost(span);
    }
  }

  /** Any pass, cancelled or not, adds at most that, and nothing for a skipped
      span that is not being probed. */
  lemma {:induction false} SpanPassPrefix(env: Env, idx: map<word, nat>, span: Span, c: Cycle)
    ensures var d := SpanPass(env, idx, span, c);
      && Adds(span, c, d)
      && (!Attempted(c.tracker.At(span.start), c.tracker.cycle) ==>
            d.sent == c.sent && d.asked == c.asked && d.tracker == c.tracker)
  {
    var t := c.tracker;
    assert t.ShouldProbe(span.start) == Probing(t.At(span.start), t.cycle);
    IndividuallyPrefix(env, idx, span, c.Tick());
    BatchedPrefix(env, idx, span, c.Tick());
  }

  // ---- the whole cycle ----

  /** Spans the tracker can tell apart, each with something to report. */
  ghost predicate Usable(spans: seq<Span>) {
    && (forall k :: 0 <= k < |spans| ==> spans[k].probes != [])
    && (forall i, j :: 0 <= i < j < |spans| ==> spans[i].start != spans[j].start)
  }

  lemma {:induction false} PlanUsable(groups: seq<ProbeGroup>, plan: BatchPlan)
    requires IsPlan(groups, plan) && NoWrap(Real(Flatten(groups)))
    ensures Usable(plan.spans)
  {
    ExactCover(groups, plan);
    forall k | 0 <= k < |plan.spans|
      ensures plan.spans[k].probes != []
    {
      assert GoodSpan(plan.spans[k]);
    }
  }

  ghost function Reported(t: Tracker, span: Span): seq<Tagged> {
    if Attempted(t.At(span.start), t.cycle) then TagsIn(span.probes) else []
  }

  /** The probes an uncancelled cycle reports, given the tracker after its tick. */
  ghost function Expected(t: Tracker, spans: seq<Span>): seq<Tagged> {
    if spans == [] then []
    else
      Reported(t, spans[0]) + Expected(t, spans[1..])
  }

  lemma {:induction false} ExpectedFrame(t: Tracker, u: Tracker, a: word, spans: seq<Span>)
    requires SameBut(t, u, a) && forall k :: 0 <= k < |spans| ==> spans[k].start != a
    ensures Expected(t, spans) == Expected(u, spans)
  {
    if spans != [] {
      assert spans[0].start != a;
      ExpectedFrame(t, u, a, spans[1..]);
    }
  }

  lemma {:induction false} PassKeepsOk(env: Env, idx: map<word, nat>, spans: seq<Span>, c: Cycle)
    requires TrackerOk(c.tracker)
    ensures var d := Pass(env, idx, spans, c);
      && TrackerOk(d.tracker) && d.tracker.threshold == c.tracker.threshold && d.tracker.cycle == c.tracker.cycle
      && forall a: word :: (forall k :: 0 <= k < |spans| ==> spans[k].start != a) ==> d.tracker.At(a) == c.tracker.At(a)
    decreases |spans|
  {
    if spans != [] && !c.stopped {
      SpanPassKeepsOk(env, idx, spans[0], c);
      var e := SpanPass(env, idx, spans[0], c);
      PassKeepsOk(env, idx, spans[1..], e);
      forall a: word | forall k :: 0 <= k < |spans| ==> spans[k].start != a
        ensures Pass(env, idx, spans, c).tracker.At(a) == c.tracker.At(a)
      {
        assert spans[0].start != a;
        assert forall k :: 0 <= k < |spans| - 1 ==> spans[1..][k].start == spans[k + 1].start;
      }
    }
  }

  lemma {:induction false} SpanPassLabels(env: Env, idx: map<word, nat>, span: Span, c: Cycle)
    requires Monotone(env) && TrackerOk(c.tracker) && span.probes != [] && !c.stopped
    ensures var d, reported := SpanPass(env, idx, span, c), Reported(c.tracker, span);
      && Labels(c.sent) <= Labels(d.sent) <= Labels(c.sent) + reported
      && (!d.stopped ==> Labels(d.sent) == Labels(c.sent) + reported)
  {
    assert Consistent(c.tracker.At(span.start), c.tracker.threshold);
    SpanPassPrefix(env, idx, span, c);
    if !SpanPass(env, idx, span, c).stopped {
      SpanPassComplete(env, idx, span, c);
    }
  }

  lemma {:induction false} PrefixMore<T>(x: seq<T>, y: seq<T>, a: seq<T>, b: seq<T>)
    requires y <= x + a
    ensures y <= x + (a + b)
  {
    assert x + (a + b) == (x + a) + b;
  }

  lemma {:induction false} SumAssociative<T>(x: seq<T>, a: seq<T>, b: seq<T>)
    ensures (x + a) + b == x + (a + b)
  {
  }

  lemma {:induction false} PassLabels(env: Env, idx: map<word, nat>, spans: seq<Span>, c: Cycle)
    requires Monotone(env) && TrackerOk(c.tracker) && Usable(spans) && !c.stopped
    ensures var d := Pass(env, idx, spans, c);
      && Labels(c.sent) <= Labels(d.sent) <= Labels(c.sent) + Expected(c.tracker, spans)
      && (!d.stopped ==> Labels(d.sent) == Labels(c.sent) + Expected(c.tracker, spans))
    decreases |spans|
  {
    if spans != [] {
      var s, e := spans[0], SpanPass(env, idx, spans[0], c);
      var reported, rest := Reported(c.tracker, s), Expected(c.tracker, spans[1..]);
      SpanPassLabels(env, idx, s, c);
      if e.stopped {
        PrefixMore(Labels(c.sent), Labels(e.sent), reported, rest);
      } else {
        SpanPassKeepsOk(env, idx, s, c);
        ExpectedFrame(c.tracker, e.tracker, s.start, spans[1..]);
        PassLabels(env, idx, spans[1..], e);
        assert Labels(e.sent) + rest == Labels(c.sent) + (reported + rest) by {
          SumAssociative(Labels(c.sent), reported, rest);
        }
      }
    }
  }

  lemma {:induction false} ExpectedWithin(t: Tracker, spans: seq<Span>, u: Tagged)
    requires u in Expected(t, spans)
    ensures exists k :: 0 <= k < |spans| && Attempted(t.At(spans[k].start), t.cycle) && u in TagsIn(spans[k].probes)
  {
    if Attempted(t.At(spans[0].start), t.cycle) && u in TagsIn(spans[0].probes) {
    } else {
      ExpectedWithin(t, spans[1..], u);
      var k :| 0 <= k < |spans| - 1 && Attempted(t.At(spans[1..][k].start), t.cycle)
              && u in TagsIn(spans[1..][k].probes);
      assert spans[k + 1] == spans[1..][k];
    }
  }

  lemma {:induction false} ExpectedContains(t: Tracker, spans: seq<Span>, k: nat)
    requires k < |spans| && Attempted(t.At(spans[k].start), t.cycle)
    ensures forall u :: u in TagsIn(spans[k].probes) ==> u in Expected(t, spans)
  {
    if k > 0 {
      ExpectedContains(t, spans[1..], k - 1);
    }
  }

  lemma {:induction false} PlacedCons(spans: seq<Span>)
    requires spans != []
    ensures Placed(spans) == TagsIn(spans[0].probes) + Placed(spans[1..])
  {
    if |spans| > 1 {
      var front := spans[..|spans| - 1];
      PlacedCons(front);
      assert front[1..] == spans[1..][..|spans| - 2];
      assert Placed(spans[1..]) == Placed(front[1..]) + TagsIn(spans[|spans| - 1].probes);
    }
  }

  lemma {:induction false} ExpectedSorted(t: Tracker, spans: seq<Span>)
    requires Sorted(Placed(spans))
    ensures Sorted(Expected(t, spans)) && forall u :: u in Expected(t, spans) ==> u in Placed(spans)
  {
    if spans != [] {
      PlacedCons(spans);
      var head, rest := TagsIn(spans[0].probes), Placed(spans[1..]);
      SortedSuffix(head, rest);
      ExpectedSorted(t, spans[1..]);
      SortedConcat(head, Expected(t, spans[1..]), rest);
      assert [] + Expected(t, spans[1..]) == Expected(t, spans[1..]);
    }
  }

  lemma {:induction false} SortedSuffix(a: seq<Tagged>, b: seq<Tagged>)
    requires Sorted(a + b)
    ensures Sorted(b)
  {
    forall i, j | 0 <= i < j < |b|
      ensures b[i].Lo() <= b[j].Lo()
    {
      assert (a + b)[|a| + i].Lo() <= (a + b)[|a| + j].Lo();
    }
  }

  lemma {:induction false} SortedConcat(a: seq<Tagged>, b: seq<Tagged>, whole: seq<Tagged>)
    requires Sorted(a + whole) && Sorted(b) && forall u :: u in b ==> u in whole
    ensures Sorted(a + b)
  {
    forall i, j | 0 <= i < j < |a + b|
      ensures (a + b)[i].Lo() <= (a + b)[j].Lo()
    {
      if i < |a| <= j {
        assert (a + b)[j] == b[j - |a|] && b[j - |a|] in whole;
        var k :| 0 <= k < |whole| && whole[k] == b[j - |a|];
        assert (a + whole)[i].Lo() <= (a + whole)[|a| + k].Lo();
      } else if j < |a| {
        assert (a + whole)[i].Lo() <= (a + whole)[j].Lo();
      }
    }
  }

  /** Whatever fails, an uncancelled cycle reports every probe of every attempted
      span exactly once, in address order, and nothing else; a cancelled cycle
      reports a prefix of that. */
  lemma {:induction false} MessageConservation(env: Env, groups: seq<ProbeGroup>, plan: BatchPlan,
                                               probes: seq<Probe>, h: History)
    requires IsPlan(groups, plan) && NoWrap(Real(Flatten(groups)))
    requires Monotone(env) && TrackerOk(h.tracker)
    ensures var c, expected := ReadCycle(env, plan.spans, probes, h), Expected(h.tracker.Tick(), plan.spans);
      && Labels(h.sent) <= Labels(c.sent) <= Labels(h.sent) + expected
      && (!c.stopped ==> Labels(c.sent) == Labels(h.sent) + expected)
      && Sorted(expected)
  {
    PlanUsable(groups, plan);
    ExactCover(groups, plan);
    TickOk(h.tracker);
    PassLabels(env, AddrToIdx(probes), plan.spans, Start(h, probes));
    ExpectedSorted(h.tracker.Tick(), plan.spans);
  }

  lemma {:induction false} TickOk(t: Tracker)
    requires TrackerOk(t)
    ensures TrackerOk(t.Tick()) && forall a: word :: t.Tick().At(a) == t.At(a)
  {
    forall a: word ensures Consistent(t.Tick().At(a), t.threshold) {
      assert Consistent(t.At(a), t.threshold);
    }
  }

  /** Which probes those are: the ones placed in a span that is not skipped, or is
      being probed. */
  lemma {:induction false} ExpectedExactly(t: Tracker, spans: seq<Span>, u: Tagged)
    ensures u in Expected(t, spans) <==>
            exists k :: 0 <= k < |spans| && Attempted(t.At(spans[k].start), t.cycle) && u in TagsIn(spans[k].probes)
  {
    if u in Expected(t, spans) {
      ExpectedWithin(t, spans, u);
    }
    forall k | 0 <= k < |spans| && Attempted(t.At(spans[k].start), t.cycle) && u in TagsIn(spans[k].probes)
      ensures u in Expected(t, spans)
    {
      ExpectedContains(t, spans, k);
    }
  }

  /** The moment at which a pass comes to its k-th span. */
  function Begins(env: Env, idx: map<word, nat>, spans: seq<Span>, c: Cycle, k: nat): nat
    requires k <= |spans|
  {
    Pass(env, idx, spans[..k], c).now
  }

  /** The first k spans are the first one and the first k - 1 of the others. */
  lemma {:induction false} PassFront(env: Env, idx: map<word, nat>, spans: seq<Span>, c: Cycle, k: nat)
    requires 0 < k <= |spans| && !c.stopped
    ensures Pass(env, idx, spans[..k], c) ==
            Pass(env, idx, spans[1..][..k - 1], SpanPass(env, idx, spans[0], c))
  {
    assert spans[..k][1..] == spans[1..][..k - 1];
  }

  lemma {:induction false} BeginsNext(env: Env, idx: map<word, nat>, spans: seq<Span>, c: Cycle, k: nat)
    requires 0 < k <= |spans| && !c.stopped
    ensures Begins(env, idx, spans, c, k) ==
            Begins(env, idx, spans[1..], SpanPass(env, idx, spans[0], c), k - 1)
  {
    PassFront(env, idx, spans, c, k);
  }

  /** The record of the k-th span takes one step, decided by the answers to its own requests,
      the first of which is sent right after the pass has come to it. */
  ghost predicate TakesStep(env: Env, idx: map<word, nat>, spans: seq<Span>, c: Cycle, k: nat)
    requires k < |spans|
  {
    var at, t := Begins(env, idx, spans, c, k) + 1, c.tracker;
    Pass(env, idx, spans, c).tracker.At(spans[k].start) ==
    SpanStep(t.At(spans[k].start), t.threshold, t.cycle,
             BatchOk(env, spans[k], at), SomeOk(env, spans[k].probes, at))
  }

  /** In an uncancelled cycle that is so of every span. */
  lemma {:induction false} PassRecord(env: Env, idx: map<word, nat>, spans: seq<Span>, c: Cycle, k: nat)
    requires Monotone(env) && TrackerOk(c.tracker) && Usable(spans) && k < |spans|
    requires !c.stopped && !Pass(env, idx, spans, c).stopped
    ensures TakesStep(env, idx, spans, c, k)
    decreases |spans|
  {
    var e := SpanPass(env, idx, spans[0], c);
    assert !e.stopped;
    if k == 0 {
      FirstRecord(env, idx, spans, c);
    } else {
      SpanPassKeepsOk(env, idx, spans[0], c);
      PassRecord(env, idx, spans[1..], e, k - 1);
      LaterRecord(env, idx, spans, c, k);
    }
  }

  lemma {:induction false} LaterRecord(env: Env, idx: map<word, nat>, spans: seq<Span>, c: Cycle, k: nat)
    requires TrackerOk(c.tracker) && Usable(spans) && 0 < k < |spans| && !c.stopped
    requires TakesStep(env, idx, spans[1..], SpanPass(env, idx, spans[0], c), k - 1)
    ensures TakesStep(env, idx, spans, c, k)
  {
    var e := SpanPass(env, idx, spans[0], c);
    SpanPassKeepsOk(env, idx, spans[0], c);
    assert spans[k].start != spans[0].start && spans[1..][k - 1] == spans[k];
    assert e.tracker.At(spans[k].start) == c.tracker.At(spans[k].start);
    BeginsNext(env, idx, spans, c, k);
    assert Pass(env, idx, spans, c) == Pass(env, idx, spans[1..], e);
  }

  /** The first span keeps its record through the rest of the pass. */
  lemma {:induction false} FirstStays(env: Env, idx: map<word, nat>, spans: seq<Span>, c: Cycle)
    requires TrackerOk(c.tracker) && Usable(spans) && spans != [] && !c.stopped
    ensures Pass(env, idx, spans, c).tracker.At(spans[0].start) ==
            SpanPass(env, idx, spans[0], c).tracker.At(spans[0].start)
  {
    SpanPassKeepsOk(env, idx, spans[0], c);
    PassKeepsOk(env, idx, spans[1..], SpanPass(env, idx, spans[0], c));
    assert forall j :: 0 <= j < |spans| - 1 ==> spans[1..][j].start != spans[0].start;
  }

  lemma {:induction false} FirstRecord(env: Env, idx: map<word, nat>, spans: seq<Span>, c: Cycle)
    requires Monotone(env) && TrackerOk(c.tracker) && Usable(spans) && spans != []
    requires !c.stopped && !SpanPass(env, idx, spans[0], c).stopped
    ensures TakesStep(env, idx, spans, c, 0)
  {
    assert Begins(env, idx, spans, c, 0) == c.now;
    assert Consistent(c.tracker.At(spans[0].start), c.tracker.threshold);
    FirstStays(env, idx, spans, c);
    SpanPassComplete(env, idx, spans[0], c);
  }

  /** The moment at which a read cycle comes to its k-th span. */
  function CycleBegins(env: Env, spans: seq<Span>, probes: seq<Probe>, h: History, k: nat): nat
    requires k <= |spans|
  {
    Begins(env, AddrToIdx(probes), spans, Start(h, probes), k)
  }

  lemma {:induction false} CycleRecord(env: Env, spans: seq<Span>, probes: seq<Probe>, h: History, k: nat)
    requires Usable(spans) && k < |spans|
    requires Monotone(env) && TrackerOk(h.tracker) && !ReadCycle(env, spans, probes, h).stopped
    ensures var t, a, at := ReadCycle(env, spans, probes, h).tracker, spans[k].start,
                            CycleBegins(env, spans, probes, h, k) + 1;
      && t.At(a) == SpanStep(h.tracker.At(a), h.tracker.threshold, h.tracker.cycle + 1,
                             BatchOk(env, spans[k], at), SomeOk(env, spans[k].probes, at))
      && t.threshold == h.tracker.threshold && t.cycle == h.tracker.cycle + 1 && TrackerOk(t)
  {
    TickOk(h.tracker);
    PassKeepsOk(env, AddrToIdx(probes), spans, Start(h, probes));
    PassRecord(env, AddrToIdx(probes), spans, Start(h, probes), k);
  }

  // ---- reachable trackers ----

  /** What happens to a section's tracker: a read cycle, cancelled or not, of
      whatever plan is current, or a reset on reconnection or reconfiguration. */
  datatype Event = Reset | ReadAll(env: Env, spans: seq<Span>, probes: seq<Probe>)

  function Apply(h: History, e: Event): History {
    match e
    case Reset => h.(tracker := h.tracker.Reset())
    case ReadAll(env, spans, probes) =>
      var c := ReadCycle(env, spans, probes, h);
      History(c.now, c.tracker, c.sent, c.asked)
  }

  function ApplyAll(h: History, es: seq<Event>): History
    decreases |es|
  {
    if es == [] then h else ApplyAll(Apply(h, es[0]), es[1..])
  }

  /** How many cycles a section has been read since its tracker was reset, given how many it
      had been before. */
  function CyclesSince(n: nat, es: seq<Event>): nat
    decreases |es|
  {
    if es == [] then n else CyclesSince(if es[0].Reset? then 0 else n + 1, es[1..])
  }

  /** A reset restarts the schedule of probes: a span that is not Normal is probed in every
      tenth cycle after the last reset, cancelled cycles included. */
  lemma {:induction false} ProbeSchedule(h: History, es: seq<Event>, a: word)
    requires TrackerOk(h.tracker)
    ensures var t, n := ApplyAll(h, es).tracker, CyclesSince(h.tracker.cycle, es);
      && t.cycle == n
      && (t.ShouldProbe(a) <==> t.State(a) != Normal && n > 0 && n % 10 == 0)
    decreases |es|
  {
    if es != [] {
      var next := Apply(h, es[0]);
      ReachableConsistent(h, es[..1]);
      assert es[..1][1..] == [] && ApplyAll(next, []) == next;
      match es[0] {
        case Reset =>
        case ReadAll(env, spans, probes) =>
          TickOk(h.tracker);
          PassKeepsOk(env, AddrToIdx(probes), spans, Start(h, probes));
      }
      ProbeSchedule(next, es[1..], a);
    }
  }

  /** After a reset every span is Normal and has no failures. */
  lemma {:induction false} ResetForgets(h: History, a: word)
    ensures var t := Apply(h, Reset).tracker;
      t.State(a) == Normal && t.At(a).failCount == 0 && t.At(a).indivFails == 0 && t.cycle == 0
      && t.threshold == h.tracker.threshold
  {
  }

  lemma {:induction false} NewOk(threshold: int)
    requires threshold >= 1
    ensures TrackerOk(Tracker.New(threshold))
  {
    forall a: word ensures Consistent(Tracker.New(threshold).At(a), threshold) {
    }
  }

  /** In every reachable tracker state the counters fit the state of each span. */
  lemma {:induction false} ReachableConsistent(h: History, es: seq<Event>)
    requires TrackerOk(h.tracker)
    ensures TrackerOk(ApplyAll(h, es).tracker) && ApplyAll(h, es).tracker.threshold == h.tracker.threshold
    decreases |es|
  {
    if es != [] {
      match es[0] {
        case Reset =>
          NewOk(h.tracker.threshold);
        case ReadAll(env, spans, probes) =>
          TickOk(h.tracker);
          PassKeepsOk(env, AddrToIdx(probes), spans, Start(h, probes));
      }
      ReachableConsistent(Apply(h, es[0]), es[1..]);
    }
  }
}
