/** What a cancelled read cycle leaves behind: when it leaves the records of the spans
    alone, and when it counts against one or clears it. */
module CancelledCycles {
  import opened Registers
  import opened BatchPlanner
  import opened SpanTrackers
  import opened ReadCycles
  import opened CycleTheorems
  import opened TrackerRuns

  /** The pass sends a batch read unless the context is done when it begins. */
  predicate Batching(span: Span, c: Cycle) {
    c.tracker.State(span.start) == Normal || c.tracker.ShouldProbe(span.start)
  }

  /** The tracker after a pass over a span that ended in a cancellation: the outcome of a
      batch read is recorded before the context is looked at. */
  function CutTracker(env: Env, span: Span, c: Cycle): Tracker {
    if env.cancelled(c.now) || !Batching(span, c) then c.tracker
    else if BatchOk(env, span, c.now + 1) then c.tracker.RecordSuccess(span.start)
    else c.tracker.RecordFailure(span.start)
  }

  lemma {:induction false} BatchedCut(env: Env, idx: map<word, nat>, span: Span, c: Cycle)
    requires !c.stopped && Batched(env, idx, span, c).stopped
    ensures var d := Batched(env, idx, span, c);
      && d.tracker == (if BatchOk(env, span, c.now) then c.tracker.RecordSuccess(span.start)
                       else c.tracker.RecordFailure(span.start))
      && (BatchOk(env, span, c.now) ==> d.sent == c.sent)
  {
    var q := Request(span.start, span.total);
    var reply := env.reply(c.now, q);
    if reply.Data? {
      ExtractEffect(idx, span.probes, reply.bytes, c.Ask(q).(tracker := c.tracker.RecordSuccess(span.start)).Tick());
    } else {
      FallbackEffect(env, idx, span.probes, c.Ask(q).(tracker := c.tracker.RecordFailure(span.start)), true);
    }
  }

  /** What a cancelled pass does to the tracker; behind a working batch read it does so
      without reporting anything. */
  lemma {:induction false} SpanPassCut(env: Env, idx: map<word, nat>, span: Span, c: Cycle)
    requires !c.stopped && SpanPass(env, idx, span, c).stopped
    ensures SpanPass(env, idx, span, c).tracker == CutTracker(env, span, c)
    ensures env.cancelled(c.now) || (Batching(span, c) && BatchOk(env, span, c.now + 1)) ==>
              SpanPass(env, idx, span, c).sent == c.sent
  {
    if !env.cancelled(c.now) {
      if Batching(span, c) {
        BatchedCut(env, idx, span, c.Tick());
      } else {
        FallbackEffect(env, idx, span.probes, c.Tick(), true);
      }
    }
  }

  /** The same for the span's record; `early` says that the context was done when the pass
      began. */
  function CutRecord(r: Record, threshold: int, cycle: nat, early: bool, batchOk: bool): Record {
    if early || (r.state != Normal && !Probing(r, cycle)) then r
    else if batchOk then FRESH
    else
      Record(r.failCount + 1,
             if r.state == Normal && r.failCount + 1 >= threshold then Degraded else r.state,
             r.indivFails)
  }

  lemma {:induction false} SpanPassCutRecord(env: Env, idx: map<word, nat>, span: Span, c: Cycle)
    requires !c.stopped && SpanPass(env, idx, span, c).stopped
    requires Consistent(c.tracker.At(span.start), c.tracker.threshold)
    ensures SpanPass(env, idx, span, c).tracker.At(span.start) ==
            CutRecord(c.tracker.At(span.start), c.tracker.threshold, c.tracker.cycle,
                      env.cancelled(c.now), BatchOk(env, span, c.now + 1))
  {
    SpanPassCut(env, idx, span, c);
    SuccessResets(c.tracker, span.start);
    FailureCounts(c.tracker, span.start);
  }

  /** A cancelled pass leaves its span's record alone exactly when the context was done from
      the start, or no batch read was due, or one worked and there was nothing to clear. */
  lemma {:induction false} LeftAloneExactly(env: Env, idx: map<word, nat>, span: Span, c: Cycle)
    requires !c.stopped && SpanPass(env, idx, span, c).stopped
    requires Consistent(c.tracker.At(span.start), c.tracker.threshold)
    ensures SpanPass(env, idx, span, c).tracker.At(span.start) == c.tracker.At(span.start) <==>
            || env.cancelled(c.now) || !Batching(span, c)
            || (BatchOk(env, span, c.now + 1) && c.tracker.At(span.start) == FRESH)
  {
    SpanPassCutRecord(env, idx, span, c);
  }

  /** The cancellation is noticed in the pass over span j. */
  ghost predicate CutAt(env: Env, idx: map<word, nat>, spans: seq<Span>, c: Cycle, j: nat) {
    j < |spans| && !Pass(env, idx, spans[..j], c).stopped && Pass(env, idx, spans[..j + 1], c).stopped
  }

  /** Every cancelled pass is cut at some span, and is then the whole pass over the spans
      before it followed by the cut pass over that one. */
  lemma {:induction false} PassCut(env: Env, idx: map<word, nat>, spans: seq<Span>, c: Cycle) returns (j: nat)
    requires !c.stopped && Pass(env, idx, spans, c).stopped
    ensures CutAt(env, idx, spans, c, j)
    ensures Pass(env, idx, spans, c) == SpanPass(env, idx, spans[j], Pass(env, idx, spans[..j], c))
    decreases |spans|
  {
    var e := SpanPass(env, idx, spans[0], c);
    if e.stopped {
      j := 0;
      PassFront(env, idx, spans, c, 1);
    } else {
      var i := PassCut(env, idx, spans[1..], e);
      PassFront(env, idx, spans, c, i + 1);
      PassFront(env, idx, spans, c, i + 2);
      j := i + 1;
    }
  }

  /** The record of span k when a pass is cancelled at span j: a span before j takes its
      full step, span j is cut, and one behind it is left alone, each decided by what the
      context and the device say from the moment at which the pass comes to it. */
  ghost predicate Fate(env: Env, idx: map<word, nat>, spans: seq<Span>, c: Cycle, j: nat, k: nat)
    requires k < |spans|
  {
    var r, span, at, t := c.tracker.At(spans[k].start), spans[k], Begins(env, idx, spans, c, k), c.tracker;
    Pass(env, idx, spans, c).tracker.At(span.start) ==
    if k < j then
      SpanStep(r, t.threshold, t.cycle, BatchOk(env, span, at + 1), SomeOk(env, span.probes, at + 1))
    else if k == j then
      CutRecord(r, t.threshold, t.cycle, env.cancelled(at), BatchOk(env, span, at + 1))
    else r
  }

  lemma {:induction false} CutFirst(env: Env, idx: map<word, nat>, spans: seq<Span>, c: Cycle, k: nat)
    requires TrackerOk(c.tracker) && Usable(spans) && !c.stopped && k < |spans|
    requires SpanPass(env, idx, spans[0], c).stopped
    ensures Fate(env, idx, spans, c, 0, k)
  {
    assert Consistent(c.tracker.At(spans[0].start), c.tracker.threshold);
    SpanPassKeepsOk(env, idx, spans[0], c);
    if k == 0 {
      SpanPassCutRecord(env, idx, spans[0], c);
    } else {
      assert spans[0].start != spans[k].start;
    }
  }

  lemma {:induction false} FateNext(env: Env, idx: map<word, nat>, spans: seq<Span>, c: Cycle, j: nat, k: nat)
    requires TrackerOk(c.tracker) && Usable(spans) && !c.stopped && 0 < k < |spans| && j > 0
    requires Fate(env, idx, spans[1..], SpanPass(env, idx, spans[0], c), j - 1, k - 1)
    ensures Fate(env, idx, spans, c, j, k)
  {
    var e := SpanPass(env, idx, spans[0], c);
    assert spans[0].start != spans[k].start && spans[1..][k - 1] == spans[k];
    SpanPassKeepsOk(env, idx, spans[0], c);
    assert e.tracker.At(spans[k].start) == c.tracker.At(spans[k].start);
    BeginsNext(env, idx, spans, c, k);
    assert Pass(env, idx, spans, c) == Pass(env, idx, spans[1..], e);
  }

  lemma {:induction false} FateFirst(env: Env, idx: map<word, nat>, spans: seq<Span>, c: Cycle, j: nat)
    requires Monotone(env) && TrackerOk(c.tracker) && Usable(spans) && !c.stopped && j > 0 && spans != []
    requires !SpanPass(env, idx, spans[0], c).stopped
    ensures Fate(env, idx, spans, c, j, 0)
  {
    FirstRecord(env, idx, spans, c);
  }

  lemma {:induction false} CutNext(env: Env, idx: map<word, nat>, spans: seq<Span>, c: Cycle, j: nat)
    requires !c.stopped && j > 0 && CutAt(env, idx, spans, c, j)
    ensures var e := SpanPass(env, idx, spans[0], c); !e.stopped && CutAt(env, idx, spans[1..], e, j - 1)
  {
    PassFront(env, idx, spans, c, j);
    PassFront(env, idx, spans, c, j + 1);
  }

  lemma {:induction false} UsableRest(spans: seq<Span>)
    requires Usable(spans) && spans != []
    ensures Usable(spans[1..])
  {
  }

  /** All records after a cancelled pass. */
  lemma {:induction false} PassCutRecords(env: Env, idx: map<word, nat>, spans: seq<Span>, c: Cycle, j: nat, k: nat)
    requires Monotone(env) && TrackerOk(c.tracker) && Usable(spans) && !c.stopped
    requires CutAt(env, idx, spans, c, j) && k < |spans|
    ensures Fate(env, idx, spans, c, j, k)
    decreases |spans|
  {
    if j == 0 {
      PassFront(env, idx, spans, c, 1);
      CutFirst(env, idx, spans, c, k);
    } else {
      CutNext(env, idx, spans, c, j);
      if k == 0 {
        FateFirst(env, idx, spans, c, j);
      } else {
        var e := SpanPass(env, idx, spans[0], c);
        SpanPassKeepsOk(env, idx, spans[0], c);
        UsableRest(spans);
        PassCutRecords(env, idx, spans[1..], e, j - 1, k - 1);
        FateNext(env, idx, spans, c, j, k);
      }
    }
  }

  /** A whole cancelled cycle of a section is cut at one span. It leaves the tracker that the
      pass over the spans before leaves, with the outcome of that span's batch read
      recorded if there was one; behind one that worked nothing more is reported. */
  lemma {:induction false} CycleCutTracker(env: Env, spans: seq<Span>, probes: seq<Probe>, h: History)
      returns (j: nat)
    requires ReadCycle(env, spans, probes, h).stopped
    ensures CutAt(env, AddrToIdx(probes), spans, Start(h, probes), j)
    ensures var c, d := Pass(env, AddrToIdx(probes), spans[..j], Start(h, probes)), ReadCycle(env, spans, probes, h);
      && d.tracker == CutTracker(env, spans[j], c)
      && (env.cancelled(c.now) || (Batching(spans[j], c) && BatchOk(env, spans[j], c.now + 1)) ==> d.sent == c.sent)
  {
    j := PassCut(env, AddrToIdx(probes), spans, Start(h, probes));
    SpanPassCut(env, AddrToIdx(probes), spans[j], Pass(env, AddrToIdx(probes), spans[..j], Start(h, probes)));
  }

  /** Record by record. */
  lemma {:induction false} CycleCut(env: Env, spans: seq<Span>, probes: seq<Probe>, h: History) returns (j: nat)
    requires Tracked(spans, h) && Monotone(env) && ReadCycle(env, spans, probes, h).stopped
    ensures CutAt(env, AddrToIdx(probes), spans, Start(h, probes), j)
    ensures forall k :: 0 <= k < |spans| ==> Fate(env, AddrToIdx(probes), spans, Start(h, probes), j, k)
  {
    TickOk(h.tracker);
    var idx, c := AddrToIdx(probes), Start(h, probes);
    j := CycleCutTracker(env, spans, probes, h);
    forall k | 0 <= k < |spans|
      ensures Fate(env, idx, spans, c, j, k)
    {
      PassCutRecords(env, idx, spans, c, j, k);
    }
  }

  /** When a cancelled cycle leaves the record of a span alone: exactly if it was cut before
      that span; or at it, and as said of a single pass; or behind it, and the span was
      skipped or had nothing to clear and its batch read worked. */
  ghost predicate Spared(env: Env, idx: map<word, nat>, spans: seq<Span>, c: Cycle, j: nat, k: nat)
    requires k < |spans|
  {
    var r, at := c.tracker.At(spans[k].start), Begins(env, idx, spans, c, k);
    var clear := BatchOk(env, spans[k], at + 1) && r == FRESH;
    k > j || clear
    || (if k == j then env.cancelled(at) || (r.state != Normal && !Probing(r, c.tracker.cycle))
        else !Attempted(r, c.tracker.cycle))
  }

  lemma {:induction false} CycleSpares(env: Env, spans: seq<Span>, probes: seq<Probe>, h: History, k: nat)
      returns (j: nat)
    requires Tracked(spans, h) && Monotone(env) && ReadCycle(env, spans, probes, h).stopped && k < |spans|
    ensures CutAt(env, AddrToIdx(probes), spans, Start(h, probes), j)
    ensures ReadCycle(env, spans, probes, h).tracker.At(spans[k].start) == h.tracker.At(spans[k].start) <==>
            Spared(env, AddrToIdx(probes), spans, Start(h, probes), j, k)
  {
    j := CycleCut(env, spans, probes, h);
    TickOk(h.tracker);
    assert Consistent(h.tracker.At(spans[k].start), h.tracker.threshold);
    assert Fate(env, AddrToIdx(probes), spans, Start(h, probes), j, k);
  }

  // ---- a cancelled read counts as a failure, or clears failures unseen ----

  /** Every request is answered like this, and the context is done after instant `n`. */
  function CancelledAfter(n: nat, answer: Reply): Env {
    Env((t, q) => answer, t => t > n)
  }

  const ABORTED := Fail("context canceled")

  /** A cycle of one span that is cut behind the span's batch read. */
  lemma {:induction false} CutCycle(env: Env, span: Span, probes: seq<Probe>, h: History)
    requires h.tracker.State(span.start) == Normal && !env.cancelled(h.now)
    requires env.cancelled(h.now + 2) && Monotone(env)
    ensures var c := ReadCycle(env, [span], probes, h);
      c.stopped && c.sent == h.sent && c.tracker == CutTracker(env, span, Start(h, probes))
  {
    CutStops(env, span, probes, h);
    var j := CycleCutTracker(env, [span], probes, h);
    assert [span][..j] == [];
  }

  lemma {:induction false} CutStops(env: Env, span: Span, probes: seq<Probe>, h: History)
    requires h.tracker.State(span.start) == Normal && !env.cancelled(h.now)
    requires env.cancelled(h.now + 2) && Monotone(env)
    ensures ReadCycle(env, [span], probes, h).stopped && ReadCycle(env, [span], probes, h).sent == h.sent
  {
    var idx, c0, q := AddrToIdx(probes), Start(h, probes), Request(span.start, span.total);
    var c1 := SpanPass(env, idx, span, c0);
    FallbackEffect(env, idx, span.probes, c0.Tick().Ask(q).(tracker := c0.tracker.RecordFailure(span.start)), true);
    assert c1.stopped && c1.sent == c0.sent;
    assert Pass(env, idx, [span], c0) == Pass(env, idx, [span][1..], c1) == c1;
  }

  /** A cycle that is merely cancelled during the batch read of a span reports nothing but
      counts as a failure of the span. */
  lemma {:induction false} CancelledReadCounts(span: Span, probes: seq<Probe>, h: History)
    requires h.tracker.State(span.start) == Normal
    ensures var c := ReadCycle(CancelledAfter(h.now, ABORTED), [span], probes, h);
      c.stopped && c.sent == h.sent && c.tracker == h.tracker.Tick().RecordFailure(span.start)
  {
    CutCycle(CancelledAfter(h.now, ABORTED), span, probes, h);
  }

  /** One that is cancelled just behind a working batch read reports nothing either, but
      clears the failures counted so far. */
  lemma {:induction false} CancelledReadClears(span: Span, probes: seq<Probe>, h: History, data: seq<byte>)
    requires h.tracker.State(span.start) == Normal
    ensures var c := ReadCycle(CancelledAfter(h.now, Data(data)), [span], probes, h);
      c.stopped && c.sent == h.sent && c.tracker == h.tracker.Tick().RecordSuccess(span.start)
  {
    CutCycle(CancelledAfter(h.now, Data(data)), span, probes, h);
  }

  /** Three cancelled cycles degrade a span that never failed. */
  lemma {:induction false} CancellationDegrades(span: Span, probes: seq<Probe>, h0: History)
    requires h0.tracker == Tracker.New(DEFAULT_THRESHOLD)
    ensures var h1 := After(CancelledAfter(h0.now, ABORTED), [span], probes, h0);
      var h2 := After(CancelledAfter(h1.now, ABORTED), [span], probes, h1);
      var h3 := After(CancelledAfter(h2.now, ABORTED), [span], probes, h2);
      h3.tracker.At(span.start) == Record(3, Degraded, 0)
  {
    var h1 := After(CancelledAfter(h0.now, ABORTED), [span], probes, h0);
    var h2 := After(CancelledAfter(h1.now, ABORTED), [span], probes, h1);
    CancelledReadCounts(span, probes, h0);
    FailureCounts(h0.tracker.Tick(), span.start);
    CancelledReadCounts(span, probes, h1);
    FailureCounts(h1.tracker.Tick(), span.start);
    CancelledReadCounts(span, probes, h2);
    FailureCounts(h2.tracker.Tick(), span.start);
  }
}
