/** Runs of read cycles: how fast a span recovers once the device works again,
    and how little a dead span costs. */
module TrackerRuns {
  import opened Registers
  import opened BatchPlanner
  import opened BatchPlanTheorems
  import opened SpanTrackers
  import opened ReadCycles
  import opened CycleTheorems

  function After(env: Env, spans: seq<Span>, probes: seq<Probe>, h: History): History {
    Apply(h, ReadAll(env, spans, probes))
  }

  /** Consecutive cycles of one section, each with its own context. */
  function Cycles(envs: seq<Env>, spans: seq<Span>, probes: seq<Probe>, h: History): History
    decreases |envs|
  {
    if envs == [] then h else Cycles(envs[1..], spans, probes, After(envs[0], spans, probes, h))
  }

  ghost predicate Uncancelled(envs: seq<Env>, spans: seq<Span>, probes: seq<Probe>, h: History) {
    envs == [] ||
    (&& Monotone(envs[0]) && !ReadCycle(envs[0], spans, probes, h).stopped
     && Uncancelled(envs[1..], spans, probes, After(envs[0], spans, probes, h)))
  }

  /** Spans a planner may have produced, read with a tracker in a reachable state. */
  ghost predicate Tracked(spans: seq<Span>, h: History) {
    Usable(spans) && TrackerOk(h.tracker)
  }

  /** Whether a span's batch read, or any of its individual reads, succeeds. */
  datatype Outcome = Outcome(batchOk: bool, someOk: bool)

  /** The outcome of a span whose requests begin at that moment. */
  function OutcomeAt(env: Env, span: Span, now: nat): Outcome {
    Outcome(BatchOk(env, span, now), SomeOk(env, span.probes, now))
  }

  /** The outcome of the k-th span's requests in one cycle. */
  function CycleOutcome(env: Env, spans: seq<Span>, probes: seq<Probe>, h: History, k: nat): Outcome
    requires k < |spans|
  {
    OutcomeAt(env, spans[k], CycleBegins(env, spans, probes, h, k) + 1)
  }

  /** And in each of a run of cycles. */
  function Outcomes(envs: seq<Env>, spans: seq<Span>, probes: seq<Probe>, h: History, k: nat): (os: seq<Outcome>)
    requires k < |spans|
    ensures |os| == |envs|
    decreases |envs|
  {
    if envs == [] then []
    else
      [CycleOutcome(envs[0], spans, probes, h, k)]
      + Outcomes(envs[1..], spans, probes, After(envs[0], spans, probes, h), k)
  }

  lemma {:induction false} AliveOutcomes(envs: seq<Env>, spans: seq<Span>, probes: seq<Probe>, h: History, k: nat)
    requires k < |spans| && spans[k].probes != [] && forall e :: e in envs ==> Alive(e, spans[k])
    ensures Outcomes(envs, spans, probes, h, k) == Same(Outcome(true, true), |envs|)
    decreases |envs|
  {
    if envs != [] {
      assert envs[0] in envs && spans[k].probes[0] in spans[k].probes;
      AliveOutcomes(envs[1..], spans, probes, After(envs[0], spans, probes, h), k);
    }
  }

  lemma {:induction false} DeadOutcomes(envs: seq<Env>, spans: seq<Span>, probes: seq<Probe>, h: History, k: nat)
    requires k < |spans| && forall e :: e in envs ==> Dead(e, spans[k])
    ensures Outcomes(envs, spans, probes, h, k) == Same(Outcome(false, false), |envs|)
    decreases |envs|
  {
    if envs != [] {
      assert envs[0] in envs;
      NoneOk(envs[0], spans[k].probes, CycleBegins(envs[0], spans, probes, h, k) + 1);
      DeadOutcomes(envs[1..], spans, probes, After(envs[0], spans, probes, h), k);
    }
  }

  function Steps(r: Record, threshold: int, cycle: nat, os: seq<Outcome>): Record
    decreases |os|
  {
    if os == [] then r
    else Steps(SpanStep(r, threshold, cycle + 1, os[0].batchOk, os[0].someOk), threshold, cycle + 1, os[1..])
  }

  function Same(o: Outcome, n: nat): seq<Outcome>
  {
    if n == 0 then [] else [o] + Same(o, n - 1)
  }

  lemma {:induction false} AfterRecord(env: Env, spans: seq<Span>, probes: seq<Probe>, h: History, k: nat)
    requires Tracked(spans, h) && k < |spans|
    requires Monotone(env) && !ReadCycle(env, spans, probes, h).stopped
    ensures var h', a, o := After(env, spans, probes, h), spans[k].start, CycleOutcome(env, spans, probes, h, k);
      && h'.tracker.At(a) == SpanStep(h.tracker.At(a), h.tracker.threshold, h.tracker.cycle + 1, o.batchOk, o.someOk)
      && h'.tracker.threshold == h.tracker.threshold && h'.tracker.cycle == h.tracker.cycle + 1
      && Tracked(spans, h')
  {
    CycleRecord(env, spans, probes, h, k);
  }

  /** In how many of these cycles a span is attempted. */
  function Tried(envs: seq<Env>, spans: seq<Span>, probes: seq<Probe>, h: History, a: word): nat
    decreases |envs|
  {
    if envs == [] then 0
    else
      (if Attempted(h.tracker.At(a), h.tracker.cycle + 1) then 1 else 0)
      + Tried(envs[1..], spans, probes, After(envs[0], spans, probes, h), a)
  }

  /** The same count from the outcomes of a span's own reads. */
  function Tries(r: Record, threshold: int, cycle: nat, os: seq<Outcome>): nat
    decreases |os|
  {
    if os == [] then 0
    else
      (if Attempted(r, cycle + 1) then 1 else 0)
      + Tries(SpanStep(r, threshold, cycle + 1, os[0].batchOk, os[0].someOk), threshold, cycle + 1, os[1..])
  }

  lemma {:induction false} StepsCons(r: Record, threshold: int, cycle: nat, o: Outcome, os: seq<Outcome>)
    ensures var r' := SpanStep(r, threshold, cycle + 1, o.batchOk, o.someOk);
      && Steps(r, threshold, cycle, [o] + os) == Steps(r', threshold, cycle + 1, os)
      && Tries(r, threshold, cycle, [o] + os) ==
           (if Attempted(r, cycle + 1) then 1 else 0) + Tries(r', threshold, cycle + 1, os)
  {
    assert ([o] + os)[1..] == os;
  }

  /** Over any run of uncancelled cycles the record of a span evolves on its own, one step
      per cycle, decided by the answers to the requests it sends in that cycle. */
  lemma {:induction false} RunRecord(envs: seq<Env>, spans: seq<Span>, probes: seq<Probe>, h: History, k: nat)
    requires Tracked(spans, h) && k < |spans| && Uncancelled(envs, spans, probes, h)
    ensures var r, t, os := h.tracker.At(spans[k].start), h.tracker, Outcomes(envs, spans, probes, h, k);
      && Cycles(envs, spans, probes, h).tracker.At(spans[k].start) == Steps(r, t.threshold, t.cycle, os)
      && Tried(envs, spans, probes, h, spans[k].start) == Tries(r, t.threshold, t.cycle, os)
    decreases |envs|
  {
    if envs != [] {
      var next := After(envs[0], spans, probes, h);
      AfterRecord(envs[0], spans, probes, h, k);
      RunRecord(envs[1..], spans, probes, next, k);
      StepsCons(h.tracker.At(spans[k].start), h.tracker.threshold, h.tracker.cycle,
                CycleOutcome(envs[0], spans, probes, h, k), Outcomes(envs[1..], spans, probes, next, k));
    }
  }

  /** The i-th outcome is that of the i-th cycle, which begins where the one before ended. */
  lemma {:induction false} OutcomesExactly(envs: seq<Env>, spans: seq<Span>, probes: seq<Probe>, h: History, k: nat,
                                           i: nat)
    requires k < |spans| && i < |envs|
    ensures Outcomes(envs, spans, probes, h, k)[i] ==
            CycleOutcome(envs[i], spans, probes, Cycles(envs[..i], spans, probes, h), k)
    decreases |envs|
  {
    if i > 0 {
      assert envs[..i][1..] == envs[1..][..i - 1];
      OutcomesExactly(envs[1..], spans, probes, After(envs[0], spans, probes, h), k, i - 1);
    }
  }

  lemma {:induction false} AliveRun(envs: seq<Env>, spans: seq<Span>, probes: seq<Probe>, h: History, k: nat)
    requires Tracked(spans, h) && k < |spans| && Uncancelled(envs, spans, probes, h)
    requires forall e :: e in envs ==> Alive(e, spans[k])
    ensures var r, t, os := h.tracker.At(spans[k].start), h.tracker, Same(Outcome(true, true), |envs|);
      Cycles(envs, spans, probes, h).tracker.At(spans[k].start) == Steps(r, t.threshold, t.cycle, os)
  {
    RunRecord(envs, spans, probes, h, k);
    AliveOutcomes(envs, spans, probes, h, k);
  }

  lemma {:induction false} DeadRun(envs: seq<Env>, spans: seq<Span>, probes: seq<Probe>, h: History, k: nat)
    requires Tracked(spans, h) && k < |spans| && Uncancelled(envs, spans, probes, h)
    requires forall e :: e in envs ==> Dead(e, spans[k])
    ensures var r, t, os := h.tracker.At(spans[k].start), h.tracker, Same(Outcome(false, false), |envs|);
      && Cycles(envs, spans, probes, h).tracker.At(spans[k].start) == Steps(r, t.threshold, t.cycle, os)
      && Tried(envs, spans, probes, h, spans[k].start) == Tries(r, t.threshold, t.cycle, os)
  {
    RunRecord(envs, spans, probes, h, k);
    DeadOutcomes(envs, spans, probes, h, k);
  }

  // ---- recovery ----

  /** A multiple of the probe interval lies in (cycle, cycle + n]. */
  predicate ProbeWithin(cycle: nat, n: nat) {
    (cycle + n) / PROBE_INTERVAL > cycle / PROBE_INTERVAL
  }

  predicate Recovers(r: Record, cycle: nat, n: nat) {
    match r.state
    case Normal => true
    case Degraded => n >= 1
    case Skipped => ProbeWithin(cycle, n)
  }

  lemma {:induction false} ProbeStep(cycle: nat)
    ensures ProbeWithin(cycle, 1) <==> (cycle + 1) % PROBE_INTERVAL == 0
    ensures forall n: nat :: n >= 1 ==>
        (ProbeWithin(cycle, n) <==> ProbeWithin(cycle, 1) || ProbeWithin(cycle + 1, n - 1))
  {
  }

  lemma {:induction false} RecoverSteps(r: Record, threshold: int, cycle: nat, n: nat)
    ensures Steps(r, threshold, cycle, Same(Outcome(true, true), n)).state == Normal <==> Recovers(r, cycle, n)
    decreases n
  {
    if n > 0 {
      var o := Outcome(true, true);
      assert Same(o, n)[0] == o && Same(o, n)[1..] == Same(o, n - 1);
      RecoverSteps(SpanStep(r, threshold, cycle + 1, true, true), threshold, cycle + 1, n - 1);
      ProbeStep(cycle);
    }
  }

  /** When its own reads work, whatever becomes of other spans, a span is Normal after n
      uncancelled cycles exactly when it was not skipped (n > 0), or one of those cycles
      was a probe cycle. */
  lemma {:induction false} RecoveryExact(envs: seq<Env>, spans: seq<Span>, probes: seq<Probe>,
                                         h: History, k: nat)
    requires Tracked(spans, h) && k < |spans|
    requires Uncancelled(envs, spans, probes, h) && forall e :: e in envs ==> Alive(e, spans[k])
    ensures Cycles(envs, spans, probes, h).tracker.At(spans[k].start).state == Normal <==>
            Recovers(h.tracker.At(spans[k].start), h.tracker.cycle, |envs|)
  {
    AliveRun(envs, spans, probes, h, k);
    RecoverSteps(h.tracker.At(spans[k].start), h.tracker.threshold, h.tracker.cycle, |envs|);
  }

  /** Ten cycles bring every live span of a plan back to Normal, even next to dead ones. */
  lemma {:induction false} RecoveryBound(envs: seq<Env>, groups: seq<ProbeGroup>, plan: BatchPlan,
                                         probes: seq<Probe>, h: History)
    requires IsPlan(groups, plan) && NoWrap(Real(Flatten(groups))) && TrackerOk(h.tracker) && |envs| == 10
    requires Uncancelled(envs, plan.spans, probes, h)
    ensures forall k :: 0 <= k < |plan.spans| && (forall e :: e in envs ==> Alive(e, plan.spans[k])) ==>
      Cycles(envs, plan.spans, probes, h).tracker.At(plan.spans[k].start).state == Normal
  {
    PlanUsable(groups, plan);
    forall k | 0 <= k < |plan.spans| && forall e :: e in envs ==> Alive(e, plan.spans[k])
      ensures Cycles(envs, plan.spans, probes, h).tracker.At(plan.spans[k].start).state == Normal
    {
      RecoveryExact(envs, plan.spans, probes, h, k);
    }
  }

  // ---- a dead span ----

  /** How many more dead cycles until the span is skipped: each batch failure and
      each individual failure counts, and a probe cycle in between costs one more. */
  function UntilSkipped(r: Record, threshold: int, cycle: nat): int {
    match r.state
    case Skipped => 0
    case Degraded => ToSkip(2 - r.indivFails, cycle)
    case Normal => (threshold - r.failCount) + ToSkip(2, cycle + (threshold - r.failCount))
  }

  function ToSkip(left: int, cycle: int): int {
    left + if (cycle + left) / PROBE_INTERVAL > cycle / PROBE_INTERVAL then 1 else 0
  }

  predicate Dies(r: Record, threshold: int, cycle: nat, n: nat) {
    n >= UntilSkipped(r, threshold, cycle)
  }

  lemma {:induction false} DeadStep(r: Record, threshold: int, cycle: nat, n: nat)
    requires threshold >= 1 && Consistent(r, threshold)
    ensures n >= 1 ==>
      (Dies(SpanStep(r, threshold, cycle + 1, false, false), threshold, cycle + 1, n - 1) <==>
       Dies(r, threshold, cycle, n))
    ensures Dies(r, threshold, cycle, 0) <==> r.state == Skipped
  {
    ProbeStep(cycle);
  }

  lemma {:induction false} DeadSteps(r: Record, threshold: int, cycle: nat, n: nat)
    requires threshold >= 1 && Consistent(r, threshold)
    ensures Steps(r, threshold, cycle, Same(Outcome(false, false), n)).state == Skipped <==>
            Dies(r, threshold, cycle, n)
    decreases n
  {
    DeadStep(r, threshold, cycle, n);
    if n > 0 {
      var o := Outcome(false, false);
      assert Same(o, n)[0] == o && Same(o, n)[1..] == Same(o, n - 1);
      StepConsistent(r, threshold, cycle + 1, false, false);
      DeadSteps(SpanStep(r, threshold, cycle + 1, false, false), threshold, cycle + 1, n - 1);
    }
  }

  /** A span all of whose reads fail is skipped after n uncancelled cycles exactly
      when n has reached that number. */
  lemma {:induction false} DeadSpanExact(envs: seq<Env>, spans: seq<Span>, probes: seq<Probe>,
                                         h: History, k: nat)
    requires Tracked(spans, h) && k < |spans|
    requires Uncancelled(envs, spans, probes, h) && forall e :: e in envs ==> Dead(e, spans[k])
    ensures Cycles(envs, spans, probes, h).tracker.At(spans[k].start).state == Skipped <==>
            Dies(h.tracker.At(spans[k].start), h.tracker.threshold, h.tracker.cycle, |envs|)
  {
    DeadRun(envs, spans, probes, h, k);
    assert Consistent(h.tracker.At(spans[k].start), h.tracker.threshold);
    DeadSteps(h.tracker.At(spans[k].start), h.tracker.threshold, h.tracker.cycle, |envs|);
  }

  /** A fresh span needs at most threshold + 3 dead cycles: six by default. */
  lemma {:induction false} FreshSkippedBy(threshold: int, cycle: nat)
    requires threshold >= 1
    ensures threshold + 2 <= UntilSkipped(FRESH, threshold, cycle) <= threshold + 3
    ensures UntilSkipped(FRESH, DEFAULT_THRESHOLD, cycle) <= 6
  {
  }

  /** Requests for registers in [lo, hi). */
  function CountIn(rs: seq<Request>, lo: int, hi: int): nat {
    if rs == [] then 0
    else CountIn(rs[..|rs| - 1], lo, hi) + if lo <= rs[|rs| - 1].addr < hi then 1 else 0
  }

  lemma {:induction false} CountConcat(a: seq<Request>, b: seq<Request>, lo: int, hi: int)
    ensures CountIn(a + b, lo, hi) == CountIn(a, lo, hi) + CountIn(b, lo, hi)
  {
    if b == [] {
      assert a + b == a;
    } else {
      var n := |b| - 1;
      CountConcat(a, b[..n], lo, hi);
      assert (a + b)[..|a + b| - 1] == a + b[..n];
    }
  }

  lemma {:induction false} CountBound(rs: seq<Request>, lo: int, hi: int)
    ensures CountIn(rs, lo, hi) <= |rs|
    ensures (forall r :: r in rs ==> !(lo <= r.addr < hi)) ==> CountIn(rs, lo, hi) == 0
  {
    if rs != [] {
      CountBound(rs[..|rs| - 1], lo, hi);
    }
  }

  /** The most a span can cost in one cycle. */
  function Price(span: Span, attempted: bool): nat {
    if attempted then 1 + |span.probes| else 0
  }

  lemma {:induction false} AddsInside(span: Span, c: Cycle, d: Cycle, r: Request)
    requires GoodSpan(span) && Adds(span, c, d) && r in d.asked[|c.asked|..]
    ensures span.start <= r.addr < span.End()
  {
    var more := d.asked[|c.asked|..];
    var i :| 0 <= i < |more| && more[i] == r;
    CostInside(span, c.asked, d.asked, |c.asked| + i);
  }

  lemma {:induction false} AddsCost(span: Span, c: Cycle, d: Cycle, lo: int, hi: int)
    requires GoodSpan(span) && Adds(span, c, d)
    ensures CountIn(d.asked, lo, hi) <= CountIn(c.asked, lo, hi) + 1 + |span.probes|
    ensures span.End() <= lo || hi <= span.start ==> CountIn(d.asked, lo, hi) == CountIn(c.asked, lo, hi)
  {
    var more := d.asked[|c.asked|..];
    assert d.asked == c.asked + more;
    CountConcat(c.asked, more, lo, hi);
    CountBound(more, lo, hi);
    forall r | r in more
      ensures span.start <= r.addr < span.End()
    {
      AddsInside(span, c, d, r);
    }
  }

  /** The requests a pass over a span adds number at most one per probe and one
      for the span, all of them for registers of the span. */
  lemma {:induction false} SpanPassCost(env: Env, idx: map<word, nat>, span: Span, c: Cycle, lo: int, hi: int)
    requires GoodSpan(span)
    ensures var d := SpanPass(env, idx, span, c);
      && CountIn(d.asked, lo, hi) <=
           CountIn(c.asked, lo, hi) + Price(span, Attempted(c.tracker.At(span.start), c.tracker.cycle))
      && (span.End() <= lo || hi <= span.start ==> CountIn(d.asked, lo, hi) == CountIn(c.asked, lo, hi))
  {
    SpanPassPrefix(env, idx, span, c);
    AddsCost(span, c, SpanPass(env, idx, span, c), lo, hi);
  }

  lemma {:induction false} CostInside(span: Span, before: seq<Request>, after: seq<Request>, i: nat)
    requires GoodSpan(span) && |before| <= i < |after|
    requires after <= before + Individual(span.probes) || after <= before + FullCost(span)
    ensures span.start <= after[i].addr < span.End()
  {
    assert WellPlaced(span.probes[0], span);
    var all := if after <= before + Individual(span.probes) then Individual(span.probes) else FullCost(span);
    assert after[i] == (before + all)[i] == all[i - |before|];
    if all[i - |before|] != Request(span.start, span.total) {
      var j := if after <= before + Individual(span.probes) then i - |before| else i - |before| - 1;
      assert all[i - |before|] == Individual(span.probes)[j] == RequestFor(span.probes[j].tag);
      assert WellPlaced(span.probes[j], span);
    }
  }

  /** What the planner guarantees of its spans. */
  ghost predicate Readable(spans: seq<Span>) {
    && Usable(spans)
    && (forall k :: 0 <= k < |spans| ==> GoodSpan(spans[k]))
    && (forall i, j :: 0 <= i < j < |spans| ==> spans[i].End() <= spans[j].start)
  }

  lemma {:induction false} PlanReadable(groups: seq<ProbeGroup>, plan: BatchPlan)
    requires IsPlan(groups, plan) && NoWrap(Real(Flatten(groups)))
    ensures Readable(plan.spans)
  {
    ExactCover(groups, plan);
    PlanUsable(groups, plan);
  }

  lemma {:induction false} ForeignCost(env: Env, idx: map<word, nat>, spans: seq<Span>, c: Cycle, lo: int, hi: int)
    requires forall k :: 0 <= k < |spans| ==> GoodSpan(spans[k]) && (spans[k].End() <= lo || hi <= spans[k].start)
    ensures CountIn(Pass(env, idx, spans, c).asked, lo, hi) == CountIn(c.asked, lo, hi)
    decreases |spans|
  {
    if spans != [] && !c.stopped {
      SpanPassCost(env, idx, spans[0], c, lo, hi);
      ForeignCost(env, idx, spans[1..], SpanPass(env, idx, spans[0], c), lo, hi);
    }
  }

  /** One cycle, cancelled or not, asks for registers of a span only if it attempts
      the span, and then at most once for the span and once for each probe. */
  lemma {:induction false} PassCost(env: Env, idx: map<word, nat>, spans: seq<Span>, c: Cycle, k: nat)
    requires Readable(spans) && k < |spans| && TrackerOk(c.tracker)
    ensures var s := spans[k];
      CountIn(Pass(env, idx, spans, c).asked, s.start, s.End()) <=
      CountIn(c.asked, s.start, s.End()) + Price(s, Attempted(c.tracker.At(s.start), c.tracker.cycle))
    decreases |spans|
  {
    if !c.stopped {
      var s, e := spans[k], SpanPass(env, idx, spans[0], c);
      SpanPassCost(env, idx, spans[0], c, s.start, s.End());
      if k == 0 {
        ForeignCost(env, idx, spans[1..], e, s.start, s.End());
      } else {
        assert spans[0].start != s.start && spans[0].End() <= s.start;
        SpanPassKeepsOk(env, idx, spans[0], c);
        PassCost(env, idx, spans[1..], e, k - 1);
      }
    }
  }

  function TotalPrice(envs: seq<Env>, spans: seq<Span>, probes: seq<Probe>, h: History, span: Span): nat
    decreases |envs|
  {
    if envs == [] then 0
    else
      Price(span, Attempted(h.tracker.At(span.start), h.tracker.cycle + 1))
      + TotalPrice(envs[1..], spans, probes, After(envs[0], spans, probes, h), span)
  }

  lemma {:induction false} AfterCost(env: Env, spans: seq<Span>, probes: seq<Probe>, h: History, k: nat)
    requires Readable(spans) && TrackerOk(h.tracker) && k < |spans|
    ensures var s, h' := spans[k], After(env, spans, probes, h);
      && TrackerOk(h'.tracker)
      && CountIn(h'.asked, s.start, s.End()) <=
           CountIn(h.asked, s.start, s.End()) + Price(s, Attempted(h.tracker.At(s.start), h.tracker.cycle + 1))
  {
    TickOk(h.tracker);
    PassCost(env, AddrToIdx(probes), spans, Start(h, probes), k);
    PassKeepsOk(env, AddrToIdx(probes), spans, Start(h, probes));
  }

  /** Over any run, cancelled cycles included, a span costs at most its price for
      every cycle that attempts it. */
  lemma {:induction false} RunCost(envs: seq<Env>, spans: seq<Span>, probes: seq<Probe>, h: History, k: nat)
    requires Readable(spans) && TrackerOk(h.tracker) && k < |spans|
    ensures CountIn(Cycles(envs, spans, probes, h).asked, spans[k].start, spans[k].End()) <=
            CountIn(h.asked, spans[k].start, spans[k].End()) + TotalPrice(envs, spans, probes, h, spans[k])
    decreases |envs|
  {
    if envs != [] {
      AfterCost(envs[0], spans, probes, h, k);
      RunCost(envs[1..], spans, probes, After(envs[0], spans, probes, h), k);
    }
  }

  lemma {:induction false} TotalPriceIs(envs: seq<Env>, spans: seq<Span>, probes: seq<Probe>, h: History, span: Span)
    ensures TotalPrice(envs, spans, probes, h, span) ==
            (1 + |span.probes|) * Tried(envs, spans, probes, h, span.start)
    decreases |envs|
  {
    if envs != [] {
      var next := After(envs[0], spans, probes, h);
      TotalPriceIs(envs[1..], spans, probes, next, span);
      MulAdd(1 + |span.probes|, if Attempted(h.tracker.At(span.start), h.tracker.cycle + 1) then 1 else 0,
             Tried(envs[1..], spans, probes, next, span.start));
    }
  }

  /** The attempts on a dead span over n cycles: every cycle until it is skipped,
      then one in ten. */
  function DeadTries(r: Record, threshold: int, cycle: nat, n: nat): int {
    var u := UntilSkipped(r, threshold, cycle);
    if n <= u then n else u + (cycle + n) / PROBE_INTERVAL - (cycle + u) / PROBE_INTERVAL
  }

  lemma {:induction false} DeadTriesStep(r: Record, threshold: int, cycle: nat, n: nat)
    requires threshold >= 1 && Consistent(r, threshold) && n >= 1
    ensures DeadTries(r, threshold, cycle, n) == (if Attempted(r, cycle + 1) then 1 else 0) +
            DeadTries(SpanStep(r, threshold, cycle + 1, false, false), threshold, cycle + 1, n - 1)
  {
    ProbeStep(cycle);
  }

  lemma {:induction false} DeadTriesExact(r: Record, threshold: int, cycle: nat, n: nat)
    requires threshold >= 1 && Consistent(r, threshold)
    ensures Tries(r, threshold, cycle, Same(Outcome(false, false), n)) == DeadTries(r, threshold, cycle, n)
    decreases n
  {
    if n > 0 {
      var o := Outcome(false, false);
      assert Same(o, n)[0] == o && Same(o, n)[1..] == Same(o, n - 1);
      StepConsistent(r, threshold, cycle + 1, false, false);
      DeadTriesStep(r, threshold, cycle, n);
      DeadTriesExact(SpanStep(r, threshold, cycle + 1, false, false), threshold, cycle + 1, n - 1);
    }
  }

  lemma {:induction false} DeadSpanTried(envs: seq<Env>, spans: seq<Span>, probes: seq<Probe>, h: History, k: nat)
    requires Tracked(spans, h) && k < |spans| && Uncancelled(envs, spans, probes, h)
    requires forall e :: e in envs ==> Dead(e, spans[k])
    ensures Tried(envs, spans, probes, h, spans[k].start) ==
            DeadTries(h.tracker.At(spans[k].start), h.tracker.threshold, h.tracker.cycle, |envs|)
  {
    DeadRun(envs, spans, probes, h, k);
    assert Consistent(h.tracker.At(spans[k].start), h.tracker.threshold);
    DeadTriesExact(h.tracker.At(spans[k].start), h.tracker.threshold, h.tracker.cycle, |envs|);
  }

  /** Broker requests a fresh dead span costs over n cycles of its plan. */
  lemma {:induction false} DeadSpanCost(envs: seq<Env>, groups: seq<ProbeGroup>, plan: BatchPlan, probes: seq<Probe>,
                                        h: History, k: nat)
    requires IsPlan(groups, plan) && NoWrap(Real(Flatten(groups))) && k < |plan.spans| && TrackerOk(h.tracker)
    requires Uncancelled(envs, plan.spans, probes, h) && forall e :: e in envs ==> Dead(e, plan.spans[k])
    requires h.tracker.At(plan.spans[k].start) == FRESH
    ensures var s := plan.spans[k];
      CountIn(Cycles(envs, plan.spans, probes, h).asked, s.start, s.End()) - CountIn(h.asked, s.start, s.End()) <=
      (1 + |s.probes|) * (h.tracker.threshold + 3 + (|envs| + 9) / PROBE_INTERVAL)
  {
    PlanReadable(groups, plan);
    FreshDeadTries(envs, plan.spans, probes, h, k);
    TriesCost(envs, plan.spans, probes, h, k, h.tracker.threshold + 3 + (|envs| + 9) / PROBE_INTERVAL);
  }

  lemma {:induction false} FreshDeadTries(envs: seq<Env>, spans: seq<Span>, probes: seq<Probe>, h: History, k: nat)
    requires Tracked(spans, h) && k < |spans| && Uncancelled(envs, spans, probes, h)
    requires forall e :: e in envs ==> Dead(e, spans[k])
    requires h.tracker.At(spans[k].start) == FRESH
    ensures Tried(envs, spans, probes, h, spans[k].start) <=
            h.tracker.threshold + 3 + (|envs| + 9) / PROBE_INTERVAL
  {
    DeadSpanTried(envs, spans, probes, h, k);
    DeadTriesBound(h.tracker.threshold, h.tracker.cycle, |envs|);
  }

  /** What a span costs when it is attempted in at most so many cycles. */
  lemma {:induction false} TriesCost(envs: seq<Env>, spans: seq<Span>, probes: seq<Probe>, h: History, k: nat,
                                     most: int)
    requires Readable(spans) && TrackerOk(h.tracker) && k < |spans|
    requires Tried(envs, spans, probes, h, spans[k].start) <= most
    ensures var s := spans[k];
      CountIn(Cycles(envs, spans, probes, h).asked, s.start, s.End()) - CountIn(h.asked, s.start, s.End()) <=
      (1 + |s.probes|) * most
  {
    RunCost(envs, spans, probes, h, k);
    TotalPriceIs(envs, spans, probes, h, spans[k]);
    MulLe(1 + |spans[k].probes|, Tried(envs, spans, probes, h, spans[k].start), most);
  }

  lemma {:induction false} DeadTriesBound(threshold: int, cycle: nat, n: nat)
    requires threshold >= 1
    ensures DeadTries(FRESH, threshold, cycle, n) <= threshold + 3 + (n + 9) / PROBE_INTERVAL
  {
    FreshSkippedBy(threshold, cycle);
  }

  lemma {:induction false} MulAdd(a: int, x: int, y: int)
    ensures a * (x + y) == a * x + a * y
  {
  }

  lemma {:induction false} MulLe(a: nat, x: int, y: int)
    requires x <= y
    ensures a * x <= a * y
  {
  }

  /** Once skipped, a dead span is attempted in exactly one of any ten cycles. */
  lemma {:induction false} SkippedOneInTen(envs: seq<Env>, spans: seq<Span>, probes: seq<Probe>, h: History, k: nat)
    requires Tracked(spans, h) && k < |spans| && Uncancelled(envs, spans, probes, h) && |envs| == 10
    requires forall e :: e in envs ==> Dead(e, spans[k])
    requires h.tracker.State(spans[k].start) == Skipped
    ensures Tried(envs, spans, probes, h, spans[k].start) == 1
  {
    DeadSpanTried(envs, spans, probes, h, k);
  }
}
