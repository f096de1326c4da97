/** When a plan keeps the limit of a request, also for probes that outgrow those they
    overlap: decided by the blocks of probes that overlap one another. */
module BatchLimits {
  import opened Registers
  import opened BatchPlanner
  import opened BatchPlanTheorems

  /** The registers of probes connected by overlaps, and the end of the first of them. */
  datatype Block = Block(lo: int, hi: int, firstEnd: int)

  function AddTo(bs: seq<Block>, t: Tagged): (r: seq<Block>)
    ensures r != []
  {
    var n := |bs| - 1;
    if bs != [] && t.Lo() < bs[n].hi then bs[..n] + [bs[n].(hi := if t.Hi() > bs[n].hi then t.Hi() else bs[n].hi)]
    else bs + [Block(t.Lo(), t.Hi(), t.Hi())]
  }

  /** The blocks of probes in ascending order. */
  function Blocks(ts: seq<Tagged>): seq<Block> {
    if ts == [] then [] else AddTo(Blocks(ts[..|ts| - 1]), ts[|ts| - 1])
  }

  /** Where the span that holds the last block begins: a block joins the span before it
      exactly if it is contiguous and its first probe still fits. */
  function SpanStart(bs: seq<Block>): int
    requires bs != []
  {
    var n := |bs| - 1;
    if n > 0 && bs[n].lo == bs[n - 1].hi && bs[n].firstEnd - SpanStart(bs[..n]) <= 60
    then SpanStart(bs[..n]) else bs[n].lo
  }

  /** No block ends beyond the limit of the span it belongs to, be it alone in the span or
      behind others. */
  predicate Fit(bs: seq<Block>) {
    bs == [] || (bs[|bs| - 1].hi - SpanStart(bs) <= 60 && Fit(bs[..|bs| - 1]))
  }

  lemma {:induction false} WithinLimitSnoc(spans: seq<Span>, sp: Span)
    ensures WithinLimit(spans + [sp]) <==> WithinLimit(spans) && sp.total <= 60
  {
    assert (spans + [sp])[|spans|] == sp;
    assert forall k :: 0 <= k < |spans| ==> (spans + [sp])[k] == spans[k];
  }

  /** The open span is the one that holds the last block. */
  ghost predicate Tied(m: Merge, bs: seq<Block>) {
    && bs != [] && m.cur.start == SpanStart(bs) && m.cur.End() == bs[|bs| - 1].hi
    && (WithinLimit(m.All()) <==> Fit(bs))
  }

  /** A probe that overlaps the last block. */
  lemma {:induction false} GrownTied(closed: seq<Span>, cur: Span, grown: Span, bs: seq<Block>, t: Tagged)
    requires Tied(Merge(closed, cur), bs) && t.Lo() < cur.End() && grown.start == cur.start
    requires grown.End() == if t.Hi() > cur.End() then t.Hi() else cur.End()
    ensures Tied(Merge(closed, grown), AddTo(bs, t))
  {
    var n, cs := |bs| - 1, AddTo(bs, t);
    assert cs[..n] == bs[..n];
    WithinLimitSnoc(closed, cur);
    WithinLimitSnoc(closed, grown);
  }

  /** A contiguous probe that fits the open span. */
  lemma {:induction false} JoinedTied(closed: seq<Span>, cur: Span, grown: Span, bs: seq<Block>, t: Tagged)
    requires Tied(Merge(closed, cur), bs) && t.Lo() == cur.End() && grown.start == cur.start
    requires t.probe.count > 0 && grown.End() == t.Hi() && grown.total <= 60
    ensures Tied(Merge(closed, grown), AddTo(bs, t))
  {
    assert AddTo(bs, t)[..|bs|] == bs;
    WithinLimitSnoc(closed, cur);
    WithinLimitSnoc(closed, grown);
  }

  /** A probe that opens a span. */
  lemma {:induction false} OpenedTied(m: Merge, bs: seq<Block>, t: Tagged)
    requires Tied(m, bs) && m.cur.End() <= t.Lo() && t.probe.count > 0 && Separated(m.cur, Open(t))
    ensures Tied(Merge(m.All(), Open(t)), AddTo(bs, t))
  {
    assert AddTo(bs, t)[..|bs|] == bs;
    WithinLimitSnoc(m.All(), Open(t));
  }

  lemma {:induction false} StepTied(m: Merge, bs: seq<Block>, t: Tagged)
    requires GoodSpan(m.cur) && m.cur.start <= t.Lo() && t.probe.count > 0 && StepClear(m.cur, t) && Tied(m, bs)
    ensures Tied(Step(m, t), AddTo(bs, t))
  {
    var next := Step(m, t);
    StepCases(m, t);
    if next == Merge(m.All(), Open(t)) {
      OpenedTied(m, bs, t);
    } else if t.Lo() < m.cur.End() {
      GrownTied(m.closed, m.cur, next.cur, bs, t);
    } else {
      JoinedTied(m.closed, m.cur, next.cur, bs, t);
    }
  }

  lemma {:induction false} NextTied(front: seq<Tagged>, t: Tagged)
    requires front != [] && Sorted(front + [t]) && Sorted(front) && AllReal(front) && Low(front)
    requires t.probe.count > 0 && StepClear(MergeAll(front).cur, t) && Tied(MergeAll(front), Blocks(front))
    ensures Tied(MergeAll(front + [t]), Blocks(front + [t]))
  {
    var m := MergeAll(front);
    OpenBefore(front, t);
    StepTied(m, Blocks(front), t);
    assert (front + [t])[..|front|] == front;
  }

  lemma {:induction false} OpenBefore(front: seq<Tagged>, t: Tagged)
    requires front != [] && Sorted(front + [t]) && Sorted(front) && AllReal(front) && Low(front)
    ensures GoodSpan(MergeAll(front).cur) && MergeAll(front).cur.start <= t.Lo()
  {
    var m := MergeAll(front);
    LowGood(front);
    CurTags(m, front);
    StartsBefore(m.closed, m.cur, front, t);
  }

  lemma {:induction false} FirstTied(t: Tagged)
    requires t.probe.count > 0
    ensures Tied(MergeAll([t]), Blocks([t]))
  {
    assert [t][..0] == [];
    WithinLimitSnoc([], Open(t));
  }

  lemma {:induction false} LowTied(ts: seq<Tagged>)
    requires ts != [] && Sorted(ts) && AllReal(ts) && Low(ts)
    ensures Tied(MergeAll(ts), Blocks(ts))
  {
    var front, t := ts[..|ts| - 1], ts[|ts| - 1];
    assert ts == front + [t] && t in ts;
    if front == [] {
      FirstTied(t);
    } else {
      FrontOf(front, t);
      LowGood(front);
      CurTags(MergeAll(front), front);
      LowTied(front);
      NextTied(front, t);
    }
  }

  /** Sorted probes are planned within the limit exactly if their blocks fit. */
  lemma {:induction false} LimitByBlocks(ts: seq<Tagged>)
    requires Plannable(ts)
    ensures WithinLimit(SpansOf(ts)) <==> Fit(Blocks(ts))
  {
    if ts != [] {
      var front, t := ts[..|ts| - 1], ts[|ts| - 1];
      assert ts == front + [t] && t in ts;
      if front == [] {
        FirstTied(t);
      } else {
        LastClear(front, t);
        LowTied(front);
        NextTied(front, t);
      }
    }
  }

  /** Block k breaks the limit, alone or behind the blocks it joins. */
  predicate Breaks(bs: seq<Block>, k: nat)
    requires k < |bs|
  {
    bs[k].hi - SpanStart(bs[..k + 1]) > 60
  }

  /** Exactly such a block is why a plan exceeds the limit. */
  lemma {:induction false} FitExactly(bs: seq<Block>)
    ensures Fit(bs) <==> forall k :: 0 <= k < |bs| ==> !Breaks(bs, k)
  {
    if bs != [] {
      var front := bs[..|bs| - 1];
      FitExactly(front);
      assert bs[..|bs| - 1 + 1] == bs;
      forall k | 0 <= k < |front|
        ensures Breaks(front, k) <==> Breaks(bs, k)
      {
        assert front[..k + 1] == bs[..k + 1];
      }
      assert Fit(bs) <==> Fit(front) && !Breaks(bs, |front|);
    }
  }

  // ---- an unstable sort may decide ----

  lemma {:induction false} BlocksSnoc(ts: seq<Tagged>, t: Tagged)
    ensures Blocks(ts + [t]) == AddTo(Blocks(ts), t)
  {
    assert (ts + [t])[..|ts|] == ts;
  }

  lemma {:induction false} FitSnoc(bs: seq<Block>, b: Block)
    ensures Fit(bs + [b]) <==> Fit(bs) && b.hi - SpanStart(bs + [b]) <= 60
    ensures SpanStart(bs + [b]) ==
            if bs != [] && b.lo == bs[|bs| - 1].hi && b.firstEnd - SpanStart(bs) <= 60
            then SpanStart(bs) else b.lo
  {
    assert (bs + [b])[..|bs|] == bs;
  }

  /** A probe at the start, and two behind it that share an address. */
  ghost predicate TwoBehind(a: Tagged, b: Tagged, c: Tagged) {
    && a.Lo() == 0 && a.Hi() == 50 && b.Lo() == c.Lo() == 50 && b.probe.count > 0 && c.probe.count > 0
    && b.Hi() <= 70 && c.Hi() <= 70 && (b.Hi() == 70 || c.Hi() == 70)
  }

  lemma {:induction false} TwoBehindBlocks(a: Tagged, b: Tagged, c: Tagged)
    requires TwoBehind(a, b, c)
    ensures Blocks([a, b, c]) == [Block(0, 50, 50), Block(50, 70, b.Hi())]
  {
    assert [a, b, c] == [a, b] + [c] && [a, b] == [a] + [b] && [a] == [] + [a];
    BlocksSnoc([], a);
    BlocksSnoc([a], b);
    BlocksSnoc([a, b], c);
  }

  lemma {:induction false} TwoBlocksFit(first: Block, second: Block)
    requires first == Block(0, 50, 50) && second.lo == 50 && second.hi == 70
    ensures Fit([first, second]) <==> second.firstEnd > 60
  {
    assert [first, second] == [first] + [second] && [first] == [] + [first];
    FitSnoc([], first);
    FitSnoc([first], second);
  }

  /** What matters is whether the first of the two still fits. */
  lemma {:induction false} TwoBehindLimit(a: Tagged, b: Tagged, c: Tagged)
    requires TwoBehind(a, b, c)
    ensures Plannable([a, b, c]) && (WithinLimit(SpansOf([a, b, c])) <==> b.Hi() > 60)
  {
    LowMeansNoWrap([a, b, c]);
    LimitByBlocks([a, b, c]);
    TwoBehindBlocks(a, b, c);
    TwoBlocksFit(Block(0, 50, 50), Block(50, 70, b.Hi()));
  }

  /** The same probes are planned within the limit or beyond it, depending on the order in
      which an unstable sort leaves probes of one address. */
  lemma {:induction false} OrderDecides()
    ensures var a, b, c := Tagged(Probe("p", 0, 50), "g"), Tagged(Probe("q", 50, 10), "g"),
                           Tagged(Probe("r", 50, 20), "g");
      && multiset([a, b, c]) == multiset([a, c, b]) && Plannable([a, b, c]) && Plannable([a, c, b])
      && !WithinLimit(SpansOf([a, b, c])) && WithinLimit(SpansOf([a, c, b]))
  {
    var a, b, c := Tagged(Probe("p", 0, 50), "g"), Tagged(Probe("q", 50, 10), "g"), Tagged(Probe("r", 50, 20), "g");
    TwoBehindLimit(a, b, c);
    TwoBehindLimit(a, c, b);
  }

  /** For the plans of a section: exactly those whose probes, in the order in which the
      planner took them, form blocks that fit. */
  lemma {:induction false} PlanLimitExact(groups: seq<ProbeGroup>, plan: BatchPlan) returns (ts: seq<Tagged>)
    requires IsPlan(groups, plan) && NoWrap(Real(Flatten(groups)))
    ensures SortedPermutation(ts, Real(Flatten(groups))) && plan.spans == SpansOf(ts)
    ensures WithinLimit(plan.spans) <==> Fit(Blocks(ts))
  {
    ts := PlanSource(groups, plan);
    LimitByBlocks(ts);
  }
}
