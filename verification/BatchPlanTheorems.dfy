/** What a plan guarantees: it covers exactly the requested registers, keeps
    every probe, respects the request limit where that is possible, and uses as
    few requests as any other plan could. */
module BatchPlanTheorems {
  import opened Registers
  import opened BatchPlanner

  // ---- when the address arithmetic is safe ----

  ghost predicate Apart(t: Tagged, u: Tagged) {
    t.Hi() <= u.Lo() || u.Hi() <= t.Lo()
  }

  ghost predicate Requested(r: int, ts: seq<Tagged>) {
    exists t :: t in ts && t.Covers(r)
  }

  /** Every end address fits 16 bits. */
  ghost predicate Low(ts: seq<Tagged>) {
    forall t :: t in ts ==> t.Hi() < 0x1_0000
  }

  /** Every probe lies within the 65536 registers of a device. */
  ghost predicate WithinSpace(ts: seq<Tagged>) {
    forall t :: t in ts ==> t.Hi() <= 0x1_0000
  }

  /** A probe that reads the last register, whose end address is 0, overlaps no other. */
  ghost predicate TopAlone(ts: seq<Tagged>) {
    && (forall t, u :: t in ts && u in ts && t.Hi() == 0x1_0000 && t != u ==> Apart(t, u))
    && (forall t :: t in ts && t.Hi() == 0x1_0000 ==> multiset(ts)[t] == 1)
  }

  /** Some register is not asked for. */
  ghost predicate RoomLeft(ts: seq<Tagged>) {
    exists r :: 0 <= r < 0x1_0000 && !Requested(r, ts)
  }

  /** No register is requested twice. */
  ghost predicate NonOverlapping(ts: seq<Tagged>) {
    && (forall t, u :: t in ts && u in ts && t != u ==> Apart(t, u))
    && (forall t :: t in ts ==> multiset(ts)[t] == 1)
  }

  /** A probe that starts inside another one also ends inside it. */
  ghost predicate Nested(ts: seq<Tagged>) {
    forall t, u :: t in ts && u in ts && t.Lo() <= u.Lo() < t.Hi() ==> u.Hi() <= t.Hi()
  }

  /** Everything below the probe that reads the last register fits one span. */
  ghost predicate OneSpanBelow(ts: seq<Tagged>) {
    exists t :: t in ts && t.Hi() == 0x1_0000
      && (t.Lo() <= 60 || exists u :: u in ts && u.Lo() == 0 && u.Hi() == t.Lo())
  }

  /** The wrap-around of 16-bit end addresses and counts does no harm. */
  ghost predicate NoWrap(ts: seq<Tagged>) {
    WithinSpace(ts) && TopAlone(ts) && (RoomLeft(ts) || (Nested(ts) && !OneSpanBelow(ts)))
  }

  lemma {:induction false} LowMeansNoWrap(ts: seq<Tagged>)
    requires Low(ts)
    ensures NoWrap(ts)
  {
    assert !Requested(0xFFFF, ts);
  }

  lemma {:induction false} FitMeansNoWrap(groups: seq<ProbeGroup>)
    requires GroupsFit(groups)
    ensures NoWrap(Real(Flatten(groups)))
  {
    forall t | t in Real(Flatten(groups))
      ensures t.Hi() < 0x1_0000
    {
      SplitPreservesProbes(Flatten(groups));
      FittingProbes(groups, t);
    }
    LowMeansNoWrap(Real(Flatten(groups)));
  }

  lemma {:induction false} SameMembers(ts: seq<Tagged>, us: seq<Tagged>)
    requires multiset(ts) == multiset(us)
    ensures forall t :: t in ts <==> t in us
    ensures forall r :: Requested(r, ts) <==> Requested(r, us)
  {
    forall t
      ensures t in ts <==> t in us
    {
      assert t in ts <==> t in multiset(ts);
      assert t in us <==> t in multiset(us);
    }
    forall r
      ensures Requested(r, ts) <==> Requested(r, us)
    {
      if Requested(r, ts) {
        var t :| t in ts && t.Covers(r);
        assert t in us;
      }
      if Requested(r, us) {
        var t :| t in us && t.Covers(r);
        assert t in ts;
      }
    }
  }

  /** The order of the probes does not matter. */
  lemma {:induction false} NoWrapSame(ts: seq<Tagged>, us: seq<Tagged>)
    requires multiset(ts) == multiset(us) && NoWrap(ts)
    ensures NoWrap(us)
  {
    SameMembers(ts, us);
    if OneSpanBelow(us) {
      assert OneSpanBelow(ts);
    }
  }

  lemma {:induction false} ApartMeansNested(ts: seq<Tagged>)
    requires NonOverlapping(ts)
    ensures Nested(ts) && TopAlone(ts)
  {
    forall t, u | t in ts && u in ts && t.Lo() <= u.Lo() < t.Hi()
      ensures u.Hi() <= t.Hi()
    {
      assert t != u ==> Apart(t, u);
    }
  }

  // ---- spans ----

  ghost predicate AllReal(ts: seq<Tagged>) {
    forall t :: t in ts ==> t.probe.count != 0
  }

  /** What the planner is given after sorting. */
  ghost predicate Plannable(ts: seq<Tagged>) {
    Sorted(ts) && AllReal(ts) && NoWrap(ts)
  }

  function TagsIn(ms: seq<Mapping>): (ts: seq<Tagged>)
    ensures |ts| == |ms|
  {
    seq(|ms|, i requires 0 <= i < |ms| => ms[i].tag)
  }

  /** The probes of a list of spans, in order. */
  function Placed(spans: seq<Span>): seq<Tagged> {
    if spans == [] then [] else Placed(spans[..|spans| - 1]) + TagsIn(spans[|spans| - 1].probes)
  }

  ghost predicate WellPlaced(m: Mapping, sp: Span) {
    && m.tag.probe.count > 0 && sp.start <= m.tag.Lo() && m.tag.Hi() <= sp.End()
    && m.offset == 2 * (m.tag.Lo() - sp.start)
    && m.length == 2 * m.tag.probe.count
  }

  ghost predicate GoodSpan(sp: Span) {
    && sp.probes != [] && sp.probes[0].tag.Lo() == sp.start
    && sp.total > 0 && sp.End() <= 0x1_0000
    && (forall k :: 0 <= k < |sp.probes| ==> WellPlaced(sp.probes[k], sp))
    && (forall r :: sp.start <= r < sp.End() ==> Requested(r, TagsIn(sp.probes)))
  }

  /** Why the planner started a new span: unrequested registers in between, or
      no room for the next probe. */
  ghost predicate Separated(a: Span, b: Span) {
    || a.End() < b.start
    || (a.End() == b.start && b.probes != [] && a.total + b.probes[0].tag.probe.count > 60)
  }

  ghost predicate GoodSpans(spans: seq<Span>) {
    && (forall k :: 0 <= k < |spans| ==> GoodSpan(spans[k]))
    && (forall k :: 0 <= k < |spans| - 1 ==> Separated(spans[k], spans[k + 1]))
  }

  lemma {:induction false} Grow(cur: Span, t: Tagged, total: word)
    requires GoodSpan(cur) && t.probe.count > 0 && t.Hi() <= 0x1_0000
    requires cur.start <= t.Lo() <= cur.End()
    requires cur.start + total == if t.Hi() > cur.End() then t.Hi() else cur.End()
    ensures GoodSpan(Span(cur.start, total, cur.probes + [Place(t, cur.start)]))
  {
    var grown := Span(cur.start, total, cur.probes + [Place(t, cur.start)]);
    var tags := TagsIn(grown.probes);
    assert tags == TagsIn(cur.probes) + [t];
    assert t in tags;
    forall r | grown.start <= r < grown.End()
      ensures Requested(r, tags)
    {
      if r < cur.End() {
        assert Requested(r, TagsIn(cur.probes));
        var u :| u in TagsIn(cur.probes) && u.Covers(r);
        assert u in tags;
      } else {
        assert t.Covers(r);
      }
    }
    forall k | 0 <= k < |grown.probes|
      ensures WellPlaced(grown.probes[k], grown)
    {
      assert k < |cur.probes| ==> WellPlaced(cur.probes[k], cur);
    }
  }

  lemma {:induction false} OpenGood(t: Tagged)
    requires t.probe.count > 0 && t.Hi() <= 0x1_0000
    ensures GoodSpan(Open(t)) && TagsIn(Open(t).probes) == [t]
  {
    assert TagsIn(Open(t).probes)[0] == t;
    forall r | t.Lo() <= r < t.Hi()
      ensures Requested(r, TagsIn(Open(t).probes))
    {
      assert t.Covers(r);
    }
  }

  lemma {:induction false} PlacedSnoc(spans: seq<Span>, sp: Span)
    ensures Placed(spans + [sp]) == Placed(spans) + TagsIn(sp.probes)
  {
    assert (spans + [sp])[..|spans|] == spans;
  }

  lemma {:induction false} ReplaceLast(closed: seq<Span>, cur: Span, grown: Span)
    requires GoodSpans(closed + [cur]) && GoodSpan(grown)
    requires grown.start == cur.start && cur.probes <= grown.probes
    ensures GoodSpans(closed + [grown])
  {
    var before, after := closed + [cur], closed + [grown];
    assert before[|closed|] == cur;
    forall k | 0 <= k < |after|
      ensures GoodSpan(after[k])
    {
      assert k < |closed| ==> after[k] == before[k];
    }
    forall k | 0 <= k < |after| - 1
      ensures Separated(after[k], after[k + 1])
    {
      assert Separated(before[k], before[k + 1]);
    }
  }

  lemma {:induction false} AppendSpan(spans: seq<Span>, sp: Span)
    requires GoodSpans(spans) && GoodSpan(sp) && (spans != [] ==> Separated(spans[|spans| - 1], sp))
    ensures GoodSpans(spans + [sp])
  {
    var after := spans + [sp];
    forall k | 0 <= k < |after|
      ensures GoodSpan(after[k])
    {
      assert k < |spans| ==> after[k] == spans[k];
    }
    forall k | 0 <= k < |after| - 1
      ensures Separated(after[k], after[k + 1])
    {
      assert k < |spans| - 1 ==> Separated(spans[k], spans[k + 1]);
    }
  }

  /** The open span starts no later than the next probe. */
  lemma {:induction false} StartsBefore(closed: seq<Span>, cur: Span, ts: seq<Tagged>, t: Tagged)
    requires GoodSpan(cur) && Placed(closed + [cur]) == ts && Sorted(ts + [t])
    ensures cur.start <= t.Lo()
  {
    PlacedSnoc(closed, cur);
    assert ts == Placed(closed) + TagsIn(cur.probes);
    var i := |Placed(closed)|;
    assert (ts + [t])[i] == TagsIn(cur.probes)[0] == cur.probes[0].tag;
    assert (ts + [t])[i].Lo() <= (ts + [t])[|ts|].Lo();
  }

  /** The open span has not reached the last register, and the next probe does so only
      without overlapping it and without making it as long as the whole space. */
  ghost predicate StepClear(cur: Span, t: Tagged) {
    && cur.End() < 0x1_0000
    && (|| t.Hi() < 0x1_0000
        || (t.Hi() == 0x1_0000 && cur.End() <= t.Lo() && (cur.start > 0 || cur.End() < t.Lo())))
  }

  /** An iteration either grows the open span to the true end of its probes or closes
      it for one of the two allowed reasons. */
  lemma {:induction false} StepCases(m: Merge, t: Tagged)
    requires GoodSpan(m.cur) && m.cur.start <= t.Lo() && t.probe.count > 0 && StepClear(m.cur, t)
    ensures var next := Step(m, t);
      || (&& next.closed == m.closed && t.Lo() <= m.cur.End()
          && next.cur.start == m.cur.start && next.cur.probes == m.cur.probes + [Place(t, m.cur.start)]
          && next.cur.End() == (if t.Hi() > m.cur.End() then t.Hi() else m.cur.End())
          && (t.Lo() == m.cur.End() ==> next.cur.total <= 60))
      || (next == Merge(m.All(), Open(t)) && Separated(m.cur, Open(t)))
  {
    assert Add16(m.cur.start, m.cur.total) == m.cur.End();
    if t.Lo() == m.cur.End() {
      assert Add16(m.cur.total, t.probe.count) == m.cur.total + t.probe.count;
    } else if t.Lo() < m.cur.End() {
      assert Add16(t.probe.addr, t.probe.count) == t.Hi();
    }
  }

  lemma {:induction false} StepShape(m: Merge, t: Tagged)
    ensures var next := Step(m, t);
      || next == Merge(m.All(), Open(t))
      || next == Merge(m.closed, Span(m.cur.start, next.cur.total, m.cur.probes + [Place(t, m.cur.start)]))
  {
  }

  lemma {:induction false} ExtendedPlaces(closed: seq<Span>, cur: Span, t: Tagged, total: word)
    ensures Placed(closed + [Span(cur.start, total, cur.probes + [Place(t, cur.start)])]) ==
            Placed(closed + [cur]) + [t]
  {
    var grown := Span(cur.start, total, cur.probes + [Place(t, cur.start)]);
    PlacedSnoc(closed, cur);
    PlacedSnoc(closed, grown);
    assert TagsIn(grown.probes) == TagsIn(cur.probes) + [t];
  }

  lemma {:induction false} OpenedPlaces(spans: seq<Span>, t: Tagged)
    ensures Placed(spans + [Open(t)]) == Placed(spans) + [t]
  {
    PlacedSnoc(spans, Open(t));
    assert TagsIn(Open(t).probes) == [t];
  }

  lemma {:induction false} StepPlaces(m: Merge, t: Tagged, next: Merge)
    requires || next == Merge(m.All(), Open(t))
             || next == Merge(m.closed, Span(m.cur.start, next.cur.total, m.cur.probes + [Place(t, m.cur.start)]))
    ensures Placed(next.All()) == Placed(m.All()) + [t]
  {
    if next == Merge(m.All(), Open(t)) {
      OpenedPlaces(m.All(), t);
    } else {
      ExtendedPlaces(m.closed, m.cur, t, next.cur.total);
    }
  }

  lemma {:induction false} ExtendGood(closed: seq<Span>, cur: Span, t: Tagged, grown: Span)
    requires GoodSpans(closed + [cur]) && GoodSpan(cur) && t.probe.count > 0 && t.Hi() <= 0x1_0000
    requires cur.start <= t.Lo() <= cur.End()
    requires grown == Span(cur.start, grown.total, cur.probes + [Place(t, cur.start)])
    requires grown.End() == if t.Hi() > cur.End() then t.Hi() else cur.End()
    ensures GoodSpans(closed + [grown])
  {
    Grow(cur, t, grown.total);
    ReplaceLast(closed, cur, grown);
  }

  lemma {:induction false} StepGood(m: Merge, ts: seq<Tagged>, t: Tagged)
    requires GoodSpans(m.All()) && Placed(m.All()) == ts && Sorted(ts + [t])
    requires t.probe.count > 0 && StepClear(m.cur, t)
    ensures GoodSpans(Step(m, t).All()) && Placed(Step(m, t).All()) == ts + [t]
  {
    var next := Step(m, t);
    assert m.All()[|m.closed|] == m.cur;
    StartsBefore(m.closed, m.cur, ts, t);
    StepCases(m, t);
    StepShape(m, t);
    StepPlaces(m, t, next);
    if next == Merge(m.All(), Open(t)) {
      OpenGood(t);
      AppendSpan(m.All(), Open(t));
    } else {
      ExtendGood(m.closed, m.cur, t, next.cur);
    }
  }

  /** Some probe of a span ends where the span ends. */
  lemma {:induction false} EndTag(sp: Span) returns (u: Tagged)
    requires GoodSpan(sp)
    ensures u in TagsIn(sp.probes) && u.Hi() == sp.End()
  {
    assert Requested(sp.End() - 1, TagsIn(sp.probes));
    u :| u in TagsIn(sp.probes) && u.Covers(sp.End() - 1);
    TagWellPlaced(sp, u);
  }

  lemma {:induction false} CurTags(m: Merge, ts: seq<Tagged>)
    requires GoodSpans(m.All()) && Placed(m.All()) == ts
    ensures GoodSpan(m.cur) && forall u :: u in TagsIn(m.cur.probes) ==> u in ts
    ensures Low(ts) ==> m.cur.End() < 0x1_0000
  {
    assert m.All()[|m.closed|] == m.cur;
    PlacedSnoc(m.closed, m.cur);
    var u := EndTag(m.cur);
  }

  lemma {:induction false} FrontOf(front: seq<Tagged>, t: Tagged)
    requires Sorted(front + [t]) && AllReal(front + [t]) && Low(front + [t])
    ensures Sorted(front) && AllReal(front) && Low(front) && t.probe.count > 0 && t.Hi() < 0x1_0000
  {
    assert (front + [t])[|front|] == t && t in front + [t];
    assert forall i :: 0 <= i < |front| ==> (front + [t])[i] == front[i];
  }

  lemma {:induction false} LowGood(ts: seq<Tagged>)
    requires Sorted(ts) && AllReal(ts) && Low(ts)
    ensures GoodSpans(SpansOf(ts)) && Placed(SpansOf(ts)) == ts
  {
    if |ts| == 1 {
      OpenGood(ts[0]);
      SpansOfOne(ts);
    } else if |ts| > 1 {
      var front, t := ts[..|ts| - 1], ts[|ts| - 1];
      assert ts == front + [t] && t in ts;
      FrontOf(front, t);
      LowGood(front);
      CurTags(MergeAll(front), front);
      StepGood(MergeAll(front), front, t);
    }
  }

  /** All probes but the last end below the last register. */
  lemma {:induction false} FrontLow(front: seq<Tagged>, t: Tagged)
    requires Sorted(front + [t]) && AllReal(front + [t]) && WithinSpace(front + [t]) && TopAlone(front + [t])
    ensures Low(front) && Sorted(front) && AllReal(front) && t.probe.count > 0
    ensures t.Hi() <= 0x1_0000 && (t.Hi() == 0x1_0000 ==> forall u :: u in front ==> u.Hi() <= t.Lo())
  {
    var ts := front + [t];
    assert ts[|front|] == t && t in ts;
    assert forall i :: 0 <= i < |front| ==> ts[i] == front[i];
    forall u | u in front
      ensures u.Hi() < 0x1_0000 && (t.Hi() == 0x1_0000 ==> u.Hi() <= t.Lo())
    {
      var i :| 0 <= i < |front| && front[i] == u;
      assert ts[i].Lo() <= ts[|front|].Lo() && u in ts;
      assert u == t ==> multiset(ts)[t] >= 2 by {
        assert u in multiset(front);
      }
    }
  }

  // ---- spans of nested probes ----

  /** A span within the limit, or no longer than its first probe. */
  ghost predicate Lean(sp: Span) {
    sp.total <= 60 || (sp.probes != [] && sp.probes[0].tag.Hi() == sp.End())
  }

  ghost predicate AllLean(spans: seq<Span>) {
    forall k :: 0 <= k < |spans| ==> Lean(spans[k])
  }

  lemma {:induction false} StepLean(m: Merge, ts: seq<Tagged>, t: Tagged)
    requires GoodSpans(m.All()) && Placed(m.All()) == ts && AllLean(m.All())
    requires Sorted(ts + [t]) && Nested(ts + [t]) && t.probe.count > 0 && StepClear(m.cur, t)
    ensures AllLean(Step(m, t).All())
  {
    var next := Step(m, t);
    CurTags(m, ts);
    StartsBefore(m.closed, m.cur, ts, t);
    StepCases(m, t);
    assert m.All()[|m.closed|] == m.cur;
    assert forall k :: 0 <= k < |m.closed| ==> m.closed[k] == m.All()[k];
    if next.closed == m.closed && t.Lo() < m.cur.End() {
      assert Requested(t.Lo(), TagsIn(m.cur.probes));
      var u :| u in TagsIn(m.cur.probes) && u.Covers(t.Lo());
      TagWellPlaced(m.cur, u);
      assert u in ts + [t] && t in ts + [t];
      assert next.cur.probes[0] == m.cur.probes[0];
    }
  }

  lemma {:induction false} LowLean(ts: seq<Tagged>)
    requires Sorted(ts) && AllReal(ts) && Low(ts) && Nested(ts)
    ensures AllLean(SpansOf(ts))
  {
    if |ts| > 1 {
      var front, t := ts[..|ts| - 1], ts[|ts| - 1];
      assert ts == front + [t] && t in ts;
      LowGood(front);
      LowLean(front);
      CurTags(MergeAll(front), front);
      StepLean(MergeAll(front), front, t);
    }
  }

  /** A lean span from register 0 up to the probe that reads the last register is what
      the condition excludes. */
  lemma {:induction false} LeanBelow(cur: Span, ts: seq<Tagged>, t: Tagged)
    requires GoodSpan(cur) && Lean(cur) && cur.start == 0 && cur.End() == t.Lo()
    requires t in ts && t.Hi() == 0x1_0000 && forall u :: u in TagsIn(cur.probes) ==> u in ts
    ensures OneSpanBelow(ts)
  {
    if t.Lo() > 60 {
      var u := cur.probes[0].tag;
      assert TagsIn(cur.probes)[0] == u;
      assert u in ts && u.Lo() == 0 && u.Hi() == t.Lo();
    }
  }

  lemma {:induction false} AllRequested(cur: Span, ts: seq<Tagged>, t: Tagged)
    requires GoodSpan(cur) && cur.start == 0 && cur.End() == t.Lo() && t.Hi() == 0x1_0000
    requires t in ts && forall u :: u in TagsIn(cur.probes) ==> u in ts
    ensures !RoomLeft(ts)
  {
    forall r | 0 <= r < 0x1_0000
      ensures Requested(r, ts)
    {
      if r < t.Lo() {
        assert Requested(r, TagsIn(cur.probes));
        var u :| u in TagsIn(cur.probes) && u.Covers(r);
        assert u in ts;
      } else {
        assert t.Covers(r);
      }
    }
  }

  /** The last probe's step is clear. */
  lemma {:induction false} LastClear(front: seq<Tagged>, t: Tagged)
    requires Plannable(front + [t]) && front != []
    ensures Low(front) && Sorted(front) && AllReal(front) && StepClear(MergeAll(front).cur, t)
    ensures t.probe.count > 0
  {
    FrontLow(front, t);
    LowGood(front);
    CurTags(MergeAll(front), front);
    var u := EndTag(MergeAll(front).cur);
    if t.Hi() == 0x1_0000 {
      NotWhole(front, t);
    }
  }

  lemma {:induction false} NotWhole(front: seq<Tagged>, t: Tagged)
    requires NoWrap(front + [t]) && front != [] && Sorted(front) && AllReal(front) && Low(front) && t.Hi() == 0x1_0000
    ensures var cur := MergeAll(front).cur; !(cur.start == 0 && cur.End() == t.Lo())
  {
    var ts, m := front + [t], MergeAll(front);
    LowGood(front);
    CurTags(m, front);
    assert ts[|front|] == t && t in ts;
    assert forall v :: v in front ==> v in ts;
    if m.cur.start == 0 && m.cur.End() == t.Lo() {
      AllRequested(m.cur, ts, t);
      assert Nested(front);
      LowLean(front);
      assert m.All()[|m.closed|] == m.cur;
      LeanBelow(m.cur, ts, t);
      assert false;
    }
  }

  /** Main invariant of the merge loop: good spans, holding the sorted probes in order. */
  lemma {:induction false} MergeGood(ts: seq<Tagged>)
    requires Plannable(ts)
    ensures GoodSpans(SpansOf(ts)) && Placed(SpansOf(ts)) == ts
  {
    if |ts| == 1 {
      OpenGood(ts[0]);
      SpansOfOne(ts);
    } else if |ts| > 1 {
      var front, t := ts[..|ts| - 1], ts[|ts| - 1];
      assert ts == front + [t] && t in ts;
      LastClear(front, t);
      LowGood(front);
      StepGood(MergeAll(front), front, t);
    }
  }

  // ---- exact cover ----

  lemma {:induction false} Ascending(spans: seq<Span>, i: nat, j: nat)
    requires GoodSpans(spans) && i < j < |spans|
    ensures spans[i].End() <= spans[j].start && spans[i].start < spans[j].start
    decreases j
  {
    assert GoodSpan(spans[i]) && GoodSpan(spans[j - 1]) && Separated(spans[j - 1], spans[j]);
    if i < j - 1 {
      Ascending(spans, i, j - 1);
    }
  }

  lemma {:induction false} PlacedMembers(spans: seq<Span>, t: Tagged)
    ensures t in Placed(spans) <==> exists k :: 0 <= k < |spans| && t in TagsIn(spans[k].probes)
  {
    if spans != [] {
      var n := |spans| - 1;
      PlacedMembers(spans[..n], t);
      if t in Placed(spans[..n]) {
        var k :| 0 <= k < n && t in TagsIn(spans[..n][k].probes);
        assert spans[..n][k] == spans[k];
      }
      forall k | 0 <= k < |spans| && t in TagsIn(spans[k].probes)
        ensures t in Placed(spans)
      {
        assert k < n ==> spans[..n][k] == spans[k];
      }
    }
  }

  ghost predicate InSpan(r: int, spans: seq<Span>) {
    exists k :: 0 <= k < |spans| && spans[k].start <= r < spans[k].End()
  }

  lemma {:induction false} CoverExact(spans: seq<Span>, r: int)
    requires GoodSpans(spans)
    ensures InSpan(r, spans) <==> Requested(r, Placed(spans))
  {
    if InSpan(r, spans) {
      var k :| 0 <= k < |spans| && spans[k].start <= r < spans[k].End();
      assert GoodSpan(spans[k]) && Requested(r, TagsIn(spans[k].probes));
      var t :| t in TagsIn(spans[k].probes) && t.Covers(r);
      PlacedMembers(spans, t);
    }
    if Requested(r, Placed(spans)) {
      var t :| t in Placed(spans) && t.Covers(r);
      PlacedMembers(spans, t);
      var k :| 0 <= k < |spans| && t in TagsIn(spans[k].probes);
      TagWellPlaced(spans[k], t);
    }
  }

  lemma {:induction false} TagWellPlaced(sp: Span, t: Tagged)
    requires GoodSpan(sp) && t in TagsIn(sp.probes)
    ensures sp.start <= t.Lo() && t.Hi() <= sp.End()
  {
    var j :| 0 <= j < |sp.probes| && TagsIn(sp.probes)[j] == t;
    assert WellPlaced(sp.probes[j], sp);
  }

  /** From a plan back to the sorted probes it was built from. */
  lemma {:induction false} PlanSource(groups: seq<ProbeGroup>, plan: BatchPlan) returns (ts: seq<Tagged>)
    requires IsPlan(groups, plan) && NoWrap(Real(Flatten(groups)))
    ensures SortedPermutation(ts, Real(Flatten(groups))) && plan.spans == SpansOf(ts) && Plannable(ts)
    ensures GoodSpans(plan.spans) && Placed(plan.spans) == ts
    ensures forall t :: t in ts <==> t in Real(Flatten(groups))
  {
    ts :| SortedPermutation(ts, Real(Flatten(groups))) && plan.spans == SpansOf(ts);
    SplitPreservesProbes(Flatten(groups));
    SameMembers(ts, Real(Flatten(groups)));
    NoWrapSame(Real(Flatten(groups)), ts);
    if ts != [] {
      MergeGood(ts);
    }
  }

  /** Spans ascend without touching each other's registers, read exactly the
      requested registers, and keep every probe of every group, synthetic ones aside. */
  ghost predicate Covers(groups: seq<ProbeGroup>, plan: BatchPlan) {
    && (forall k :: 0 <= k < |plan.spans| ==> GoodSpan(plan.spans[k]))
    && (forall i, j :: 0 <= i < j < |plan.spans| ==>
          plan.spans[i].start < plan.spans[j].start && plan.spans[i].End() <= plan.spans[j].start)
    && (forall r :: InSpan(r, plan.spans) <==> Requested(r, Real(Flatten(groups))))
    && multiset(Placed(plan.spans)) + multiset(plan.unbatchable) == multiset(Flatten(groups))
    && Sorted(Placed(plan.spans))
  }

  lemma {:induction false} ExactCover(groups: seq<ProbeGroup>, plan: BatchPlan)
    requires IsPlan(groups, plan) && NoWrap(Real(Flatten(groups)))
    ensures Covers(groups, plan)
  {
    var ts := PlanSource(groups, plan);
    SplitPreservesProbes(Flatten(groups));
    SameMembers(ts, Real(Flatten(groups)));
    forall i, j | 0 <= i < j < |plan.spans|
      ensures plan.spans[i].start < plan.spans[j].start && plan.spans[i].End() <= plan.spans[j].start
    {
      Ascending(plan.spans, i, j);
    }
    forall r
      ensures InSpan(r, plan.spans) <==> Requested(r, Real(Flatten(groups)))
    {
      CoverExact(plan.spans, r);
    }
  }

  lemma {:induction false} SpansOfOne(ts: seq<Tagged>)
    requires |ts| == 1
    ensures SpansOf(ts) == [Open(ts[0])] && Placed(SpansOf(ts)) == ts
  {
    PlacedSnoc([], Open(ts[0]));
    assert [] + [Open(ts[0])] == [Open(ts[0])];
    assert TagsIn(Open(ts[0]).probes) == ts;
  }

  lemma {:induction false} MergeNext(ts: seq<Tagged>) returns (m: Merge, t: Tagged, next: Merge)
    requires |ts| > 1
    ensures m == MergeAll(ts[..|ts| - 1]) && t == ts[|ts| - 1] && next == MergeAll(ts)
    ensures m.All() == SpansOf(ts[..|ts| - 1]) && next.All() == SpansOf(ts)
    ensures || next == Merge(m.All(), Open(t))
            || next == Merge(m.closed, Span(m.cur.start, next.cur.total, m.cur.probes + [Place(t, m.cur.start)]))
  {
    m, t, next := MergeAll(ts[..|ts| - 1]), ts[|ts| - 1], MergeAll(ts);
    StepShape(m, t);
  }

  /** The merge loop drops no probe, whatever wraps. */
  lemma {:induction false} PlacedAlways(ts: seq<Tagged>)
    ensures Placed(SpansOf(ts)) == ts
  {
    if |ts| == 1 {
      SpansOfOne(ts);
    } else if |ts| > 1 {
      var front := ts[..|ts| - 1];
      PlacedAlways(front);
      var m, t, next := MergeNext(ts);
      StepPlaces(m, t, next);
      assert front + [t] == ts;
    }
  }

  /** If every register is asked for and all below the last probe fits one span, then
      the planner has it in one span. */
  lemma {:induction false} OneSpanFromZero(spans: seq<Span>, t: Tagged)
    requires GoodSpans(spans) && spans != [] && 0 < t.Lo() && t.Hi() == 0x1_0000
    requires forall r :: 0 <= r < t.Lo() ==> Requested(r, Placed(spans))
    requires forall u :: u in Placed(spans) ==> u.Hi() <= t.Lo()
    requires t.Lo() <= 60 || exists u :: u in Placed(spans) && u.Lo() == 0 && u.Hi() == t.Lo()
    ensures |spans| == 1 && spans[0].start == 0 && spans[0].End() == t.Lo()
  {
    ZeroFirst(spans);
    SpanEnds(spans, 0, t.Lo());
    if |spans| > 1 {
      var a, b := spans[0], spans[1];
      SpanEnds(spans, 1, t.Lo());
      assert GoodSpan(a) && GoodSpan(b) && Separated(a, b);
      NextCovered(spans, t.Lo());
      assert TagsIn(b.probes)[0] == b.probes[0].tag;
      TagWellPlaced(b, b.probes[0].tag);
      if t.Lo() > 60 {
        var u :| u in Placed(spans) && u.Lo() == 0 && u.Hi() == t.Lo();
        PlacedMembers(spans, u);
        var k :| 0 <= k < |spans| && u in TagsIn(spans[k].probes);
        TagWellPlaced(spans[k], u);
        if k > 0 {
          Ascending(spans, 0, k);
        }
      }
    } else {
      assert Requested(t.Lo() - 1, Placed(spans));
      CoverExact(spans, t.Lo() - 1);
    }
  }

  lemma {:induction false} ZeroFirst(spans: seq<Span>)
    requires GoodSpans(spans) && spans != [] && Requested(0, Placed(spans))
    ensures spans[0].start == 0
  {
    CoverExact(spans, 0);
    var k :| 0 <= k < |spans| && spans[k].start <= 0 < spans[k].End();
    if k > 0 {
      Ascending(spans, 0, k);
    }
  }

  lemma {:induction false} SpanEnds(spans: seq<Span>, k: nat, hi: int)
    requires GoodSpans(spans) && k < |spans| && forall u :: u in Placed(spans) ==> u.Hi() <= hi
    ensures spans[k].End() <= hi
  {
    var u := EndTag(spans[k]);
    PlacedMembers(spans, u);
  }

  /** Without a gap the second span touches the first. */
  lemma {:induction false} NextCovered(spans: seq<Span>, hi: int)
    requires GoodSpans(spans) && |spans| > 1 && spans[1].End() <= hi
    requires forall r :: 0 <= r < hi ==> Requested(r, Placed(spans))
    ensures spans[0].End() == spans[1].start
  {
    assert GoodSpan(spans[0]) && GoodSpan(spans[1]) && Separated(spans[0], spans[1]);
    var r := spans[0].End();
    CoverExact(spans, r);
    var k :| 0 <= k < |spans| && spans[k].start <= r < spans[k].End();
    if k > 1 {
      Ascending(spans, 1, k);
    }
  }

  /** Everything below the last probe is requested by the others, in a way that makes
      one span of it. */
  lemma {:induction false} FullBelow(front: seq<Tagged>, t: Tagged)
    requires WithinSpace(front + [t]) && !RoomLeft(front + [t]) && OneSpanBelow(front + [t])
    requires t.Hi() == 0x1_0000 ==> forall u :: u in front ==> u.Hi() <= t.Lo()
    requires Low(front)
    ensures t.Hi() == 0x1_0000 && 0 < t.Lo() && forall r :: 0 <= r < t.Lo() ==> Requested(r, front)
    ensures t.Lo() <= 60 || exists u :: u in front && u.Lo() == 0 && u.Hi() == t.Lo()
  {
    var ts := front + [t];
    var top :| top in ts && top.Hi() == 0x1_0000
      && (top.Lo() <= 60 || exists u :: u in ts && u.Lo() == 0 && u.Hi() == top.Lo());
    assert top == t;
    forall r | 0 <= r < t.Lo()
      ensures Requested(r, front)
    {
      assert Requested(r, ts);
      var u :| u in ts && u.Covers(r);
      assert u in front;
    }
    if t.Lo() > 60 {
      var u :| u in ts && u.Lo() == 0 && u.Hi() == t.Lo();
      assert u in front;
    }
  }

  /** When everything is requested and everything below the last probe is one span, the
      sum of the counts wraps to 0. */
  lemma {:induction false} FullSpaceSpoils(front: seq<Tagged>, t: Tagged)
    requires Sorted(front) && AllReal(front) && Low(front)
    requires t.Hi() == 0x1_0000 && 0 < t.Lo() && forall r :: 0 <= r < t.Lo() ==> Requested(r, front)
    requires forall u :: u in front ==> u.Hi() <= t.Lo()
    requires t.Lo() <= 60 || exists u :: u in front && u.Lo() == 0 && u.Hi() == t.Lo()
    ensures front != [] && Step(MergeAll(front), t).cur.total == 0
  {
    assert Requested(0, front);
    LowGood(front);
    OneSpanFromZero(MergeAll(front).All(), t);
    WholeSum(MergeAll(front), t);
  }

  lemma {:induction false} WholeSum(m: Merge, t: Tagged)
    requires |m.All()| == 1 && m.All()[0].start == 0 && m.All()[0].End() == t.Lo() && t.Hi() == 0x1_0000
    ensures Step(m, t).cur.total == 0
  {
    assert m.All()[0] == m.cur;
    assert Add16(m.cur.total, t.probe.count) == 0;
  }

  /** Closed spans stay as they are, and an open span keeps its start. */
  lemma {:induction false} Persists(ts: seq<Tagged>, k: nat)
    requires 1 <= k <= |ts|
    ensures var m, n := MergeAll(ts[..k]), MergeAll(ts);
      m.closed <= n.closed && n.All()[|m.closed|].start == m.cur.start
  {
    if k < |ts| {
      var front := ts[..|ts| - 1];
      Persists(front, k);
      assert front[..k] == ts[..k];
      var m, t, next := MergeNext(ts);
    } else {
      assert ts[..k] == ts;
    }
  }

  /** The first probe that reads the last register leaves an open span that reaches it,
      or one of no registers. */
  lemma {:induction false} TopReached(front: seq<Tagged>, t: Tagged)
    requires Sorted(front + [t]) && AllReal(front + [t]) && Low(front) && t.Hi() == 0x1_0000
    requires forall u :: u in front ==> u.Hi() <= t.Lo()
    ensures var cur := MergeAll(front + [t]).cur;
      t.Lo() > 0 && (cur.End() == 0x1_0000 || cur.total == 0) && Add16(cur.start, cur.total) == 0
  {
    var ts := front + [t];
    assert ts[|front|] == t;
    if front != [] {
      assert forall i :: 0 <= i < |front| ==> ts[i] == front[i];
      LowGood(front);
      var m := MergeAll(front);
      CurTags(m, front);
      var u := EndTag(m.cur);
      StartsBefore(m.closed, m.cur, front, t);
      TopStep(m, t);
      assert ts[..|ts| - 1] == front;
    }
  }

  lemma {:induction false} TopStep(m: Merge, t: Tagged)
    requires GoodSpan(m.cur) && m.cur.End() <= t.Lo() && t.Hi() == 0x1_0000
    ensures var cur := Step(m, t).cur; (cur.End() == 0x1_0000 || cur.total == 0) && Add16(cur.start, cur.total) == 0
  {
    if m.cur.End() == t.Lo() {
      assert m.cur.total + t.probe.count == 0x1_0000 - m.cur.start;
    }
  }

  /** Behind such a span the next probe opens another one, inside it. */
  lemma {:induction false} AfterTop(ts: seq<Tagged>, p: nat)
    requires p + 1 < |ts| && Sorted(ts) && ts[p].Lo() > 0
    requires var cur := MergeAll(ts[..p + 1]).cur;
      (cur.End() == 0x1_0000 || cur.total == 0) && Add16(cur.start, cur.total) == 0
    ensures var spans, c := SpansOf(ts), |MergeAll(ts[..p + 1]).closed|;
      c + 1 < |spans| && (spans[c].total == 0 || spans[c].End() > spans[c + 1].start)
  {
    var m, b := MergeAll(ts[..p + 1]), ts[p + 1];
    assert ts[..p + 2][..p + 1] == ts[..p + 1] && ts[..p + 2][p + 1] == b;
    assert MergeAll(ts[..p + 2]) == Step(m, b);
    assert ts[p].Lo() <= b.Lo();
    assert Step(m, b) == Merge(m.All(), Open(b));
    Persists(ts, p + 2);
    assert m.All()[|m.closed|] == m.cur;
  }

  ghost predicate GoodPlan(spans: seq<Span>) {
    && (forall k :: 0 <= k < |spans| ==> GoodSpan(spans[k]))
    && (forall i, j :: 0 <= i < j < |spans| ==> spans[i].End() <= spans[j].start)
  }

  /** Nested probes that are planned well have at most one at the last register. */
  lemma {:induction false} TopIsLast(ts: seq<Tagged>, p: nat)
    requires Sorted(ts) && AllReal(ts) && Nested(ts) && GoodPlan(SpansOf(ts))
    requires p < |ts| && ts[p].Hi() == 0x1_0000 && Low(ts[..p])
    ensures p == |ts| - 1 && forall u :: u in ts[..p] ==> u.Hi() <= ts[p].Lo()
  {
    var front, t := ts[..p], ts[p];
    forall u | u in front
      ensures u.Hi() <= t.Lo()
    {
      var i :| 0 <= i < p && ts[i] == u;
      assert u in ts && t in ts && ts[i].Lo() <= ts[p].Lo();
    }
    assert front + [t] == ts[..p + 1];
    TopReached(front, t);
    if p + 1 < |ts| {
      AfterTop(ts, p);
    }
  }

  lemma {:induction false} FirstTop(ts: seq<Tagged>) returns (p: nat)
    requires WithinSpace(ts) && !Low(ts)
    ensures p < |ts| && ts[p].Hi() == 0x1_0000 && Low(ts[..p])
  {
    var t :| t in ts && t.Hi() >= 0x1_0000;
    var i :| 0 <= i < |ts| && ts[i] == t;
    p := 0;
    while ts[p].Hi() < 0x1_0000
      invariant p <= i && Low(ts[..p])
      decreases i - p
    {
      assert ts[..p + 1] == ts[..p] + [ts[p]];
      p := p + 1;
    }
    assert ts[p] in ts;
  }

  lemma {:induction false} NestedTopAlone(ts: seq<Tagged>)
    requires Sorted(ts) && AllReal(ts) && Nested(ts) && GoodPlan(SpansOf(ts)) && WithinSpace(ts)
    ensures TopAlone(ts)
  {
    if !Low(ts) {
      var p := FirstTop(ts);
      TopIsLast(ts, p);
      var front, t := ts[..p], ts[p];
      assert ts == front + [t];
      assert forall u :: u in front ==> u.Hi() < 0x1_0000;
      assert t !in multiset(front);
    }
  }

  /** For probes that overlap only by lying inside one another the plan covers them
      exactly when nothing wraps harmfully. */
  lemma {:induction false} CoverExactlyWhen(groups: seq<ProbeGroup>, plan: BatchPlan)
    requires IsPlan(groups, plan) && Nested(Real(Flatten(groups)))
    ensures Covers(groups, plan) <==> NoWrap(Real(Flatten(groups)))
  {
    if NoWrap(Real(Flatten(groups))) {
      ExactCover(groups, plan);
    } else if Covers(groups, plan) {
      CoverMeansNoWrap(groups, plan);
    }
  }

  lemma {:induction false} GoodMeansWithinSpace(spans: seq<Span>)
    requires forall k :: 0 <= k < |spans| ==> GoodSpan(spans[k])
    ensures WithinSpace(Placed(spans))
  {
    forall t | t in Placed(spans)
      ensures t.Hi() <= 0x1_0000
    {
      PlacedMembers(spans, t);
      var k :| 0 <= k < |spans| && t in TagsIn(spans[k].probes);
      TagWellPlaced(spans[k], t);
    }
  }

  lemma {:induction false} GoodMeansNoWrap(ts: seq<Tagged>)
    requires Sorted(ts) && AllReal(ts) && Nested(ts) && GoodPlan(SpansOf(ts))
    ensures NoWrap(ts)
  {
    PlacedAlways(ts);
    GoodMeansWithinSpace(SpansOf(ts));
    NestedTopAlone(ts);
    if !RoomLeft(ts) && OneSpanBelow(ts) {
      LastSpanSpoiled(ts);
    }
  }

  lemma {:induction false} LastSpanSpoiled(ts: seq<Tagged>)
    requires Sorted(ts) && AllReal(ts) && WithinSpace(ts) && TopAlone(ts) && !RoomLeft(ts) && OneSpanBelow(ts)
    ensures |SpansOf(ts)| > 0 && SpansOf(ts)[|SpansOf(ts)| - 1].total == 0
  {
    var front, t := ts[..|ts| - 1], ts[|ts| - 1];
    assert ts == front + [t];
    FrontLow(front, t);
    FullBelow(front, t);
    FullSpaceSpoils(front, t);
    LastOf(ts);
  }

  lemma {:induction false} LastOf(ts: seq<Tagged>)
    requires |ts| > 1
    ensures |SpansOf(ts)| > 0
    ensures SpansOf(ts)[|SpansOf(ts)| - 1] == Step(MergeAll(ts[..|ts| - 1]), ts[|ts| - 1]).cur
  {
    assert MergeAll(ts) == Step(MergeAll(ts[..|ts| - 1]), ts[|ts| - 1]);
  }

  lemma {:induction false} CoverMeansNoWrap(groups: seq<ProbeGroup>, plan: BatchPlan)
    requires IsPlan(groups, plan) && Nested(Real(Flatten(groups))) && Covers(groups, plan)
    ensures NoWrap(Real(Flatten(groups)))
  {
    var us := Real(Flatten(groups));
    var ts :| SortedPermutation(ts, us) && plan.spans == SpansOf(ts);
    SplitPreservesProbes(Flatten(groups));
    SameMembers(ts, us);
    GoodMeansNoWrap(ts);
    NoWrapSame(ts, us);
  }

  /** With at most 60 registers each, all that matters is that they exist. */
  lemma {:induction false} SmallProbesNoWrap(ts: seq<Tagged>)
    requires NonOverlapping(ts) && SmallProbes(ts)
    ensures NoWrap(ts) <==> WithinSpace(ts)
  {
    ApartMeansNested(ts);
  }

  /** Two probes of the last register get two spans with the same start address. */
  lemma {:induction false} WrapBreaksDisjointness()
    ensures var t := Tagged(Probe("p", 0xFFFF, 1), "g");
      Sorted([t, t]) && AllReal([t, t]) && |SpansOf([t, t])| == 2
      && SpansOf([t, t])[0].start == SpansOf([t, t])[1].start
  {
    var t := Tagged(Probe("p", 0xFFFF, 1), "g");
    assert [t, t][..1] == [t];
    assert MergeAll([t, t]) == Step(MergeAll([t]), t);
  }

  /** Two halves of the whole space merge into one span of no registers. */
  lemma {:induction false} WholeSpaceVanishes()
    ensures var t, u := Tagged(Probe("p", 0, 0x8000), "g"), Tagged(Probe("q", 0x8000, 0x8000), "g");
      Sorted([t, u]) && AllReal([t, u]) && WithinSpace([t, u]) && TopAlone([t, u])
      && |SpansOf([t, u])| == 1 && SpansOf([t, u])[0].total == 0
  {
    var t, u := Tagged(Probe("p", 0, 0x8000), "g"), Tagged(Probe("q", 0x8000, 0x8000), "g");
    assert [t, u][..1] == [t];
    assert MergeAll([t, u]) == Step(MergeAll([t]), u);
  }

  // ---- the request limit ----

  ghost predicate WithinLimit(spans: seq<Span>) {
    forall k :: 0 <= k < |spans| ==> spans[k].total <= 60
  }

  ghost predicate SmallProbes(ts: seq<Tagged>) {
    forall t :: t in ts ==> t.probe.count <= 60
  }

  lemma {:induction false} MergeLean(ts: seq<Tagged>)
    requires Plannable(ts) && Nested(ts)
    ensures AllLean(SpansOf(ts))
  {
    if |ts| > 1 {
      var front, t := ts[..|ts| - 1], ts[|ts| - 1];
      assert ts == front + [t];
      LastClear(front, t);
      LowGood(front);
      assert Nested(front) by {
        assert forall u :: u in front ==> u in ts;
      }
      LowLean(front);
      StepLean(MergeAll(front), front, t);
    }
  }

  lemma {:induction false} LeanWithinLimit(spans: seq<Span>)
    requires GoodSpans(spans) && AllLean(spans) && SmallProbes(Placed(spans))
    ensures WithinLimit(spans)
  {
    forall k | 0 <= k < |spans|
      ensures spans[k].total <= 60
    {
      var sp := spans[k];
      assert GoodSpan(sp) && Lean(sp) && TagsIn(sp.probes)[0] == sp.probes[0].tag;
      PlacedMembers(spans, sp.probes[0].tag);
    }
  }

  lemma {:induction false} WithinLimitSmall(spans: seq<Span>)
    requires GoodSpans(spans) && WithinLimit(spans)
    ensures SmallProbes(Placed(spans))
  {
    forall t | t in Placed(spans)
      ensures t.probe.count <= 60
    {
      PlacedMembers(spans, t);
      var k :| 0 <= k < |spans| && t in TagsIn(spans[k].probes);
      TagWellPlaced(spans[k], t);
    }
  }

  /** The 60-register limit, decided exactly for probes that overlap only by lying
      inside one another; no plan keeps it for larger probes. */
  lemma {:induction false} LimitExact(groups: seq<ProbeGroup>, plan: BatchPlan)
    requires IsPlan(groups, plan) && NoWrap(Real(Flatten(groups)))
    ensures WithinLimit(plan.spans) ==> SmallProbes(Real(Flatten(groups)))
    ensures Nested(Real(Flatten(groups))) ==> (WithinLimit(plan.spans) <==> SmallProbes(Real(Flatten(groups))))
  {
    var ts := PlanSource(groups, plan);
    if Nested(ts) && SmallProbes(ts) {
      MergeLean(ts);
      LeanWithinLimit(plan.spans);
    }
    if WithinLimit(plan.spans) {
      WithinLimitSmall(plan.spans);
    }
  }

  /** The limit is not checked when a probe outgrows the one it overlaps. */
  lemma {:induction false} OverlapExceedsLimit()
    ensures var t, u := Tagged(Probe("p", 0, 60), "g"), Tagged(Probe("q", 59, 60), "g");
      Plannable([t, u]) && SmallProbes([t, u]) && !Nested([t, u])
      && |SpansOf([t, u])| == 1 && SpansOf([t, u])[0].total == 119
  {
    var t, u := Tagged(Probe("p", 0, 60), "g"), Tagged(Probe("q", 59, 60), "g");
    LowMeansNoWrap([t, u]);
    assert [t, u][..1] == [t];
    assert MergeAll([t, u]) == Step(MergeAll([t]), u);
  }

  // ---- greedy optimality ----

  /** Any other way to batch: a register range read in one request. */
  datatype Range = Range(lo: int, hi: int) {
    predicate Holds(t: Tagged) {
      lo <= t.Lo() && t.Hi() <= hi
    }
  }

  /** A request that fits the limit and reads nothing that was not asked for. */
  ghost predicate Permitted(g: Range, ts: seq<Tagged>) {
    g.hi - g.lo <= 60 && forall r :: g.lo <= r < g.hi ==> Requested(r, ts)
  }

  ghost predicate Serves(ranges: seq<Range>, ts: seq<Tagged>) {
    && (forall k :: 0 <= k < |ranges| ==> Permitted(ranges[k], ts))
    && (forall t :: t in ts ==> exists k :: 0 <= k < |ranges| && ranges[k].Holds(t))
  }

  lemma {:induction false} ServesSame(ranges: seq<Range>, ts: seq<Tagged>, us: seq<Tagged>)
    requires Serves(ranges, ts) && forall t :: t in ts <==> t in us
    ensures Serves(ranges, us)
  {
    forall k | 0 <= k < |ranges|
      ensures Permitted(ranges[k], us)
    {
      forall r | ranges[k].lo <= r < ranges[k].hi
        ensures Requested(r, us)
      {
        assert Permitted(ranges[k], ts) && Requested(r, ts);
        var t :| t in ts && t.Covers(r);
        assert t in us;
      }
    }
  }

  function First(sp: Span): Tagged
    requires sp.probes != []
  {
    sp.probes[0].tag
  }

  /** The first probes of two different spans fit no common admissible range. */
  lemma {:induction false} FirstsConflict(spans: seq<Span>, i: nat, j: nat, g: Range)
    requires GoodSpans(spans) && i < j < |spans| && Permitted(g, Placed(spans))
    ensures GoodSpan(spans[i]) && GoodSpan(spans[j])
    ensures !(g.Holds(First(spans[i])) && g.Holds(First(spans[j])))
  {
    var a, b := spans[i], spans[i + 1];
    assert GoodSpan(a) && GoodSpan(b) && GoodSpan(spans[j]) && Separated(a, b);
    assert WellPlaced(b.probes[0], b) && WellPlaced(spans[j].probes[0], spans[j]);
    if i + 1 < j {
      Ascending(spans, i + 1, j);
    }
    if g.Holds(First(a)) && g.Holds(First(spans[j])) && a.End() < b.start {
      assert WellPlaced(a.probes[0], a);
      assert Requested(a.End(), Placed(spans));
      CoverExact(spans, a.End());
      var k :| 0 <= k < |spans| && spans[k].start <= a.End() < spans[k].End();
      if k < i {
        Ascending(spans, k, i);
      } else if k > i + 1 {
        Ascending(spans, i + 1, k);
      }
    }
  }

  ghost predicate Injective(f: seq<nat>) {
    forall i, j :: 0 <= i < j < |f| ==> f[i] != f[j]
  }

  lemma {:induction false} Pigeonhole(f: seq<nat>, n: nat)
    requires Injective(f) && forall i :: 0 <= i < |f| ==> f[i] < n
    ensures |f| <= n
  {
    var s := set i | 0 <= i < |f| :: f[i];
    SetOfInjective(f);
    SetBelow(s, n);
  }

  lemma {:induction false} SetOfInjective(f: seq<nat>)
    requires Injective(f)
    ensures |set i | 0 <= i < |f| :: f[i]| == |f|
  {
    if f != [] {
      var n := |f| - 1;
      SetOfInjective(f[..n]);
      assert (set i | 0 <= i < |f| :: f[i]) == (set i | 0 <= i < n :: f[..n][i]) + {f[n]};
    }
  }

  lemma {:induction false} SetBelow(s: set<nat>, n: nat)
    requires forall x :: x in s ==> x < n
    ensures |s| <= n
  {
    if n > 0 {
      SetBelow(s - {n - 1}, n - 1);
    } else {
      assert s == {};
    }
  }

  /** No way of reading every probe whole, with gap-free requests of at most 60
      registers, needs fewer requests than the plan. */
  lemma {:induction false} GreedyIsOptimal(groups: seq<ProbeGroup>, plan: BatchPlan, ranges: seq<Range>)
    requires IsPlan(groups, plan) && NoWrap(Real(Flatten(groups)))
    requires Serves(ranges, Real(Flatten(groups)))
    ensures |plan.spans| <= |ranges|
  {
    var ts := PlanSource(groups, plan);
    ServesSame(ranges, Real(Flatten(groups)), ts);
    var spans := plan.spans;
    var f := FirstRanges(spans, ranges);
    forall i, j | 0 <= i < j < |f|
      ensures f[i] != f[j]
    {
      FirstsConflict(spans, i, j, ranges[f[i]]);
    }
    Pigeonhole(f, |ranges|);
  }

  lemma {:induction false} FirstRanges(spans: seq<Span>, ranges: seq<Range>) returns (f: seq<nat>)
    requires GoodSpans(spans) && Serves(ranges, Placed(spans))
    ensures |f| == |spans|
    ensures forall i :: 0 <= i < |f| ==>
      f[i] < |ranges| && spans[i].probes != [] && ranges[f[i]].Holds(First(spans[i]))
  {
    f := [];
    while |f| < |spans|
      invariant |f| <= |spans|
      invariant forall i :: 0 <= i < |f| ==>
        f[i] < |ranges| && spans[i].probes != [] && ranges[f[i]].Holds(First(spans[i]))
    {
      var sp := spans[|f|];
      assert GoodSpan(sp);
      assert TagsIn(sp.probes)[0] == First(sp);
      PlacedMembers(spans, First(sp));
      var k :| 0 <= k < |ranges| && ranges[k].Holds(First(sp));
      f := f + [k];
    }
  }

  function AsRanges(spans: seq<Span>): seq<Range> {
    seq(|spans|, k requires 0 <= k < |spans| => Range(spans[k].start, spans[k].End()))
  }

  lemma {:induction false} SpanPermitted(spans: seq<Span>, k: nat)
    requires GoodSpans(spans) && WithinLimit(spans) && k < |spans|
    ensures Permitted(AsRanges(spans)[k], Placed(spans))
  {
    forall r | spans[k].start <= r < spans[k].End()
      ensures Requested(r, Placed(spans))
    {
      CoverExact(spans, r);
    }
  }

  lemma {:induction false} ProbeServed(spans: seq<Span>, t: Tagged)
    requires GoodSpans(spans) && t in Placed(spans)
    ensures exists k :: 0 <= k < |spans| && AsRanges(spans)[k].Holds(t)
  {
    PlacedMembers(spans, t);
    var k :| 0 <= k < |spans| && t in TagsIn(spans[k].probes);
    TagWellPlaced(spans[k], t);
    assert AsRanges(spans)[k].Holds(t);
  }

  /** The plan itself is such a way whenever its spans respect the limit, so
      the bound above is attained. */
  lemma {:induction false} PlanServes(groups: seq<ProbeGroup>, plan: BatchPlan)
    requires IsPlan(groups, plan) && NoWrap(Real(Flatten(groups))) && WithinLimit(plan.spans)
    ensures Serves(AsRanges(plan.spans), Real(Flatten(groups))) && |AsRanges(plan.spans)| == |plan.spans|
  {
    var ts := PlanSource(groups, plan);
    forall k | 0 <= k < |plan.spans|
      ensures Permitted(AsRanges(plan.spans)[k], ts)
    {
      SpanPermitted(plan.spans, k);
    }
    forall t | t in ts
      ensures exists k :: 0 <= k < |plan.spans| && AsRanges(plan.spans)[k].Holds(t)
    {
      ProbeServed(plan.spans, t);
    }
    ServesSame(AsRanges(plan.spans), ts, Real(Flatten(groups)));
  }
}
