/** The batch planner: sorts the real probes by address and merges them, left to
    right, into spans that one Modbus request can read. */
module BatchPlanner {
  import opened Registers

  const MAX_BATCH_REGISTERS := 60

  /** Where a probe's bytes sit in the response to its span. */
  datatype Mapping = Mapping(tag: Tagged, offset: nat, length: nat)

  datatype Span = Span(start: word, total: word, probes: seq<Mapping>) {
    function End(): int {
      start + total
    }
  }

  datatype BatchPlan = BatchPlan(spans: seq<Span>, unbatchable: seq<Tagged>)

  /** The merge loop's variables: the closed spans and the open one. */
  datatype Merge = Merge(closed: seq<Span>, cur: Span) {
    function All(): seq<Span> {
      closed + [cur]
    }
  }

  function Place(t: Tagged, start: word): Mapping {
    Mapping(t, Sub16(t.probe.addr, start) * 2, t.probe.count * 2)
  }

  function Open(t: Tagged): Span {
    Span(t.probe.addr, t.probe.count, [Mapping(t, 0, t.probe.count * 2)])
  }

  /** One iteration of the merge loop. */
  function Step(m: Merge, t: Tagged): Merge {
    var cur := m.cur;
    var spanEnd := Add16(cur.start, cur.total);
    var placed := cur.probes + [Place(t, cur.start)];
    if t.probe.addr < spanEnd then
      var probeEnd := Add16(t.probe.addr, t.probe.count);
      m.(cur := Span(cur.start, if probeEnd > spanEnd then Sub16(probeEnd, cur.start) else cur.total, placed))
    else if t.probe.addr == spanEnd then
      var newTotal := Add16(cur.total, t.probe.count);
      if newTotal > MAX_BATCH_REGISTERS then Merge(m.All(), Open(t))
      else m.(cur := Span(cur.start, newTotal, placed))
    else
      Merge(m.All(), Open(t))
  }

  function MergeAll(ts: seq<Tagged>): Merge
    requires ts != []
  {
    if |ts| == 1 then Merge([], Open(ts[0]))
    else Step(MergeAll(ts[..|ts| - 1]), ts[|ts| - 1])
  }

  function SpansOf(ts: seq<Tagged>): seq<Span> {
    if ts == [] then [] else MergeAll(ts).All()
  }

  ghost predicate Sorted(ts: seq<Tagged>) {
    forall i, j :: 0 <= i < j < |ts| ==> ts[i].Lo() <= ts[j].Lo()
  }

  /** The library sort is not stable, so all that is known of its result is
      that it is an ascending permutation. */
  ghost predicate SortedPermutation(ts: seq<Tagged>, of: seq<Tagged>) {
    Sorted(ts) && multiset(ts) == multiset(of)
  }

  /** The plans `AnalyzeBatchPlan` may return for these groups. */
  ghost predicate IsPlan(groups: seq<ProbeGroup>, plan: BatchPlan) {
    && plan.unbatchable == Synthetic(Flatten(groups))
    && exists ts :: SortedPermutation(ts, Real(Flatten(groups))) && plan.spans == SpansOf(ts)
  }

  function InsertAt(s: seq<Tagged>, k: nat, t: Tagged): seq<Tagged>
    requires k <= |s|
  {
    s[..k] + [t] + s[k..]
  }

  lemma {:induction false} InsertPermutes(s: seq<Tagged>, k: nat, t: Tagged)
    requires k <= |s|
    ensures multiset(InsertAt(s, k, t)) == multiset(s + [t])
  {
    assert s == s[..k] + s[k..];
  }

  lemma {:induction false} InsertKeepsSorted(s: seq<Tagged>, k: nat, t: Tagged)
    requires Sorted(s) && k <= |s|
    requires forall j :: k <= j < |s| ==> s[j].Lo() > t.Lo()
    requires k > 0 ==> s[k - 1].Lo() <= t.Lo()
    ensures Sorted(InsertAt(s, k, t))
  {
    var r := InsertAt(s, k, t);
    forall i, j | 0 <= i < j < |r|
      ensures r[i].Lo() <= r[j].Lo()
    {
      var i', j' := if i < k then i else i - 1, if j < k then j else j - 1;
      if i != k && j != k {
        assert s[i'].Lo() <= s[j'].Lo();
      } else if j == k {
        assert s[i].Lo() <= s[k - 1].Lo();
      }
    }
  }

  lemma {:induction false} InsertExtends(s: seq<Tagged>, ts: seq<Tagged>, i: nat, k: nat)
    requires i < |ts| && SortedPermutation(s, ts[..i]) && k <= |s| && (k > 0 ==> s[k - 1].Lo() <= ts[i].Lo())
    requires forall j :: k <= j < |s| ==> s[j].Lo() > ts[i].Lo()
    ensures SortedPermutation(InsertAt(s, k, ts[i]), ts[..i + 1])
  {
    InsertKeepsSorted(s, k, ts[i]);
    InsertPermutes(s, k, ts[i]);
    assert ts[..i + 1] == ts[..i] + [ts[i]];
  }

  method PlaceFor(s: seq<Tagged>, t: Tagged) returns (k: nat)
    ensures k <= |s| && (k > 0 ==> s[k - 1].Lo() <= t.Lo())
    ensures forall j :: k <= j < |s| ==> s[j].Lo() > t.Lo()
  {
    k := |s|;
    while k > 0 && s[k - 1].Lo() > t.Lo()
      invariant 0 <= k <= |s|
      invariant forall j :: k <= j < |s| ==> s[j].Lo() > t.Lo()
    {
      k := k - 1;
    }
  }

  /** Stands for Go's `sort.Slice`; callers see only the contract. */
  method SortByAddr(ts: seq<Tagged>) returns (sorted: seq<Tagged>)
    ensures SortedPermutation(sorted, ts)
  {
    sorted := [];
    for i := 0 to |ts|
      invariant SortedPermutation(sorted, ts[..i])
    {
      var k := PlaceFor(sorted, ts[i]);
      InsertExtends(sorted, ts, i, k);
      sorted := InsertAt(sorted, k, ts[i]);
    }
    assert ts[..|ts|] == ts;
  }

  method AnalyzeBatchPlan(groups: seq<ProbeGroup>) returns (plan: BatchPlan)
    ensures IsPlan(groups, plan)
  {
    var realProbes, unbatchable := Classify(groups);
    if realProbes == [] {
      assert SortedPermutation([], realProbes);
      return BatchPlan([], unbatchable);
    }
    var sorted := SortByAddr(realProbes);
    assert |multiset(sorted)| == |multiset(realProbes)|;
    var spans := MergeSorted(sorted);
    return BatchPlan(spans, unbatchable);
  }

  lemma {:induction false} TagsNext(seen: seq<Tagged>, g: ProbeGroup, j: nat)
    requires j < |g.probes|
    ensures var before, after, t := seen + Tags(g)[..j], seen + Tags(g)[..j + 1], Tagged(g.probes[j], g.name);
      && Real(after) == Real(before) + (if t.probe.count == 0 then [] else [t])
      && Synthetic(after) == Synthetic(before) + if t.probe.count == 0 then [t] else []
  {
    var t := Tagged(g.probes[j], g.name);
    RealSnoc(seen + Tags(g)[..j], t);
    assert seen + Tags(g)[..j + 1] == seen + Tags(g)[..j] + [t];
  }

  /** Sorts the probes of one group into real and synthetic ones. */
  method ClassifyGroup(g: ProbeGroup, ghost seen: seq<Tagged>, real0: seq<Tagged>, unbatchable0: seq<Tagged>)
      returns (realProbes: seq<Tagged>, unbatchable: seq<Tagged>)
    requires real0 == Real(seen) && unbatchable0 == Synthetic(seen)
    ensures realProbes == Real(seen + Tags(g)) && unbatchable == Synthetic(seen + Tags(g))
  {
    realProbes, unbatchable := real0, unbatchable0;
    assert seen + Tags(g)[..0] == seen;
    for j := 0 to |g.probes|
      invariant realProbes == Real(seen + Tags(g)[..j]) && unbatchable == Synthetic(seen + Tags(g)[..j])
    {
      var t := Tagged(g.probes[j], g.name);
      TagsNext(seen, g, j);
      if t.probe.count == 0 {
        unbatchable := unbatchable + [t];
      } else {
        realProbes := realProbes + [t];
      }
    }
    assert Tags(g)[..|g.probes|] == Tags(g);
  }

  method Classify(groups: seq<ProbeGroup>) returns (realProbes: seq<Tagged>, unbatchable: seq<Tagged>)
    ensures realProbes == Real(Flatten(groups)) && unbatchable == Synthetic(Flatten(groups))
  {
    realProbes, unbatchable := [], [];
    for i := 0 to |groups|
      invariant realProbes == Real(Flatten(groups[..i])) && unbatchable == Synthetic(Flatten(groups[..i]))
    {
      realProbes, unbatchable := ClassifyGroup(groups[i], Flatten(groups[..i]), realProbes, unbatchable);
      assert groups[..i + 1][..i] == groups[..i];
    }
    assert groups[..|groups|] == groups;
  }

  /** The merge loop over the sorted probes. */
  method MergeSorted(sorted: seq<Tagged>) returns (spans: seq<Span>)
    requires sorted != []
    ensures spans == SpansOf(sorted)
  {
    spans := [];
    var cur := Open(sorted[0]);
    for k := 1 to |sorted|
      invariant Merge(spans, cur) == MergeAll(sorted[..k])
    {
      assert sorted[..k + 1][..k] == sorted[..k];
      var t := sorted[k];
      var spanEnd := Add16(cur.start, cur.total);
      if t.probe.addr < spanEnd {
        var probeEnd := Add16(t.probe.addr, t.probe.count);
        cur := cur.(probes := cur.probes + [Place(t, cur.start)]);
        if probeEnd > spanEnd {
          cur := cur.(total := Sub16(probeEnd, cur.start));
        }
      } else if t.probe.addr == spanEnd {
        var newTotal := Add16(cur.total, t.probe.count);
        if newTotal > MAX_BATCH_REGISTERS {
          spans := spans + [cur];
          cur := Open(t);
        } else {
          cur := cur.(probes := cur.probes + [Place(t, cur.start)], total := newTotal);
        }
      } else {
        spans := spans + [cur];
        cur := Open(t);
      }
    }
    assert sorted[..|sorted|] == sorted;
    spans := spans + [cur];
  }
}
