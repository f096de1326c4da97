/** The register map of the inverter: probes, named groups of probes, and the
    16-bit arithmetic the Go code performs on register addresses. */
module Registers {

  datatype Option<+T> = None | Some(value: T)

  type byte = bv8

  /** A Go `uint16`; sums and differences wrap. */
  type word = x: int | 0 <= x < 0x1_0000

  function Add16(a: word, b: word): word {
    (a + b) % 0x1_0000
  }

  function Sub16(a: word, b: word): word {
    (a - b) % 0x1_0000
  }

  /** One value to read: `count` registers from `addr`; a count of 0 marks a
      synthetic probe that is never read. Display attributes are left out. */
  datatype Probe = Probe(name: string, addr: word, count: word)

  datatype ProbeGroup = ProbeGroup(name: string, probes: seq<Probe>)

  /** A probe together with the name of its group. */
  datatype Tagged = Tagged(probe: Probe, group: string) {
    function Lo(): int {
      probe.addr
    }

    function Hi(): int {
      probe.addr + probe.count
    }

    predicate Covers(r: int) {
      Lo() <= r < Hi()
    }
  }

  function Tags(g: ProbeGroup): seq<Tagged> {
    seq(|g.probes|, i requires 0 <= i < |g.probes| => Tagged(g.probes[i], g.name))
  }

  /** All probes of all groups in declaration order. */
  function Flatten(groups: seq<ProbeGroup>): seq<Tagged> {
    if groups == [] then [] else Flatten(groups[..|groups| - 1]) + Tags(groups[|groups| - 1])
  }

  /** The probes that are read from the device. */
  function Real(ts: seq<Tagged>): seq<Tagged> {
    if ts == [] then []
    else
      var t := ts[|ts| - 1];
      Real(ts[..|ts| - 1]) + if t.probe.count == 0 then [] else [t]
  }

  function Synthetic(ts: seq<Tagged>): seq<Tagged> {
    if ts == [] then []
    else
      var t := ts[|ts| - 1];
      Synthetic(ts[..|ts| - 1]) + if t.probe.count == 0 then [t] else []
  }

  lemma {:induction false} RealSnoc(ts: seq<Tagged>, t: Tagged)
    ensures Real(ts + [t]) == Real(ts) + if t.probe.count == 0 then [] else [t]
    ensures Synthetic(ts + [t]) == Synthetic(ts) + if t.probe.count == 0 then [t] else []
  {
    assert (ts + [t])[..|ts|] == ts;
  }

  /** Splitting a group list into real and synthetic probes loses and invents nothing. */
  lemma {:induction false} SplitPreservesProbes(ts: seq<Tagged>)
    ensures multiset(Real(ts)) + multiset(Synthetic(ts)) == multiset(ts)
    ensures forall t :: t in Real(ts) <==> t in ts && t.probe.count != 0
  {
    if ts != [] {
      SplitPreservesProbes(ts[..|ts| - 1]);
      assert ts == ts[..|ts| - 1] + [ts[|ts| - 1]];
    }
  }

  /** `flattenProbeGroups`: the probes of a section without their group names. */
  function FlattenProbes(groups: seq<ProbeGroup>): seq<Probe> {
    if groups == [] then []
    else FlattenProbes(groups[..|groups| - 1]) + groups[|groups| - 1].probes
  }

  lemma {:induction false} FlattenAgree(groups: seq<ProbeGroup>)
    ensures |FlattenProbes(groups)| == |Flatten(groups)|
    ensures forall i :: 0 <= i < |FlattenProbes(groups)| ==> Flatten(groups)[i].probe == FlattenProbes(groups)[i]
  {
    if groups != [] {
      FlattenAgree(groups[..|groups| - 1]);
    }
  }

  /** Every register of every probe has a 16-bit address, and so has the one after. */
  ghost predicate GroupsFit(groups: seq<ProbeGroup>) {
    forall g, p :: g in groups && p in g.probes ==> p.addr + p.count < 0x1_0000
  }

  ghost predicate SingleRegisters(groups: seq<ProbeGroup>) {
    forall g, p :: g in groups && p in g.probes ==> p.count == 1
  }

  /** Every probe comes from some group, and every group's probes are there. */
  lemma {:induction false} TaggedFrom(groups: seq<ProbeGroup>, t: Tagged) returns (g: ProbeGroup)
    requires t in Flatten(groups)
    ensures g in groups && t.probe in g.probes
  {
    var front, last := groups[..|groups| - 1], groups[|groups| - 1];
    if t in Tags(last) {
      g := last;
    } else {
      g := TaggedFrom(front, t);
    }
  }

  lemma {:induction false} TaggedIn(groups: seq<ProbeGroup>, i: nat, j: nat)
    requires i < |groups| && j < |groups[i].probes|
    ensures Tagged(groups[i].probes[j], groups[i].name) in Flatten(groups)
  {
    var front, last := groups[..|groups| - 1], groups[|groups| - 1];
    if i == |groups| - 1 {
      assert Tags(last)[j] == Tagged(last.probes[j], last.name);
    } else {
      TaggedIn(front, i, j);
    }
  }

  lemma {:induction false} FittingProbes(groups: seq<ProbeGroup>, t: Tagged)
    requires GroupsFit(groups) && t in Flatten(groups)
    ensures t.Hi() < 0x1_0000
  {
    var g := TaggedFrom(groups, t);
  }

  /** Splitting keeps the order of the synthetic probes: the i-th of them stands at place
      `at[i]`, and these places ascend. */
  lemma {:induction false} SplitKeepsOrder(ts: seq<Tagged>) returns (at: seq<nat>)
    ensures |at| == |Synthetic(ts)|
    ensures forall i :: 0 <= i < |at| ==> at[i] < |ts| && Synthetic(ts)[i] == ts[at[i]]
    ensures forall i, j :: 0 <= i < j < |at| ==> at[i] < at[j]
    ensures forall t :: t in Synthetic(ts) <==> t in ts && t.probe.count == 0
  {
    at := [];
    if ts != [] {
      var n := |ts| - 1;
      at := SplitKeepsOrder(ts[..n]);
      if ts[n].probe.count == 0 {
        at := at + [n];
      }
      assert forall t :: t in ts <==> t in ts[..n] || t == ts[n];
    }
  }
}
