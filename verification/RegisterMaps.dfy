/** The register maps of the "system" and "bms" sections, whose probes are not all single
    registers, and what the planner makes of them. */
module RegisterMaps {
  import opened Registers
  import opened BatchPlanner
  import opened BatchPlanTheorems
  import Battery
  import Pv

  const IDENTITY := ProbeGroup("Identity", [Probe("Inverter SN", 0x0445, 10)])

  const FIRMWARE := ProbeGroup("Firmware", [
    Probe("HW version", 0x044D, 2), Probe("Comm SW version", 0x044F, 4), Probe("Master DSP version", 0x0453, 4),
    Probe("Slave DSP version", 0x0457, 4), Probe("Safety cert version", 0x045B, 2)])

  const STATUS := ProbeGroup("Status", [
    Probe("Running state", 0x0404, 1), Probe("Grid-connected wait time", 0x0417, 1),
    Probe("Power gen time today", 0x0426, 1), Probe("System time", 0x042C, 6)])

  const FIRMWARE_EXTENDED := ProbeGroup("Firmware (Extended)", [
    Probe("ARM BOOT version", 0x045D, 1), Probe("Master DSP BOOT ver", 0x045E, 1),
    Probe("Slave DSP BOOT ver", 0x045F, 1), Probe("Safety cert SW ver", 0x0460, 4),
    Probe("Safety package ver", 0x0467, 6)])

  const TEMPERATURES := ProbeGroup("Temperatures", [
    Probe("Ambient temp 1", 0x0418, 1), Probe("Ambient temp 2", 0x0419, 1), Probe("Radiator temp", 0x041A, 1),
    Probe("Module temp", 0x0420, 1)])

  const PROTECTION := ProbeGroup("Protection", [
    Probe("Insulation impedance", 0x042B, 1), Probe("Fan speed", 0x043E, 1)])

  const METRIC_NAMES := ["Power Generation", "Load Consumption", "Grid Bought", "Grid Sold", "Battery Charge",
                         "Battery Discharge"]

  /** Six values of two registers, four registers apart. */
  function Metrics(name: string, base: word): ProbeGroup {
    ProbeGroup(name, seq(6, i requires 0 <= i < 6 => Probe(METRIC_NAMES[i], Add16(base, 4 * i), 2)))
  }

  const PERIODS := ["Today", "Total"]
  const BASES: seq<word> := [0x0684, 0x0686]

  function StatisticsGroup(d: nat): ProbeGroup
    requires d < 2
  {
    Metrics(PERIODS[d], BASES[d])
  }

  function SystemGroups(): seq<ProbeGroup> {
    [IDENTITY, FIRMWARE, STATUS, FIRMWARE_EXTENDED, TEMPERATURES, PROTECTION, StatisticsGroup(0), StatisticsGroup(1)]
  }

  method StatisticsGroups() returns (groups: seq<ProbeGroup>)
    ensures groups == SystemGroups()[6..]
  {
    groups := [];
    for d := 0 to 2
      invariant |groups| == d && forall k :: 0 <= k < d ==> groups[k] == StatisticsGroup(k)
    {
      var probes: seq<Probe> := [];
      for i := 0 to 6
        invariant probes == StatisticsGroup(d).probes[..i]
      {
        probes := probes + [Probe(METRIC_NAMES[i], Add16(BASES[d], 4 * i), 2)];
      }
      groups := groups + [ProbeGroup(PERIODS[d], probes)];
    }
  }

  const BMS_INFO := ProbeGroup("BMS Info", [
    Probe("System Clock", 0x9004, 2), Probe("CAN Protocol Ver", 0x9006, 1), Probe("Manufacturer", 0x9007, 4),
    Probe("BMS Version", 0x900B, 1), Probe("Cell Type", 0x900C, 1), Probe("Topology Params", 0x900D, 1),
    Probe("Remaining Capacity", 0x900E, 1), Probe("Total Voltage", 0x900F, 1), Probe("Total Current", 0x9010, 1),
    Probe("Avg Cell Temp", 0x9011, 1), Probe("SOC", 0x9012, 1), Probe("Health Level", 0x9013, 1),
    Probe("SW Version", 0x9018, 4), Probe("SN", 0x9024, 10), Probe("Online Bitmap", 0x9022, 1),
    Probe("Hibernation State", 0x9023, 1), Probe("Max Discharge Current", 0x902F, 1),
    Probe("Max Charge Current", 0x9030, 1)])

  const BMS_PROTECTION := ProbeGroup("Protection", [
    Probe("Protection 0", 0x9014, 1), Probe("Protection 1", 0x9015, 1), Probe("Alarm 0", 0x9016, 1),
    Probe("Alarm 1", 0x9017, 1), Probe("Protection 2", 0x901C, 1), Probe("Protection 3", 0x901D, 1)])

  function BmsGroups(): seq<ProbeGroup> {
    [BMS_INFO, BMS_PROTECTION]
  }

  // ---- every probe has a home ----

  datatype Home = Home(lo: int, hi: int)

  /** The outermost probe around a register, a single register where there is none. */
  function HomeOf(r: int): Home {
    if r >= 0x9000 then BmsHome(r)
    else if r >= 0x0684 then Home(r - r % 2, r - r % 2 + 2)
    else SystemHome(r)
  }

  function SystemHome(r: int): Home {
    if 0x042C <= r < 0x0432 then Home(0x042C, 0x0432)
    else if 0x0445 <= r < 0x044F then Home(0x0445, 0x044F)
    else if 0x044F <= r < 0x0453 then Home(0x044F, 0x0453)
    else if 0x0453 <= r < 0x0457 then Home(0x0453, 0x0457)
    else if 0x0457 <= r < 0x045B then Home(0x0457, 0x045B)
    else if 0x045B <= r < 0x045D then Home(0x045B, 0x045D)
    else if 0x0460 <= r < 0x0464 then Home(0x0460, 0x0464)
    else if 0x0467 <= r < 0x046D then Home(0x0467, 0x046D)
    else Home(r, r + 1)
  }

  function BmsHome(r: int): Home {
    if 0x9004 <= r < 0x9006 then Home(0x9004, 0x9006)
    else if 0x9007 <= r < 0x900B then Home(0x9007, 0x900B)
    else if 0x9018 <= r < 0x901C then Home(0x9018, 0x901C)
    else if 0x9024 <= r < 0x902E then Home(0x9024, 0x902E)
    else Home(r, r + 1)
  }

  /** The hardware version lies at the end of the serial number. */
  predicate IsInner(p: Probe) {
    p.addr == 0x044D && p.count == 2
  }

  ghost predicate AtHome(p: Probe) {
    && 0 < p.count <= 10 && p.addr + p.count < 0x1_0000
    && (IsInner(p) || (HomeOf(p.addr) == Home(p.addr, p.addr + p.count)
                       && forall r :: p.addr <= r < p.addr + p.count ==> HomeOf(r) == HomeOf(p.addr)))
  }

  lemma {:induction false} IdentityAtHome(p: Probe)
    requires p in IDENTITY.probes || p in FIRMWARE.probes
    ensures AtHome(p)
  {
  }

  lemma {:induction false} StatusAtHome(p: Probe)
    requires p in STATUS.probes || p in TEMPERATURES.probes || p in PROTECTION.probes
    ensures AtHome(p)
  {
  }

  lemma {:induction false} ExtendedAtHome(p: Probe)
    requires p in FIRMWARE_EXTENDED.probes
    ensures AtHome(p)
  {
  }

  lemma {:induction false} PairAtHome(name: string, base: word, i: nat)
    requires (base == 0x0684 || base == 0x0686) && i < 6
    ensures AtHome(Probe(name, Add16(base, 4 * i), 2))
  {
    var a := base + 4 * i;
    assert Add16(base, 4 * i) == a && a % 2 == 0 && (a + 1) % 2 == 1;
  }

  lemma {:induction false} MetricsAtHome(d: nat, p: Probe)
    requires d < 2 && p in StatisticsGroup(d).probes
    ensures AtHome(p)
  {
    var i :| 0 <= i < 6 && p == StatisticsGroup(d).probes[i];
    PairAtHome(METRIC_NAMES[i], BASES[d], i);
  }

  lemma {:induction false} SingleAtHome(p: Probe)
    requires p.count == 1 && p.addr >= 0x9000 && BmsHome(p.addr) == Home(p.addr, p.addr + 1) && p.addr < 0xFFFF
    ensures AtHome(p)
  {
  }

  lemma {:induction false} BmsInfoShape(p: Probe)
    requires p in BMS_INFO.probes
    ensures p.addr >= 0x9000
    ensures || (p.count == 1 && BmsHome(p.addr) == Home(p.addr, p.addr + 1) && p.addr < 0xFFFF)
            || (p.addr, p.count) in {(0x9004, 2), (0x9007, 4), (0x9018, 4), (0x9024, 10)}
  {
  }

  lemma {:induction false} BmsInfoAtHome(p: Probe)
    requires p in BMS_INFO.probes
    ensures AtHome(p)
  {
    BmsInfoShape(p);
    if p.count == 1 {
      SingleAtHome(p);
    }
  }

  lemma {:induction false} BmsProtectionAtHome(p: Probe)
    requires p in BMS_PROTECTION.probes
    ensures AtHome(p)
  {
    assert p.addr >= 0x9014;
  }

  lemma {:induction false} SystemAtHome(g: ProbeGroup, p: Probe)
    requires g in SystemGroups() && p in g.probes
    ensures AtHome(p)
  {
    if g == IDENTITY || g == FIRMWARE {
      IdentityAtHome(p);
    } else if g == StatisticsGroup(0) {
      MetricsAtHome(0, p);
    } else if g == StatisticsGroup(1) {
      MetricsAtHome(1, p);
    } else if g == FIRMWARE_EXTENDED {
      ExtendedAtHome(p);
    } else {
      StatusAtHome(p);
    }
  }

  lemma {:induction false} HomesNest(t: Tagged, u: Tagged)
    requires AtHome(t.probe) && AtHome(u.probe) && t.Lo() <= u.Lo() < t.Hi()
    ensures u.Hi() <= t.Hi()
  {
    assert !IsInner(t.probe) ==> HomeOf(u.Lo()) == HomeOf(t.Lo());
  }

  ghost predicate AllAtHome(groups: seq<ProbeGroup>) {
    forall g, p :: g in groups && p in g.probes ==> AtHome(p)
  }

  lemma {:induction false} HomesPlannable(groups: seq<ProbeGroup>)
    requires AllAtHome(groups)
    ensures var ts := Real(Flatten(groups)); NoWrap(ts) && Nested(ts) && SmallProbes(ts)
  {
    var ts := Real(Flatten(groups));
    forall t | t in ts
      ensures AtHome(t.probe)
    {
      SplitPreservesProbes(Flatten(groups));
      var g := TaggedFrom(groups, t);
    }
    forall t, u | t in ts && u in ts && t.Lo() <= u.Lo() < t.Hi()
      ensures u.Hi() <= t.Hi()
    {
      HomesNest(t, u);
    }
    LowMeansNoWrap(ts);
  }

  /** What such a section's plan does for it: spans of at most 60 registers that serve
      every probe, and no fewer requests could. */
  ghost predicate PlannedBest(groups: seq<ProbeGroup>, plan: BatchPlan) {
    && WithinLimit(plan.spans)
    && Serves(AsRanges(plan.spans), Real(Flatten(groups)))
    && forall ranges :: Serves(ranges, Real(Flatten(groups))) ==> |plan.spans| <= |ranges|
  }

  lemma {:induction false} NestedPlannedBest(groups: seq<ProbeGroup>, plan: BatchPlan)
    requires IsPlan(groups, plan)
    requires var ts := Real(Flatten(groups)); NoWrap(ts) && Nested(ts) && SmallProbes(ts)
    ensures PlannedBest(groups, plan)
  {
    LimitExact(groups, plan);
    PlanServes(groups, plan);
    forall ranges | Serves(ranges, Real(Flatten(groups)))
      ensures |plan.spans| <= |ranges|
    {
      GreedyIsOptimal(groups, plan, ranges);
    }
  }

  /** The "system" section, although its hardware version overlaps its serial number. */
  lemma {:induction false} SystemPlannedBest(plan: BatchPlan)
    requires IsPlan(SystemGroups(), plan)
    ensures PlannedBest(SystemGroups(), plan)
  {
    forall g, p | g in SystemGroups() && p in g.probes
      ensures AtHome(p)
    {
      SystemAtHome(g, p);
    }
    HomesPlannable(SystemGroups());
    NestedPlannedBest(SystemGroups(), plan);
  }

  lemma {:induction false} OverlapSeen(groups: seq<ProbeGroup>, i: nat, k: nat, t: Tagged, u: Tagged)
    requires i < |groups| && groups[i].probes != [] && t == Tagged(groups[i].probes[0], groups[i].name)
    requires k < |groups| && groups[k].probes != [] && u == Tagged(groups[k].probes[0], groups[k].name)
    requires t.probe.count > 0 && u.probe.count > 0 && t != u && !Apart(t, u)
    ensures !NonOverlapping(Real(Flatten(groups)))
  {
    SplitPreservesProbes(Flatten(groups));
    TaggedIn(groups, i, 0);
    TaggedIn(groups, k, 0);
  }

  lemma {:induction false} SystemOverlaps()
    ensures !NonOverlapping(Real(Flatten(SystemGroups())))
  {
    OverlapSeen(SystemGroups(), 0, 1, Tagged(Probe("Inverter SN", 0x0445, 10), "Identity"),
                Tagged(Probe("HW version", 0x044D, 2), "Firmware"));
  }

  lemma {:induction false} BmsPlannedBest(plan: BatchPlan)
    requires IsPlan(BmsGroups(), plan)
    ensures PlannedBest(BmsGroups(), plan)
  {
    forall g, p | g in BmsGroups() && p in g.probes
      ensures AtHome(p)
    {
      if g == BMS_INFO {
        BmsInfoAtHome(p);
      } else {
        BmsProtectionAtHome(p);
      }
    }
    HomesPlannable(BmsGroups());
    NestedPlannedBest(BmsGroups(), plan);
  }

  /** A section of single registers, as most are. */
  lemma {:induction false} SinglesPlannedBest(groups: seq<ProbeGroup>, plan: BatchPlan)
    requires IsPlan(groups, plan) && GroupsFit(groups) && SingleRegisters(groups)
    ensures PlannedBest(groups, plan)
  {
    var ts := Real(Flatten(groups));
    forall t | t in ts
      ensures t.probe.count == 1
    {
      SplitPreservesProbes(Flatten(groups));
      var g := TaggedFrom(groups, t);
    }
    FitMeansNoWrap(groups);
    NestedPlannedBest(groups, plan);
  }

  /** The sections whose channel count is configured or detected. */
  lemma {:induction false} BatteryPlannedBest(channels: nat, plan: BatchPlan)
    requires channels <= Battery.ROOMY_CHANNELS && IsPlan(Battery.BatteryGroups(channels), plan)
    ensures PlannedBest(Battery.BatteryGroups(channels), plan)
  {
    Battery.BatteryFits(channels);
    SinglesPlannedBest(Battery.BatteryGroups(channels), plan);
  }

  lemma {:induction false} PvPlannedBest(channels: nat, plan: BatchPlan)
    requires channels <= Pv.MAX_CHANNELS && IsPlan(Pv.PvGroups(channels), plan)
    ensures PlannedBest(Pv.PvGroups(channels), plan)
  {
    Pv.PvFits(channels);
    SinglesPlannedBest(Pv.PvGroups(channels), plan);
  }
}
