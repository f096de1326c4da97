/** The register groups of the PV section. */
module Pv {
  import opened Registers
  import Battery

  const MIN_CHANNELS := 2
  const MAX_CHANNELS := 16

  function BaseAddr(c: nat): word {
    (0x0584 + 3 * c) % 0x1_0000
  }

  function PvProbes(base: word): seq<Probe> {
    [Probe("Voltage", base, 1), Probe("Current", Add16(base, 1), 1), Probe("Power", Add16(base, 2), 1)]
  }

  function PvGroup(c: nat): ProbeGroup {
    ProbeGroup("PV " + Battery.Digits(c + 1), PvProbes(BaseAddr(c)))
  }

  const TOTAL_POWER := ProbeGroup("Total PV Power", [Probe("Total PV power", 0x05C4, 1)])

  function ChannelGroups(n: nat): seq<ProbeGroup> {
    if n == 0 then [] else ChannelGroups(n - 1) + [PvGroup(n - 1)]
  }

  function PvGroups(n: nat): seq<ProbeGroup> {
    ChannelGroups(n) + [TOTAL_POWER]
  }

  method GeneratePVGroups(channels: nat) returns (groups: seq<ProbeGroup>)
    ensures groups == PvGroups(channels)
  {
    groups := [];
    for c := 0 to channels
      invariant groups == ChannelGroups(c)
    {
      var base := BaseAddr(c);
      groups := groups + [ProbeGroup("PV " + Battery.Digits(c + 1), PvProbes(base))];
    }
    groups := groups + [TOTAL_POWER];
  }

  lemma {:induction false} ProbesFit(c: nat, p: Probe)
    requires c < MAX_CHANNELS && p in PvProbes(BaseAddr(c))
    ensures p.addr + p.count < 0x1_0000 && p.count == 1
  {
    assert BaseAddr(c) == 0x0584 + 3 * c;
  }

  lemma {:induction false} ChannelsFit(n: nat)
    requires n <= MAX_CHANNELS
    ensures GroupsFit(ChannelGroups(n)) && SingleRegisters(ChannelGroups(n))
  {
    if n > 0 {
      ChannelsFit(n - 1);
      forall p | p in PvGroup(n - 1).probes
        ensures p.addr + p.count < 0x1_0000 && p.count == 1
      {
        ProbesFit(n - 1, p);
      }
    }
  }

  lemma {:induction false} PvFits(n: nat)
    requires n <= MAX_CHANNELS
    ensures GroupsFit(PvGroups(n)) && SingleRegisters(PvGroups(n))
  {
    ChannelsFit(n);
  }

  /** Channel c has its voltage, current and power in three registers from 0x0584 + 3c on, and
      the total power of all channels follows the channels. */
  lemma {:induction false} ChannelAt(n: nat, c: nat)
    requires c < n <= MAX_CHANNELS
    ensures |PvGroups(n)| == n + 1 && PvGroups(n)[n].probes == [Probe("Total PV power", 0x05C4, 1)]
    ensures PvGroups(n)[c].name == "PV " + Battery.Digits(c + 1)
    ensures var base := 0x0584 + 3 * c;
      PvGroups(n)[c].probes == [Probe("Voltage", base, 1), Probe("Current", base + 1, 1), Probe("Power", base + 2, 1)]
  {
    PvGroupsAt(n, c);
    ProbesAt(c);
  }

  lemma {:induction false} PvGroupsAt(n: nat, c: nat)
    requires c < n
    ensures |PvGroups(n)| == n + 1 && PvGroups(n)[c] == PvGroup(c) && PvGroups(n)[n] == TOTAL_POWER
  {
    ChannelGroupAt(n, c);
  }

  lemma {:induction false} ProbesAt(c: nat)
    requires c < MAX_CHANNELS
    ensures var base := 0x0584 + 3 * c;
      PvGroup(c).probes == [Probe("Voltage", base, 1), Probe("Current", base + 1, 1), Probe("Power", base + 2, 1)]
  {
    assert BaseAddr(c) == 0x0584 + 3 * c;
  }

  lemma {:induction false} ChannelGroupAt(n: nat, c: nat)
    requires c < n
    ensures |ChannelGroups(n)| == n && ChannelGroups(n)[c] == PvGroup(c)
  {
    if c < n - 1 {
      ChannelGroupAt(n - 1, c);
    } else if n > 1 {
      ChannelGroupAt(n - 1, 0);
    }
  }
}
