/** The battery section's register groups, channel auto-detection, and the addressing
    of battery packs. */
module Battery {
  import opened Registers
  import ReadCycles

  const CHANNEL_PREFIX := "Channel "
  const MAX_CHANNELS := 8

  function Digits(n: nat): string {
    if n < 10 then [['0', '1', '2', '3', '4', '5', '6', '7', '8', '9'][n]] else Digits(n / 10) + Digits(n % 10)
  }

  function ChannelName(ch: nat): string {
    CHANNEL_PREFIX + Digits(ch)
  }

  const INFO_NAMES := ["Voltage", "Current", "Power", "Env Temp", "SOC", "SOH", "Cycles",
                       "Charge Limit", "Discharge Limit", "State"]

  /** The address of the j-th value of channel c (counted from 0): seven pack values,
      then three state values. */
  function ChannelAddr(c: nat, j: nat): int
    requires j < 10
  {
    if j < 7 then 0x0604 + 7 * c + j else 0x0644 + 4 * c + (j - 7)
  }

  function ChannelGroup(c: nat): ProbeGroup {
    ProbeGroup(ChannelName(c + 1),
               seq(10, j requires 0 <= j < 10 => Probe(INFO_NAMES[j], ChannelAddr(c, j) % 0x1_0000, 1)))
  }

  const GLOBAL_STATS := ProbeGroup("Global Stats", [
    Probe("Total charge/discharge power", 0x0667, 1), Probe("Average SOC", 0x0668, 1), Probe("Battery SOH", 0x0669, 1),
    Probe("Pack count", 0x066A, 1), Probe("Total capacity", 0x066B, 1)])

  const INTERNAL_INFO := ProbeGroup("Internal Info", [
    Probe("Total BUS voltage", 0x06CC, 1), Probe("BUS positive voltage", 0x06CD, 1),
    Probe("BUS negative voltage", 0x06CE, 1), Probe("Buck Boost current", 0x06D0, 1), Probe("Rated power", 0x06ED, 1)])

  function ChannelGroups(n: nat): seq<ProbeGroup> {
    if n == 0 then [] else ChannelGroups(n - 1) + [ChannelGroup(n - 1)]
  }

  /** The groups of a battery section with n channels. */
  function BatteryGroups(n: nat): seq<ProbeGroup> {
    ChannelGroups(n) + [GLOBAL_STATS] + [INTERNAL_INFO]
  }

  method GenerateBatteryGroups(channels: nat) returns (groups: seq<ProbeGroup>)
    ensures groups + [INTERNAL_INFO] == BatteryGroups(channels)
  {
    groups := [];
    for c := 0 to channels
      invariant groups == ChannelGroups(c)
    {
      var probes: seq<Probe> := [];
      for j := 0 to 10
        invariant |probes| == j
        invariant forall i :: 0 <= i < j ==> probes[i] == ChannelGroup(c).probes[i]
      {
        probes := probes + [Probe(INFO_NAMES[j], ChannelAddr(c, j) % 0x1_0000, 1)];
      }
      assert probes == ChannelGroup(c).probes;
      groups := groups + [ProbeGroup(ChannelName(c + 1), probes)];
    }
    groups := groups + [GLOBAL_STATS];
  }

  predicate IsChannel(g: ProbeGroup) {
    CHANNEL_PREFIX <= g.name
  }

  function CountChannels(groups: seq<ProbeGroup>): nat {
    if groups == [] then 0
    else CountChannels(groups[..|groups| - 1]) + if IsChannel(groups[|groups| - 1]) then 1 else 0
  }

  method CountBatteryChannels(groups: seq<ProbeGroup>) returns (count: nat)
    ensures count == CountChannels(groups)
  {
    count := 0;
    for i := 0 to |groups|
      invariant count == CountChannels(groups[..i])
    {
      assert groups[..i + 1][..i] == groups[..i];
      if IsChannel(groups[i]) {
        count := count + 1;
      }
    }
    assert groups[..|groups|] == groups;
  }

  lemma {:induction false} CountSnoc(groups: seq<ProbeGroup>, g: ProbeGroup)
    ensures CountChannels(groups + [g]) == CountChannels(groups) + if IsChannel(g) then 1 else 0
  {
    assert (groups + [g])[..|groups|] == groups;
  }

  lemma {:induction false} CountOfChannelGroups(n: nat)
    ensures CountChannels(ChannelGroups(n)) == n
  {
    if n > 0 {
      CountOfChannelGroups(n - 1);
      CountSnoc(ChannelGroups(n - 1), ChannelGroup(n - 1));
    }
  }

  /** Counting the channels of the n-channel section gives n: the other two groups do
      not look like channels, and every channel group does. */
  lemma {:induction false} CountExact(n: nat)
    ensures CountChannels(BatteryGroups(n)) == n
  {
    CountOfChannelGroups(n);
    CountSnoc(ChannelGroups(n), GLOBAL_STATS);
    CountSnoc(ChannelGroups(n) + [GLOBAL_STATS], INTERNAL_INFO);
    assert GLOBAL_STATS.name[0] == 'G' && INTERNAL_INFO.name[0] == 'I' && CHANNEL_PREFIX[0] == 'C';
  }

  /** Whether a detected count makes the reader rebuild the section. */
  predicate NeedsRebuild(groups: seq<ProbeGroup>, detected: nat) {
    0 < detected <= 8 && detected != CountChannels(groups)
  }

  /** The channel count a reply to the read of the pack count register carries. */
  function Reported(reply: ReadCycles.Reply): Option<nat> {
    if reply.Data? && |reply.bytes| >= 2 then Some(reply.bytes[0] as nat * 256 + reply.bytes[1] as nat) else None
  }

  /** A count is sent high byte first; bytes behind the register do not matter. */
  lemma {:induction false} CountReported(n: nat, more: seq<byte>)
    requires n < 256
    ensures Reported(ReadCycles.Data([0, n as byte] + more)) == Some(n)
    ensures Reported(ReadCycles.Data([1, n as byte] + more)) == Some(256 + n)
  {
    assert (n as byte) as nat == n;
  }

  /** What the reader does with the reply: `Some` is the count to rebuild for before
      anything is read; a failed or short reply changes nothing. */
  method DetectChannels(reply: ReadCycles.Reply, groups: seq<ProbeGroup>) returns (rebuild: Option<nat>)
    ensures rebuild.Some? <==> Reported(reply).Some? && NeedsRebuild(groups, Reported(reply).value)
    ensures rebuild.Some? ==> rebuild == Reported(reply) && !NeedsRebuild(BatteryGroups(rebuild.value), rebuild.value)
  {
    rebuild := None;
    if reply.Data? && |reply.bytes| >= 2 {
      var detected := reply.bytes[0] as nat * 256 + reply.bytes[1] as nat;
      if 0 < detected <= MAX_CHANNELS {
        var current := CountBatteryChannels(groups);
        if detected != current {
          CountExact(detected);
          rebuild := Some(detected);
        }
      }
    }
  }

  /** The groups after a pre-read that found `detected` channels. */
  function AfterDetection(groups: seq<ProbeGroup>, detected: nat): seq<ProbeGroup> {
    if NeedsRebuild(groups, detected) then BatteryGroups(detected) else groups
  }

  function Rebuilds(groups: seq<ProbeGroup>, detected: seq<nat>): nat
    decreases |detected|
  {
    if detected == [] then 0
    else
      var rest := Rebuilds(AfterDetection(groups, detected[0]), detected[1..]);
      if NeedsRebuild(groups, detected[0]) then 1 + rest else rest
  }

  /** A device that always reports the same count causes at most one rebuild, so the
      read that a rebuild triggers does not rebuild again. */
  lemma {:induction false} StableDeviceRebuildsOnce(groups: seq<ProbeGroup>, detected: seq<nat>)
    requires forall i, j :: 0 <= i < j < |detected| ==> detected[i] == detected[j]
    ensures Rebuilds(groups, detected) <= 1
    ensures detected != [] && !NeedsRebuild(groups, detected[0]) ==> Rebuilds(groups, detected) == 0
    decreases |detected|
  {
    if detected != [] {
      CountExact(detected[0]);
      StableDeviceRebuildsOnce(AfterDetection(groups, detected[0]), detected[1..]);
      if |detected| > 1 {
        assert detected[1..][0] == detected[0];
      }
    }
  }

  // ---- the layout ----

  lemma {:induction false} ChannelLayout(n: nat, i: nat)
    requires i < 10 * n
    ensures |FlattenProbes(ChannelGroups(n))| == 10 * n
    ensures FlattenProbes(ChannelGroups(n))[i].addr == ChannelAddr(i / 10, i % 10) % 0x1_0000
    ensures FlattenProbes(ChannelGroups(n))[i].count == 1
  {
    assert ChannelGroups(n)[..n - 1] == ChannelGroups(n - 1) by {
      ChannelGroupsLength(n - 1);
    }
    ChannelGroupsLength(n);
    if n > 1 {
      ChannelLayout(n - 1, if i < 10 * (n - 1) then i else 0);
    }
    if i >= 10 * (n - 1) {
      assert i / 10 == n - 1 && i % 10 == i - 10 * (n - 1);
    }
  }

  lemma {:induction false} ChannelGroupsLength(n: nat)
    ensures |ChannelGroups(n)| == n
  {
    if n > 0 {
      ChannelGroupsLength(n - 1);
    }
  }

  /** More channels than this would share registers. */
  const ROOMY_CHANNELS := 9

  /** Up to nine channels, no two values of any channel share a register. */
  lemma {:induction false} ChannelAddrsApart(c: nat, j: nat, c': nat, j': nat)
    requires c < ROOMY_CHANNELS && c' < ROOMY_CHANNELS && j < 10 && j' < 10 && (c != c' || j != j')
    ensures ChannelAddr(c, j) != ChannelAddr(c', j')
    ensures 0x0604 <= ChannelAddr(c, j) < 0x0667
  {
  }

  lemma {:induction false} BatteryFlat(n: nat)
    ensures FlattenProbes(BatteryGroups(n)) ==
            FlattenProbes(ChannelGroups(n)) + GLOBAL_STATS.probes + INTERNAL_INFO.probes
  {
    var gs := ChannelGroups(n);
    assert BatteryGroups(n)[..|gs| + 1] == gs + [GLOBAL_STATS];
    assert (gs + [GLOBAL_STATS])[..|gs|] == gs;
  }

  /** Where the ten values after the channels are. */
  const TAIL := [0x0667, 0x0668, 0x0669, 0x066A, 0x066B, 0x06CC, 0x06CD, 0x06CE, 0x06D0, 0x06ED]

  lemma {:induction false} TailProbes(i: nat)
    requires i < 10
    ensures |GLOBAL_STATS.probes + INTERNAL_INFO.probes| == 10
    ensures (GLOBAL_STATS.probes + INTERNAL_INFO.probes)[i].addr == TAIL[i]
  {
  }

  lemma {:induction false} TailAscends(i: nat, k: nat)
    requires i < k < 10
    ensures 0x0667 <= TAIL[i] < TAIL[k]
  {
  }

  lemma {:induction false} ChannelsLength(n: nat)
    ensures |FlattenProbes(ChannelGroups(n))| == 10 * n
  {
    if n > 0 {
      ChannelLayout(n, 0);
    }
  }

  lemma {:induction false} BatteryTailAt(n: nat, j: nat)
    requires j < 10
    ensures |FlattenProbes(BatteryGroups(n))| == 10 * n + 10
    ensures FlattenProbes(BatteryGroups(n))[10 * n + j].addr == TAIL[j]
  {
    var front, tail := FlattenProbes(ChannelGroups(n)), GLOBAL_STATS.probes + INTERNAL_INFO.probes;
    BatteryFlat(n);
    assert FlattenProbes(BatteryGroups(n)) == front + tail;
    ChannelsLength(n);
    TailProbes(j);
  }

  lemma {:induction false} ChannelAddrSmall(i: nat)
    requires i < 10 * ROOMY_CHANNELS
    ensures i / 10 < ROOMY_CHANNELS && 0x0604 <= ChannelAddr(i / 10, i % 10) < 0x0667
  {
    assert i / 10 < ROOMY_CHANNELS;
    ChannelAddrsApart(i / 10, i % 10, if i / 10 == 0 then 1 else 0, 0);
  }

  lemma {:induction false} BatteryChannelAt(n: nat, i: nat)
    requires n <= ROOMY_CHANNELS && i < 10 * n && 10 * n <= |FlattenProbes(BatteryGroups(n))|
    ensures FlattenProbes(BatteryGroups(n))[i].addr == ChannelAddr(i / 10, i % 10)
  {
    BatteryFront(n, i);
    ChannelLayout(n, i);
    ChannelAddrSmall(i);
  }

  lemma {:induction false} BatteryFront(n: nat, i: nat)
    requires i < 10 * n && 10 * n <= |FlattenProbes(BatteryGroups(n))|
    ensures i < |FlattenProbes(ChannelGroups(n))|
    ensures FlattenProbes(BatteryGroups(n))[i] == FlattenProbes(ChannelGroups(n))[i]
  {
    BatteryFlat(n);
    ChannelsLength(n);
    assert FlattenProbes(BatteryGroups(n)) ==
           FlattenProbes(ChannelGroups(n)) + (GLOBAL_STATS.probes + INTERNAL_INFO.probes);
  }

  lemma {:induction false} BatteryAddressesDistinct(n: nat, i: nat, k: nat)
    requires n <= ROOMY_CHANNELS && i < k < |FlattenProbes(BatteryGroups(n))|
    ensures FlattenProbes(BatteryGroups(n))[i].addr != FlattenProbes(BatteryGroups(n))[k].addr
  {
    BatteryTailAt(n, 0);
    if k < 10 * n {
      BatteryChannelAt(n, i);
      BatteryChannelAt(n, k);
      ChannelAddrSmall(i);
      ChannelAddrSmall(k);
      ChannelAddrsApart(i / 10, i % 10, k / 10, k % 10);
    } else if i < 10 * n {
      BatteryChannelAt(n, i);
      BatteryTailAt(n, k - 10 * n);
      ChannelAddrSmall(i);
      TailFloor(k - 10 * n);
    } else {
      BatteryTailAt(n, i - 10 * n);
      BatteryTailAt(n, k - 10 * n);
      TailAscends(i - 10 * n, k - 10 * n);
    }
  }

  lemma {:induction false} TailFloor(i: nat)
    requires i < 10
    ensures TAIL[i] >= 0x0667
  {
    if i > 0 {
      TailAscends(0, i);
    }
  }

  ghost predicate AddressesDistinct(probes: seq<Probe>) {
    forall i, k :: 0 <= i < k < |probes| ==> probes[i].addr != probes[k].addr
  }

  /** The second value of the tenth channel is at the eighth value of the first. */
  lemma {:induction false} TenthChannelCollides(n: nat)
    requires n > ROOMY_CHANNELS
    ensures |FlattenProbes(BatteryGroups(n))| > 91
    ensures FlattenProbes(BatteryGroups(n))[7].addr == FlattenProbes(BatteryGroups(n))[91].addr
  {
    BatteryTailAt(n, 0);
    BatteryFront(n, 7);
    BatteryFront(n, 91);
    ChannelLayout(n, 7);
    ChannelLayout(n, 91);
    assert 91 / 10 == 9 && 91 % 10 == 1 && ChannelAddr(9, 1) == ChannelAddr(0, 7);
  }

  /** All probes of the section have different addresses, so that every batch result
      finds its own slot, exactly up to nine channels; auto-detection accepts eight. */
  lemma {:induction false} DistinctExactly(n: nat)
    ensures AddressesDistinct(FlattenProbes(BatteryGroups(n))) <==> n <= ROOMY_CHANNELS
  {
    if n <= ROOMY_CHANNELS {
      forall i, k | 0 <= i < k < |FlattenProbes(BatteryGroups(n))|
        ensures FlattenProbes(BatteryGroups(n))[i].addr != FlattenProbes(BatteryGroups(n))[k].addr
      {
        BatteryAddressesDistinct(n, i, k);
      }
    } else {
      TenthChannelCollides(n);
    }
  }

  lemma {:induction false} ChannelProbeFits(c: nat, p: Probe)
    requires c < ROOMY_CHANNELS && p in ChannelGroup(c).probes
    ensures p.addr + p.count < 0x1_0000 && p.count == 1
  {
    var j :| 0 <= j < 10 && p == ChannelGroup(c).probes[j];
    assert 0 < ChannelAddr(c, j) < 0x1000;
  }

  lemma {:induction false} ChannelsFit(n: nat)
    requires n <= ROOMY_CHANNELS
    ensures GroupsFit(ChannelGroups(n)) && SingleRegisters(ChannelGroups(n))
  {
    if n > 0 {
      ChannelsFit(n - 1);
      forall p | p in ChannelGroup(n - 1).probes
        ensures p.addr + p.count < 0x1_0000 && p.count == 1
      {
        ChannelProbeFits(n - 1, p);
      }
    }
  }

  lemma {:induction false} BatteryFits(n: nat)
    requires n <= ROOMY_CHANNELS
    ensures GroupsFit(BatteryGroups(n)) && SingleRegisters(BatteryGroups(n))
  {
    ChannelsFit(n);
    forall p | p in GLOBAL_STATS.probes || p in INTERNAL_INFO.probes
      ensures p.addr + p.count < 0x1_0000 && p.count == 1
    {
    }
  }

  // ---- pack addressing ----

  const TOWERS := 2
  const PACKS_PER_TOWER := 10

  /** The value of register 0x9020 that selects a pack. Masking an integer with 0xFF
      or 0x0F is taking it modulo 256 or 16, also when it is negative. */
  function EncodePackQuery(input: int, tower: int, pack: int, towersPerInput: int): word {
    var group := (input - 1) * towersPerInput + (tower - 1);
    (pack - 1) % 256 + (group % 16) * 256
  }

  function DecodePackQuery(w: word, towersPerInput: int): (int, int, int)
    requires towersPerInput > 0
  {
    (w / 256 / towersPerInput + 1, w / 256 % towersPerInput + 1, w % 256 + 1)
  }

  lemma {:induction false} QuotientUnique(q: int, r: int, d: int, m: int, n: int)
    requires 0 <= r < n && 0 <= m < n && q * n + r == d * n + m
    ensures q == d && r == m
  {
    assert (q - d) * n == m - r;
    if q != d {
      MulGap(if q > d then q - d else d - q, n);
    }
  }

  lemma {:induction false} MulGap(k: int, n: int)
    requires k >= 1 && n > 0
    ensures k * n >= n && -k * n <= -n
  {
  }

  lemma {:induction false} SplitGroup(q: int, r: int, n: int)
    requires n > 0 && 0 <= r < n
    ensures (q * n + r) / n == q && (q * n + r) % n == r
  {
    var x := q * n + r;
    QuotientUnique(q, r, x / n, x % n, n);
  }

  lemma {:induction false} QueryParts(input: int, tower: int, pack: int, n: int)
    ensures EncodePackQuery(input, tower, pack, n) % 256 == (pack - 1) % 256
    ensures EncodePackQuery(input, tower, pack, n) / 256 == ((input - 1) * n + (tower - 1)) % 16
  {
  }

  ghost predicate InRange(input: int, tower: int, pack: int, n: int) {
    1 <= tower <= n && 0 <= (input - 1) * n + (tower - 1) <= 15 && 1 <= pack <= 256
  }

  lemma {:induction false} InRangeDecodes(input: int, tower: int, pack: int, n: int)
    requires n > 0 && InRange(input, tower, pack, n)
    ensures DecodePackQuery(EncodePackQuery(input, tower, pack, n), n) == (input, tower, pack)
  {
    QueryParts(input, tower, pack, n);
    SplitGroup(input - 1, tower - 1, n);
  }

  lemma {:induction false} DecodesInRange(input: int, tower: int, pack: int, n: int)
    requires n > 0 && DecodePackQuery(EncodePackQuery(input, tower, pack, n), n) == (input, tower, pack)
    ensures InRange(input, tower, pack, n)
  {
    QueryParts(input, tower, pack, n);
    var g := ((input - 1) * n + (tower - 1)) % 16;
    assert g / n == input - 1 && g % n == tower - 1;
    assert g == (g / n) * n + g % n;
  }

  /** The coordinates can be read back from the query exactly when they are in range:
      the group number fits four bits, the tower belongs to its input, and the pack
      number fits a byte. */
  lemma {:induction false} PackQueryInvertible(input: int, tower: int, pack: int, n: int)
    requires n > 0
    ensures DecodePackQuery(EncodePackQuery(input, tower, pack, n), n) == (input, tower, pack) <==>
            InRange(input, tower, pack, n)
  {
    if InRange(input, tower, pack, n) {
      InRangeDecodes(input, tower, pack, n);
    } else if DecodePackQuery(EncodePackQuery(input, tower, pack, n), n) == (input, tower, pack) {
      DecodesInRange(input, tower, pack, n);
    }
  }

  function Clamp(x: int, lo: int, hi: int): int
    requires lo <= hi
  {
    if x < lo then lo else if x > hi then hi else x
  }

  /** Whatever a client asks for, the clamped selection is addressed unambiguously. */
  lemma {:induction false} ClampedSelection(tower: int, pack: int)
    ensures var t, p := Clamp(tower, 1, TOWERS), Clamp(pack, 1, PACKS_PER_TOWER);
      DecodePackQuery(EncodePackQuery(1, t, p, TOWERS), TOWERS) == (1, t, p)
  {
    PackQueryInvertible(1, Clamp(tower, 1, TOWERS), Clamp(pack, 1, PACKS_PER_TOWER), TOWERS);
  }

  // ---- where the values of a channel are ----

  /** Channel c has seven pack values from 0x0604 + 7c on, and three state values from
      0x0644 + 4c on; the statistics of all channels and the internal values follow. */
  lemma {:induction false} ChannelAt(n: nat, c: nat)
    requires c < n <= ROOMY_CHANNELS
    ensures |BatteryGroups(n)| == n + 2
    ensures var g := BatteryGroups(n)[c];
      && g.name == "Channel " + Digits(c + 1) && |g.probes| == 10
      && (forall j :: 0 <= j < 7 ==> g.probes[j].addr == 0x0604 + 7 * c + j)
      && (forall j :: 7 <= j < 10 ==> g.probes[j].addr == 0x0644 + 4 * c + (j - 7))
      && forall j :: 0 <= j < 10 ==> g.probes[j].count == 1
  {
    ChannelGroupAt(n, c);
  }

  lemma {:induction false} ChannelGroupAt(n: nat, c: nat)
    requires c < n
    ensures |ChannelGroups(n)| == n && ChannelGroups(n)[c] == ChannelGroup(c)
  {
    if c < n - 1 {
      ChannelGroupAt(n - 1, c);
    } else if n > 1 {
      ChannelGroupAt(n - 1, 0);
    }
  }
}
