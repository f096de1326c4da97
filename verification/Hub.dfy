/** The hub's event loop. Sections and clients belong to the loop alone, so they are
    kept as records in its maps. */
module Hubs {
  import opened Registers
  import opened BatchPlanner
  import opened SpanTrackers
  import opened HubModel
  import Link = BrokerModel
  import Battery
  import Pv

  class Hub {
    var clients: set<ClientId>
    var peers: map<ClientId, Peer>
    var sections: map<string, Section>
    var jobs: seq<Job>
    var live: set<nat>
    var connected: bool
    var selectedPack: Option<Pack>
    var panicked: bool
    var stopped: bool

    ghost function Value(): HubState
      reads this
    {
      HubState(clients, peers, sections, jobs, live, connected, selectedPack, panicked, stopped)
    }

    constructor (sections: map<string, Section>)
      ensures Value() == New(sections)
    {
      clients, peers, jobs, live := {}, map[], [], {};
      this.sections := sections;
      connected, selectedPack, panicked, stopped := false, None, false, false;
    }

    // ---- reads ----

    method CancelRead(n: string)
      modifies this
      ensures Value() == old(Value()).CancelRead(n)
    {
      if n in sections && sections[n].readCancel.Some? {
        live := live - {sections[n].readCancel.value};
        sections := sections[n := sections[n].(readCancel := None)];
      }
    }

    method CancelAllReads()
      modifies this
      ensures Value() == old(Value()).CancelReads(old(sections).Keys)
    {
      ghost var s0 := Value();
      ghost var done: set<string> := {};
      var rest := sections.Keys;
      CancelNone(s0);
      while rest != {}
        invariant done + rest == s0.sections.Keys && done !! rest
        invariant Value() == s0.CancelReads(done)
        decreases rest
      {
        var n :| n in rest;
        CancelNext(s0, done, n);
        CancelRead(n);
        rest := rest - {n};
        done := done + {n};
      }
      assert done == s0.sections.Keys;
    }

    method StartRead(n: string, pack: Option<Pack>)
      requires n in sections
      modifies this
      ensures Value() == old(Value()).StartRead(n, pack)
    {
      CancelRead(n);
      var k := |jobs|;
      jobs := jobs + [Job(n, pack)];
      live := live + {k};
      sections := sections[n := sections[n].(readCancel := Some(k), reading := true)];
    }

    method TriggerSectionRead(n: string)
      modifies this
      ensures Value() == old(Value()).TriggerSectionRead(n)
    {
      if n in sections {
        StartRead(n, None);
      }
    }

    // ---- clients ----

    method UnsubscribeClient(c: ClientId, n: string)
      modifies this
      ensures Value() == old(Value()).UnsubscribeClient(c, n)
    {
      if n !in sections {
        return;
      }
      var p := if c in peers then peers[c] else FRESH_PEER;
      ghost var s0 := Value();
      sections := sections[n := sections[n].(subscribers := sections[n].subscribers - {c})];
      if p.section == n {
        peers := peers[c := p.(section := "")];
      }
      if n == "bms" {
        selectedPack := None;
      }
      CancelWhenLeft(s0, Value(), c, n);
      if sections[n].subscribers == {} {
        CancelRead(n);
      }
    }

    method RemoveClient(c: ClientId)
      modifies this
      ensures Value() == old(Value()).RemoveClient(c)
    {
      if c !in clients {
        return;
      }
      var p := if c in peers then peers[c] else FRESH_PEER;
      if p.section != "" {
        UnsubscribeClient(c, p.section);
      }
      clients := clients - {c};
      p := if c in peers then peers[c] else FRESH_PEER;
      panicked := panicked || p.closed;
      peers := peers[c := p.(closed := true)];
    }

    method SendToClient(c: ClientId, m: Packet)
      modifies this
      ensures Value() == old(Value()).SendToClient(c, m)
    {
      var p := if c in peers then peers[c] else FRESH_PEER;
      if p.closed {
        panicked := true;
      } else if |p.queue| < SEND_BUFFER {
        peers := peers[c := p.(queue := p.queue + [m])];
      } else {
        RemoveClient(c);
      }
    }

    /** The loop over a Go map of clients: any order, each client once, slow clients
        removed on the way. */
    method SendToEach(cs: set<ClientId>, m: Packet)
      requires Linked(Value()) && cs <= clients
      modifies this
      ensures Value() == old(Value()).Deliver(cs, m)
    {
      ghost var s0 := Value();
      ghost var done: set<ClientId> := {};
      var rest := cs;
      DeliverNone(s0, m);
      while rest != {}
        invariant done + rest == cs && done !! rest
        invariant Value() == s0.Deliver(done, m)
        decreases rest
      {
        var c :| c in rest;
        DeliverNext(s0, done, c, m);
        SendToClient(c, m);
        rest := rest - {c};
        done := done + {c};
      }
      assert done == cs;
    }

    method BroadcastAll(m: Packet)
      requires Linked(Value())
      modifies this
      ensures Value() == old(Value()).Deliver(old(clients), m)
    {
      SendToEach(clients, m);
    }

    method BroadcastToSection(n: string, m: Packet)
      requires Linked(Value())
      modifies this
      ensures Value() == old(Value()).BroadcastToSection(n, m)
    {
      if n in sections {
        SubscribersRegistered(Value(), n);
        SendToEach(sections[n].subscribers, m);
      }
    }

    // ---- commands ----

    method Register(c: ClientId, state: Link.ConnState)
      modifies this
      ensures Value() == old(Value()).Register(c, state)
    {
      clients := clients + {c};
      SendToClient(c, StateChanged(state));
    }

    method SubscribeClient(c: ClientId, n: string)
      modifies this
      ensures Value() == old(Value()).SubscribeClient(c, n)
    {
      var p := if c in peers then peers[c] else FRESH_PEER;
      if p.section != "" && p.section != n {
        CancelRead(p.section);
        UnsubscribeClient(c, p.section);
      }
      if n !in sections {
        SendToClient(c, Problem(n, UNKNOWN_SECTION));
        return;
      }
      Join(c, n);
    }

    method Join(c: ClientId, n: string)
      requires n in sections
      modifies this
      ensures Value() == old(Value()).Join(c, n)
    {
      var p := if c in peers then peers[c] else FRESH_PEER;
      sections := sections[n := sections[n].(subscribers := sections[n].subscribers + {c})];
      peers := peers[c := p.(section := n)];
      if n == "bms" {
        selectedPack := None;
      }
      if p.closed {
        panicked := true;
        return;
      } else if |p.queue| >= SEND_BUFFER {
        RemoveClient(c);
        return;
      }
      SendToClient(c, Schema(n, sections[n].groups));
      if connected {
        TriggerSectionRead(n);
      } else {
        SendToClient(c, Problem(n, NOT_CONNECTED));
      }
    }

    method Refresh(n: string)
      modifies this
      ensures Value() == old(Value()).Refresh(n)
    {
      if n in sections && sections[n].readOnce {
        sections := sections[n := sections[n].(hasReadOnce := false)];
      }
      TriggerSectionRead(n);
    }

    method HandleReadCycle(n: string)
      modifies this
      ensures Value() == old(Value()).HandleReadCycle(n)
    {
      if !connected || n !in sections {
        return;
      }
      var sec := sections[n];
      if sec.subscribers == {} || sec.reading || (sec.readOnce && sec.hasReadOnce) {
        return;
      }
      if n == "bms" && selectedPack.Some? {
        StartRead(n, selectedPack);
        return;
      }
      TriggerSectionRead(n);
    }

    method HandleSelectPack(tower: int, pack: int)
      modifies this
      ensures Value() == old(Value()).HandleSelectPack(tower, pack)
    {
      var t, p := tower, pack;
      if t < 1 {
        t := 1;
      }
      if t > Battery.TOWERS {
        t := Battery.TOWERS;
      }
      if p < 1 {
        p := 1;
      }
      if p > Battery.PACKS_PER_TOWER {
        p := Battery.PACKS_PER_TOWER;
      }
      selectedPack := Some(Pack(t, p));
      if "bms" in sections {
        StartRead("bms", selectedPack);
      }
    }

    /** Replaces a section's groups; the plan is whatever the planner returns. */
    method SetGroups(n: string, groups: seq<ProbeGroup>) returns (ghost plan: BatchPlan)
      requires n in sections
      modifies this
      ensures IsPlan(groups, plan) && Value() == old(Value()).Rebuild(n, groups, plan)
    {
      var p := AnalyzeBatchPlan(groups);
      plan := p;
      var probes := FlattenGroups(groups);
      var sec := sections[n];
      sections := sections[n := sec.(groups := groups, probes := probes, plan := p, tracker := sec.tracker.Reset())];
    }

    method ConfigurePv(requested: int) returns (ghost plan: BatchPlan)
      modifies this
      ensures IsPlan(PvGroupsFor(requested), plan) && Value() == old(Value()).ConfigurePv(requested, plan)
    {
      var channels := requested;
      if channels < Pv.MIN_CHANNELS {
        channels := Pv.MIN_CHANNELS;
      }
      if channels > Pv.MAX_CHANNELS {
        channels := Pv.MAX_CHANNELS;
      }
      var groups := Pv.GeneratePVGroups(channels);
      if "pv" !in sections {
        var p := AnalyzeBatchPlan(groups);
        return p;
      }
      ghost var s0 := Value();
      plan := SetGroups("pv", groups);
      assert Value() == s0.Rebuild("pv", groups, plan);
      if connected && sections["pv"].subscribers != {} {
        TriggerSectionRead("pv");
      }
    }

    method RebuildBattery(channels: nat) returns (ghost plan: BatchPlan)
      requires Linked(Value())
      modifies this
      ensures IsPlan(Battery.BatteryGroups(channels), plan)
      ensures Value() == old(Value()).RebuildBattery(channels, plan)
    {
      var batteryGroups := Battery.GenerateBatteryGroups(channels);
      var groups := batteryGroups + [Battery.INTERNAL_INFO];
      if "battery" !in sections {
        var p := AnalyzeBatchPlan(groups);
        return p;
      }
      ghost var s0 := Value();
      plan := SetGroups("battery", groups);
      LinkedFrame(s0, Value());
      BroadcastToSection("battery", Schema("battery", groups));
    }

    method ChannelsDetected(channels: nat) returns (ghost plan: BatchPlan)
      requires Linked(Value())
      modifies this
      ensures IsPlan(Battery.BatteryGroups(channels), plan)
      ensures Value() == old(Value()).ChannelsDetected(channels, plan)
    {
      plan := RebuildBattery(channels);
      TriggerSectionRead("battery");
    }

    method ResetTracker(n: string)
      requires n in sections
      modifies this
      ensures Value() == old(Value()).ResetTracker(n)
    {
      sections := sections[n := sections[n].(tracker := sections[n].tracker.Reset())];
    }

    method ResetTrackers()
      modifies this
      ensures Value() == old(Value()).ResetTrackers(old(sections).Keys)
    {
      ghost var s0 := Value();
      ghost var done: set<string> := {};
      var rest := sections.Keys;
      ResetNone(s0);
      while rest != {}
        invariant done + rest == s0.sections.Keys && done !! rest
        invariant Value() == s0.ResetTrackers(done)
        decreases rest
      {
        var n :| n in rest;
        ResetNext(s0, done, n);
        ResetTracker(n);
        rest := rest - {n};
        done := done + {n};
      }
      assert done == s0.sections.Keys;
    }

    /** The part of a state event that only a new connection causes. */
    method ComeUp(channels: nat) returns (ghost plan: BatchPlan)
      requires Linked(Value())
      modifies this
      ensures IsPlan(Battery.BatteryGroups(channels), plan)
      ensures Value() == old(Value()).ComeUp(channels, plan)
    {
      ghost var s0 := Value();
      connected := true;
      ResetTrackers();
      LinkedFrame(s0, Value());
      plan := RebuildBattery(channels);
    }

    method HandleStateEvent(state: Link.ConnState) returns (ghost plan: BatchPlan)
      requires Linked(Value())
      modifies this
      ensures IsPlan(Battery.BatteryGroups(RESET_CHANNELS), plan)
      ensures Value() == old(Value()).HandleStateEvent(state, plan)
    {
      DeliverLinked(Value(), clients, StateChanged(state));
      BroadcastAll(StateChanged(state));
      if state.Connected? {
        plan := ComeUp(RESET_CHANNELS);
        return;
      }
      var p := AnalyzeBatchPlan(Battery.BatteryGroups(RESET_CHANNELS));
      plan := p;
      if state.Disconnected? || state.Reconnecting? {
        connected := false;
        CancelAllReads();
      }
    }

    method HandleResult(n: string, m: Packet)
      requires Linked(Value())
      modifies this
      ensures Value() == old(Value()).HandleResult(n, m)
    {
      ghost var s0 := Value();
      if m.Complete? && n in sections && sections[n].readOnce && !sections[n].hasReadOnce {
        sections := sections[n := sections[n].(hasReadOnce := true)];
      }
      LinkedFrame(s0, Value());
      BroadcastToSection(n, m);
    }

    method CloseClient(c: ClientId)
      modifies this
      ensures Value() == old(Value()).CloseClient(c)
    {
      var p := if c in peers then peers[c] else FRESH_PEER;
      panicked := panicked || p.closed;
      peers := peers[c := p.(closed := true)];
      clients := clients - {c};
    }

    method Shutdown()
      modifies this
      ensures Value() == old(Value()).Shutdown()
    {
      ghost var s0 := Value();
      ghost var done: set<ClientId> := {};
      var rest := clients;
      CloseNone(s0);
      while rest != {}
        invariant done + rest == s0.clients && done !! rest
        invariant Value() == s0.CloseClients(done)
        decreases rest
      {
        var c :| c in rest;
        CloseNext(s0, done, c);
        CloseClient(c);
        rest := rest - {c};
        done := done + {c};
      }
      assert done == s0.clients;
      CancelAllReads();
      live := {};
      stopped := true;
    }
  }

  /** A section as it is registered at startup. */
  method NewGroupedSection(groups: seq<ProbeGroup>, readOnce: bool) returns (sec: Section)
    ensures IsPlan(groups, sec.plan) && sec == NewSection(groups, sec.plan, readOnce)
  {
    var probes := FlattenGroups(groups);
    var plan := AnalyzeBatchPlan(groups);
    sec := Section(groups, probes, plan, Tracker.New(DEFAULT_THRESHOLD), readOnce, false, {}, None, false);
  }

  method FlattenGroups(groups: seq<ProbeGroup>) returns (probes: seq<Probe>)
    ensures probes == FlattenProbes(groups)
  {
    probes := [];
    for i := 0 to |groups|
      invariant probes == FlattenProbes(groups[..i])
    {
      assert groups[..i + 1][..i] == groups[..i];
      probes := probes + groups[i].probes;
    }
    assert groups[..|groups|] == groups;
  }
}
