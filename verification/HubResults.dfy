/** What can be relied on in every run of the hub, spelled out from its invariants. */
module HubResults {
  import opened Registers
  import opened BatchPlanner
  import opened BatchPlanTheorems
  import opened SpanTrackers
  import opened ReadCycles
  import opened CycleTheorems
  import opened CycleData
  import opened HubModel
  import opened HubTheorems
  import opened HubDetection
  import Link = BrokerModel
  import Battery

  /** s occurs in some run of the hub. */
  ghost predicate Reachable(s: HubState) {
    exists sections, states, es :: HubRun(sections, states, es) && states[|es|] == s
  }

  lemma {:induction false} ReachableGood(s: HubState)
    requires Reachable(s)
    ensures Good(s) && !s.panicked
  {
    var sections, states, es :| HubRun(sections, states, es) && states[|es|] == s;
    EveryRunGood(sections, states, es, |es|);
  }

  /** Until shutdown, a client is a subscriber of exactly the section it is recorded
      for, so of at most one, and a client that was removed is a subscriber of none. */
  lemma {:induction false} SubscriptionsConsistent(s: HubState, c: ClientId, n: string)
    requires Reachable(s) && !s.stopped && n in s.sections
    ensures c in s.sections[n].subscribers <==> s.PeerOf(c).section == n
    ensures c in s.sections[n].subscribers ==> c in s.clients
    ensures forall m :: m in s.sections && c in s.sections[m].subscribers && c in s.sections[n].subscribers ==> m == n
  {
    ReachableGood(s);
    forall m | m in s.sections && c in s.sections[m].subscribers && c in s.sections[n].subscribers
      ensures m == n
    {
      assert s.PeerOf(c).section == m;
    }
  }

  /** At most one read of a section is uncancelled, and the section holds its context. */
  lemma {:induction false} OneLiveReader(s: HubState, j: nat, k: nat)
    requires Reachable(s) && j in s.live && k in s.live
    requires j < |s.jobs| && k < |s.jobs|
    requires s.jobs[j].section == s.jobs[k].section
    ensures j == k && s.jobs[k].section in s.sections && s.sections[s.jobs[k].section].readCancel == Some(k)
  {
    ReachableGood(s);
    assert IsHeld(s, j) && IsHeld(s, k);
  }

  /** Events after which nothing may be reading. */
  predicate Drops(e: HubEvent) {
    e.DisconnectAsked? || e.HubCancelled? || (e.LinkChanged? && (e.state.Disconnected? || e.state.Reconnecting?))
  }

  /** Right after the link is lost, or a client asks to disconnect, no read is live. */
  lemma {:induction false} SilentAfterDrop(s: HubState, e: HubEvent)
    requires Reachable(s) && Drops(e) && Planned(e) && !s.stopped
    ensures Advance(s, e).live == {}
  {
    ReachableGood(s);
    DropSilences(s, e);
  }

  lemma {:induction false} DropSilences(s: HubState, e: HubEvent)
    requires Running(s) && Drops(e) && Planned(e)
    ensures Handle(s, e).live == {}
  {
    match e
    case DisconnectAsked => NothingLive(s);
    case HubCancelled => ShutdownGood(s);
    case LinkChanged(state, plan) => StateEventGood(s, state, plan);
  }

  /** Whatever was configured, detected or reset, a section's plan is that of its
      groups, and its tracker remembers only spans of that plan. */
  lemma {:induction false} PlansStayCurrent(s: HubState, n: string)
    requires Reachable(s) && n in s.sections
    ensures var sec := s.sections[n];
      && sec.probes == FlattenProbes(sec.groups) && IsPlan(sec.groups, sec.plan) && TrackerOk(sec.tracker)
      && forall a: word :: sec.tracker.State(a) != Normal ==>
           exists k :: 0 <= k < |sec.plan.spans| && sec.plan.spans[k].start == a
  {
    ReachableGood(s);
    var sec := s.sections[n];
    assert Cached(sec);
    forall a: word | sec.tracker.State(a) != Normal
      ensures exists k :: 0 <= k < |sec.plan.spans| && sec.plan.spans[k].start == a
    {
      assert sec.tracker.At(a) != FRESH;
      assert StartsSpan(sec.plan, a);
    }
  }

  /** So the plan of any section of the hub covers its probes exactly, and every cycle that
      reads it, whatever fails, reports the probes it attempts exactly once and in address
      order, or a prefix of that. */
  lemma {:induction false} HubCyclesConserve(s: HubState, n: string, env: Env, now: nat)
    requires Good(s) && n in s.sections && Monotone(env)
    ensures var sec := s.sections[n];
      var c := ReadCycle(env, sec.plan.spans, sec.probes, History(now, sec.tracker, [], []));
      var expected := Expected(sec.tracker.Tick(), sec.plan.spans);
      && Labels(c.sent) <= expected && (!c.stopped ==> Labels(c.sent) == expected) && Sorted(expected)
      && Covers(sec.groups, sec.plan)
  {
    assert Cached(s.sections[n]);
    SectionConserves(s.sections[n], env, now);
  }

  lemma {:induction false} SectionConserves(sec: Section, env: Env, now: nat)
    requires Cached(sec) && Monotone(env)
    ensures var c := ReadCycle(env, sec.plan.spans, sec.probes, History(now, sec.tracker, [], []));
      var expected := Expected(sec.tracker.Tick(), sec.plan.spans);
      && Labels(c.sent) <= expected && (!c.stopped ==> Labels(c.sent) == expected) && Sorted(expected)
      && Covers(sec.groups, sec.plan)
  {
    var h := History(now, sec.tracker, [], []);
    ExactCover(sec.groups, sec.plan);
    MessageConservation(env, sec.groups, sec.plan, sec.probes, h);
    assert Labels(h.sent) == [] && [] + Expected(sec.tracker.Tick(), sec.plan.spans) ==
                                   Expected(sec.tracker.Tick(), sec.plan.spans);
  }

  /** Up to nine channels, a battery cycle in which every read works gives every probe
      of the section the result of its own individual read. */
  lemma {:induction false} BatteryReadsAgree(channels: nat, env: Env, mem: Memory, plan: BatchPlan, h: History, i: nat)
    requires channels <= Battery.ROOMY_CHANNELS && GoodCycle(env, mem, Battery.BatteryGroups(channels), plan, h)
    requires i < |FlattenProbes(Battery.BatteryGroups(channels))|
    requires FlattenProbes(Battery.BatteryGroups(channels))[i].count != 0
    ensures var probes := FlattenProbes(Battery.BatteryGroups(channels));
      var c := ReadCycle(env, plan.spans, probes, h);
      i < |c.slots| && c.slots[i] == Got(ImageOf(mem, probes[i]))
  {
    var probes := FlattenProbes(Battery.BatteryGroups(channels));
    Battery.DistinctExactly(channels);
    assert Battery.AddressesDistinct(probes);
    BatchRefinesIndividual(env, mem, Battery.BatteryGroups(channels), plan, h);
  }

  /** Every pack read that was ever started addresses its pack without ambiguity,
      whatever coordinates clients asked for. */
  lemma {:induction false} PacksAddressed(s: HubState, k: nat)
    requires Reachable(s) && k < |s.jobs| && s.jobs[k].pack.Some?
    ensures var p := s.jobs[k].pack.value;
      Battery.DecodePackQuery(Battery.EncodePackQuery(1, p.tower, p.pack, Battery.TOWERS), Battery.TOWERS) ==
      (1, p.tower, p.pack)
  {
    ReachableGood(s);
    var p := s.jobs[k].pack.value;
    Battery.ClampedSelection(p.tower, p.pack);
  }

  // ---- panics ----

  lemma {:induction false} RemovePanics(s: HubState, c: ClientId)
    ensures s.RemoveClient(c).panicked <==> s.panicked || (c in s.clients && s.PeerOf(c).closed)
  {
  }

  lemma {:induction false} SendPanics(s: HubState, c: ClientId, m: Packet)
    ensures s.SendToClient(c, m).panicked <==> s.panicked || s.PeerOf(c).closed
    ensures !s.PeerOf(c).closed && !s.PeerOf(c).Full() ==> !s.SendToClient(c, m).PeerOf(c).closed
  {
    RemovePanics(s, c);
  }

  lemma {:induction false} JoinPanics(s: HubState, c: ClientId, n: string)
    requires n in s.sections
    ensures s.Join(c, n).panicked <==> s.panicked || s.PeerOf(c).closed
  {
    var t := Seated(s, c, n);
    RemovePanics(t, c);
    SendPanics(t, c, Schema(n, s.sections[n].groups));
    SendPanics(t.SendToClient(c, Schema(n, s.sections[n].groups)), c, Problem(n, NOT_CONNECTED));
  }

  lemma {:induction false} SubscribePanics(s: HubState, c: ClientId, n: string)
    ensures s.SubscribeClient(c, n).panicked <==> s.panicked || s.PeerOf(c).closed
  {
    var before := s.PeerOf(c).section;
    var t := if before != "" && before != n then s.CancelRead(before).UnsubscribeClient(c, before) else s;
    assert t.panicked == s.panicked && t.PeerOf(c).closed == s.PeerOf(c).closed;
    SendPanics(t, c, Problem(n, UNKNOWN_SECTION));
    if n in s.sections {
      JoinPanics(t, c, n);
    }
  }

  /** In any reachable state an event makes the loop send on a closed channel, or
      close one twice, exactly when it registers or subscribes a client whose channel
      was closed before. */
  lemma {:induction false} PanicExact(s: HubState, e: HubEvent)
    requires Reachable(s) && Planned(e)
    ensures Advance(s, e).panicked <==> !s.stopped && (e.Registered? || e.Subscribe?) && s.PeerOf(e.c).closed
  {
    ReachableGood(s);
    if Outside(e) {
      ElsewhereGood(s, e);
    } else if s.stopped {
    } else if e.Registered? {
      SendPanics(s.(clients := s.clients + {e.c}), e.c, StateChanged(e.state));
    } else if e.Subscribe? {
      SubscribePanics(s, e.c, e.n);
    } else {
      HandleGood(s, e);
    }
  }

  /** The code does not check that the sender of a command is still registered: a
      subscription that was queued before its client was removed panics. */
  lemma {:induction false} LateSubscriptionPanics(s: HubState, c: ClientId, n: string)
    requires Reachable(s) && c in s.clients && !s.stopped
    ensures Advance(Advance(s, Unregistered(c)), Subscribe(c, n)).panicked
  {
    ReachableGood(s);
    RemoveGood(s, c);
    var t := s.RemoveClient(c);
    SubscribePanics(t, c, n);
  }

  // ---- deliveries ----

  /** One broadcast, seen by one client: a recipient with room gets the message once,
      a recipient without is removed, and nobody else notices. */
  lemma {:induction false} DeliveredTo(s: HubState, cs: set<ClientId>, m: Packet, c: ClientId)
    requires Running(s) && cs <= s.clients && c in s.clients
    ensures var t := s.Deliver(cs, m);
      && (c !in cs ==> c in t.clients && t.PeerOf(c) == s.PeerOf(c))
      && (c in cs && !s.PeerOf(c).Full() ==>
            c in t.clients && t.PeerOf(c) == s.PeerOf(c).(queue := s.PeerOf(c).queue + [m]))
      && (c in cs && s.PeerOf(c).Full() ==>
            c !in t.clients && t.PeerOf(c) == s.PeerOf(c).(section := "", closed := true))
  {
    assert ChannelOk(s, c);
    var t := s.Deliver(cs, m);
    assert t.PeerOf(c) == if c in cs then s.Receive(c, m) else s.PeerOf(c);
  }

  /** The client got what it was owed, or did not have room for it and was removed. */
  ghost predicate Settled(s: HubState, t: HubState, c: ClientId, owed: seq<Packet>) {
    && (c in t.clients <==> c in s.clients && |s.PeerOf(c).queue| + |owed| <= SEND_BUFFER)
    && (c in t.clients ==> t.PeerOf(c).queue == s.PeerOf(c).queue + owed)
  }

  lemma {:induction false} SettledTwice(s: HubState, u: HubState, t: HubState, c: ClientId, x: seq<Packet>,
                                        y: seq<Packet>)
    requires Settled(s, u, c, x) && Settled(u, t, c, y)
    ensures Settled(s, t, c, x + y)
  {
    assert s.PeerOf(c).queue + x + y == s.PeerOf(c).queue + (x + y);
  }

  /** The client is in no section's subscriber set. */
  ghost predicate Nowhere(s: HubState, c: ClientId) {
    forall n :: n in s.sections ==> c !in s.sections[n].subscribers
  }

  /** A read result reaches exactly the clients of its section, once each; a client
      is lost exactly when it should have got the result and had no room. */
  lemma {:induction false} ResultsDelivered(s: HubState, n: string, m: Packet, c: ClientId)
    requires Running(s)
    requires n in s.sections && c in s.clients
    ensures var t := s.HandleResult(n, m);
      var owed := s.PeerOf(c).section == n;
      && Settled(s, t, c, if owed then [m] else [])
      && (c !in t.clients ==> t.PeerOf(c).closed && Nowhere(t, c))
  {
    if m.Complete? && s.sections[n].readOnce && !s.sections[n].hasReadOnce {
      var sec := s.sections[n].(hasReadOnce := true);
      FlagGood(s, n, sec);
      SectionDelivered(s.(sections := s.sections[n := sec]), n, m, c);
    } else {
      SectionDelivered(s, n, m, c);
    }
  }

  /** A broadcast to a section, seen by one client. */
  lemma {:induction false} SectionDelivered(s: HubState, n: string, m: Packet, c: ClientId)
    requires Running(s) && n in s.sections
    ensures var t := s.BroadcastToSection(n, m);
      var owed := if s.PeerOf(c).section == n then [m] else [];
      && Settled(s, t, c, owed)
      && (c in s.clients && c !in t.clients ==> t.PeerOf(c).closed && Nowhere(t, c))
  {
    assert ChannelOk(s, c);
    SubscribersRegistered(s, n);
    assert c in s.sections[n].subscribers <==> s.PeerOf(c).section == n;
    var cs := s.sections[n].subscribers;
    if c in s.clients {
      DeliveredTo(s, cs, m, c);
      DeliverLinked(s, cs, m);
    }
  }

  /** What the reset of the battery section sends to a client. */
  function OwedSchema(s: HubState, c: ClientId, channels: nat): seq<Packet> {
    if "battery" in s.sections && s.PeerOf(c).section == "battery"
    then [Schema("battery", Battery.BatteryGroups(channels))] else []
  }

  /** What a change of the link sends to a client. */
  function Owed(s: HubState, c: ClientId, state: Link.ConnState, channels: nat): seq<Packet> {
    [StateChanged(state)] + if state.Connected? then OwedSchema(s, c, channels) else []
  }

  lemma {:induction false} LinkUpDelivered(s: HubState, channels: nat, plan: BatchPlan, c: ClientId)
    requires Running(s) && channels <= Battery.MAX_CHANNELS && IsPlan(Battery.BatteryGroups(channels), plan)
    requires c in s.clients
    ensures Settled(s, s.Deliver(s.clients, StateChanged(Link.Connected)).ComeUp(channels, plan), c,
                    [StateChanged(Link.Connected)] + OwedSchema(s, c, channels))
  {
    var u := s.Deliver(s.clients, StateChanged(Link.Connected));
    Told(s, Link.Connected, c);
    BatteryReset(u, channels, plan, c);
    SettledTwice(s, u, u.ComeUp(channels, plan), c, [StateChanged(Link.Connected)], OwedSchema(u, c, channels));
  }

  lemma {:induction false} LinkDownDelivered(s: HubState, state: Link.ConnState, plan: BatchPlan, c: ClientId)
    requires Running(s) && !state.Connected? && c in s.clients
    ensures Settled(s, s.HandleStateEvent(state, plan), c, [StateChanged(state)])
  {
    Told(s, state, c);
    var t, u := s.HandleStateEvent(state, plan), s.Deliver(s.clients, StateChanged(state));
    assert t.clients == u.clients && t.peers == u.peers;
  }

  /** A change of the link is told to every client once, and after a reconnect the
      battery clients get the reset schema behind it; exactly the clients without room
      for what they are owed are lost. */
  lemma {:induction false} LinkChangesDelivered(s: HubState, state: Link.ConnState, plan: BatchPlan, c: ClientId)
    requires Running(s) && IsPlan(Battery.BatteryGroups(RESET_CHANNELS), plan) && c in s.clients
    ensures Settled(s, s.HandleStateEvent(state, plan), c, Owed(s, c, state, RESET_CHANNELS))
  {
    if state.Connected? {
      LinkUpDelivered(s, RESET_CHANNELS, plan, c);
    } else {
      LinkDownDelivered(s, state, plan, c);
    }
  }

  /** The first broadcast of a change of the link. */
  lemma {:induction false} Told(s: HubState, state: Link.ConnState, c: ClientId)
    requires Running(s) && c in s.clients
    ensures var t := s.Deliver(s.clients, StateChanged(state));
      && Running(t) && t.sections.Keys == s.sections.Keys
      && Settled(s, t, c, [StateChanged(state)])
      && (c in t.clients ==> t.PeerOf(c).section == s.PeerOf(c).section)
  {
    DeliverGood(s, s.clients, StateChanged(state));
    DeliveredTo(s, s.clients, StateChanged(state), c);
  }

  /** The part of a reconnect that concerns the battery section. */
  lemma {:induction false} BatteryReset(s: HubState, channels: nat, plan: BatchPlan, c: ClientId)
    requires Running(s) && channels <= Battery.MAX_CHANNELS && IsPlan(Battery.BatteryGroups(channels), plan)
    ensures Settled(s, s.ComeUp(channels, plan), c, OwedSchema(s, c, channels))
  {
    var groups := Battery.BatteryGroups(channels);
    assert ChannelOk(s, c);
    ConnectedGood(s, true);
    ResetGood(s.(connected := true));
    var u := s.(connected := true).ResetTrackers(s.sections.Keys);
    if "battery" in s.sections {
      Battery.BatteryFits(channels);
      FitMeansNoWrap(groups);
      RebuildGood(u, "battery", groups, plan);
      SectionDelivered(u.Rebuild("battery", groups, plan), "battery", Schema("battery", groups), c);
    }
  }

  // ---- rebuilding twice ----

  lemma {:induction false} ReachableNew(sections: map<string, Section>)
    requires Builtin(sections)
    ensures Reachable(New(sections))
  {
    assert HubRun(sections, [New(sections)], []);
  }

  lemma {:induction false} ReachableNext(s: HubState, e: HubEvent)
    requires Reachable(s) && (s.stopped || Admissible(s, e))
    ensures Reachable(Advance(s, e))
  {
    var sections, states, es :| HubRun(sections, states, es) && states[|es|] == s;
    var t := Advance(s, e);
    var longer, more := states + [t], es + [e];
    forall i | 0 <= i < |more|
      ensures Happens(longer[i], more[i], longer[i + 1])
    {
      assert i < |es| ==> Happens(states[i], es[i], states[i + 1]);
    }
    assert HubRun(sections, longer, more) && longer[|more|] == t;
  }

  lemma {:induction false} ArrivalReached(sections: map<string, Section>, c: ClientId, plan: BatchPlan)
    requires Builtin(sections) && "battery" in sections && IsPlan(Battery.BatteryGroups(RESET_CHANNELS), plan)
    ensures Reachable(Visited(Advance(New(sections), LinkChanged(Link.Connected, plan)), c))
  {
    UpReached(sections, plan);
    LinkUp(sections, plan);
    VisitReached(Advance(New(sections), LinkChanged(Link.Connected, plan)), c);
  }

  lemma {:induction false} UpReached(sections: map<string, Section>, plan: BatchPlan)
    requires Builtin(sections) && IsPlan(Battery.BatteryGroups(RESET_CHANNELS), plan)
    ensures Reachable(Advance(New(sections), LinkChanged(Link.Connected, plan)))
  {
    ReachableNew(sections);
    ReachableNext(New(sections), LinkChanged(Link.Connected, plan));
  }

  lemma {:induction false} VisitReached(s: HubState, c: ClientId)
    requires Reachable(s) && Unvisited(s)
    ensures Reachable(Visited(s, c))
  {
    MayVisit(s, c);
    ReachableNext(s, Registered(c, Link.Connected));
    ReachableNext(Advance(s, Registered(c, Link.Connected)), Subscribe(c, "battery"));
  }

  /** A run of any hub with a battery section reaches a state from which a device with
      another count than the default causes two rebuilds: a client subscribes, and asks for a
      refresh before the hub has handled what the first reader detected. */
  lemma {:induction false} TwoRebuildsReached(sections: map<string, Section>, c: ClientId, plan: BatchPlan,
                                              channels: nat, next: BatchPlan)
      returns (s: HubState)
    requires Builtin(sections) && "battery" in sections && IsPlan(Battery.BatteryGroups(RESET_CHANNELS), plan)
    requires 0 < channels <= Battery.MAX_CHANNELS && channels != RESET_CHANNELS
    ensures Reachable(s) && IsBatteryJob(s, 0) && 0 in s.live
    ensures QueuedRun(s, EMPTY, DetectedTwice(s, 0, channels, next), channels)
    ensures Rebuilds(s, DetectedTwice(s, 0, channels, next)) == 2
  {
    var up := Advance(New(sections), LinkChanged(Link.Connected, plan));
    s := Visited(up, c);
    ArrivalReached(sections, c, plan);
    LinkUp(sections, plan);
    FirstVisit(up, c);
    Battery.CountExact(RESET_CHANNELS);
    TwoRebuilds(s, 0, channels, next);
  }
}
