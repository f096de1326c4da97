/** What each event means for one client: what it is sent, which section it is in, and whether
    it is lost; which pack is selected; and which reads are cancelled. */
module HubClients {
  import opened Registers
  import opened BatchPlanner
  import opened BatchPlanTheorems
  import opened HubModel
  import opened HubTheorems
  import opened HubResults
  import opened HubSteps
  import Link = BrokerModel
  import Battery

  // ---- the table ----

  /** What an event sends to a client: the state on registration; the schema of the section
      it subscribes to, and that there is no connection if there is none; every change of the
      link, and the battery section's schema whenever that is rebuilt; the results of its
      section. */
  function Owes(s: HubState, e: HubEvent, c: ClientId): seq<Packet> {
    match e
    case Registered(d, state) => if d == c then [StateChanged(state)] else []
    case Subscribe(d, n) =>
      if d != c then []
      else if n !in s.sections then [Problem(n, "unknown section")]
      else if s.connected then [Schema(n, s.sections[n].groups)]
      else [Schema(n, s.sections[n].groups), Problem(n, "not connected to inverter")]
    case LinkChanged(state, _) =>
      if c !in s.clients then []
      else [StateChanged(state)] + if state.Connected? then BatterySchema(s, c, 2) else []
    case BatteryDetected(count, _) => BatterySchema(s, c, count)
    case ResultRead(n, m) => if n in s.sections && s.PeerOf(c).section == n then [m] else []
    case _ => []
  }

  function BatterySchema(s: HubState, c: ClientId, count: nat): seq<Packet> {
    if "battery" in s.sections && s.PeerOf(c).section == "battery"
    then [Schema("battery", Battery.BatteryGroups(count))] else []
  }

  /** The section of the client afterwards, if it is not lost. */
  function Wants(s: HubState, e: HubEvent, c: ClientId): string {
    match e
    case Subscribe(d, n) => if d != c then s.PeerOf(c).section else if n in s.sections then n else ""
    case Unsubscribe(d, n) => if d == c && s.PeerOf(c).section == n then "" else s.PeerOf(c).section
    case _ => s.PeerOf(c).section
  }

  /** The client is lost if it goes, or if there is no room for what it is sent. */
  predicate Lost(s: HubState, e: HubEvent, c: ClientId) {
    (e.Unregistered? && e.c == c) || |s.PeerOf(c).queue| + |Owes(s, e, c)| > 256
  }

  predicate Present(s: HubState, e: HubEvent, c: ClientId) {
    c in s.clients || (e.Registered? && e.c == c)
  }

  /** What the table says of a client in a step from s to t. */
  ghost predicate ClientStep(s: HubState, e: HubEvent, t: HubState, c: ClientId) {
    if !Present(s, e, c) then c !in t.clients && t.PeerOf(c) == s.PeerOf(c)
    else if Lost(s, e, c) then c !in t.clients && t.PeerOf(c).closed && t.PeerOf(c).section == ""
    else
      && c in t.clients && !t.PeerOf(c).closed && t.PeerOf(c).section == Wants(s, e, c)
      && t.PeerOf(c).queue == s.PeerOf(c).queue + Owes(s, e, c)
  }

  // ---- sending ----

  /** One client's view of a step that sends it these packets one by one. */
  ghost predicate Sent(s: HubState, t: HubState, c: ClientId, owed: seq<Packet>, section: string) {
    if |s.PeerOf(c).queue| + |owed| > 256 then c !in t.clients && t.PeerOf(c).closed && t.PeerOf(c).section == ""
    else
      && c in t.clients && !t.PeerOf(c).closed && t.PeerOf(c).section == section
      && t.PeerOf(c).queue == s.PeerOf(c).queue + owed
  }

  ghost predicate Untouched(s: HubState, t: HubState, c: ClientId) {
    t.PeerOf(c) == s.PeerOf(c) && (c in t.clients <==> c in s.clients)
  }

  lemma {:induction false} UnsubscribeTouches(s: HubState, c: ClientId, n: string, d: ClientId)
    requires Linked(s)
    ensures var t := s.UnsubscribeClient(c, n);
      if d == c && n in s.sections && s.PeerOf(c).section == n then
        t.PeerOf(d) == s.PeerOf(d).(section := "") && (d in t.clients <==> d in s.clients)
      else Untouched(s, t, d)
  {
  }

  lemma {:induction false} RemoveTouches(s: HubState, c: ClientId, d: ClientId)
    requires Linked(s)
    ensures var t := s.RemoveClient(c);
      if d == c && c in s.clients then
        && d !in t.clients && t.PeerOf(d).closed && t.PeerOf(d).section == ""
        && t.PeerOf(d).queue == s.PeerOf(d).queue
      else Untouched(s, t, d)
  {
    if c in s.clients {
      var u := if s.PeerOf(c).section != "" then s.UnsubscribeClient(c, s.PeerOf(c).section) else s;
      UnsubscribeTouches(s, c, s.PeerOf(c).section, d);
      assert s.PeerOf(c).section != "" ==> s.PeerOf(c).section in s.sections;
    }
  }

  lemma {:induction false} SendTouches(s: HubState, c: ClientId, m: Packet, d: ClientId)
    requires Linked(s) && c in s.clients && !s.PeerOf(c).closed
    ensures var t := s.SendToClient(c, m);
      if d == c then Sent(s, t, d, [m], s.PeerOf(d).section) else Untouched(s, t, d)
  {
    RemoveTouches(s, c, d);
  }

  // ---- one event ----

  lemma {:induction false} RegisterClients(s: HubState, c: ClientId, state: Link.ConnState, d: ClientId)
    requires Running(s) && Admissible(s, Registered(c, state))
    ensures ClientStep(s, Registered(c, state), s.Register(c, state), d)
  {
    assert ChannelOk(s, d);
    var u := s.(clients := s.clients + {c});
    AdmitLinked(s, c);
    SendTouches(u, c, StateChanged(state), d);
    assert u.PeerOf(d) == s.PeerOf(d);
  }

  /** The client as it joins: whatever it was, it is in no other section, and its queue is
      what it was. */
  lemma {:induction false} MovingTouches(s: HubState, c: ClientId, n: string, d: ClientId)
    requires Linked(s) && c in s.clients
    ensures var u, before := Moving(s, c, n), s.PeerOf(c).section;
      && Linked(u) && (d in u.clients <==> d in s.clients) && u.sections.Keys == s.sections.Keys
      && u.connected == s.connected
      && (if d == c && before != n then u.PeerOf(d) == s.PeerOf(d).(section := "") else u.PeerOf(d) == s.PeerOf(d))
  {
    var before := s.PeerOf(c).section;
    if before != "" && before != n {
      var v := s.CancelRead(before);
      CancelQuiet(s, before);
      LinkedFrame(s, v);
      UnsubscribeLinked(v, c, before);
      UnsubscribeTouches(v, c, before, d);
      assert v.PeerOf(d) == s.PeerOf(d) && v.PeerOf(c) == s.PeerOf(c);
    }
  }

  lemma {:induction false} SeatedTouches(s: HubState, c: ClientId, n: string, d: ClientId)
    requires n in s.sections
    ensures var u := Seated(s, c, n);
      && (d in u.clients <==> d in s.clients)
      && u.PeerOf(d) == if d == c then s.PeerOf(d).(section := n) else s.PeerOf(d)
  {
  }

  lemma {:induction false} JoinTouches(s: HubState, c: ClientId, n: string, d: ClientId)
    requires Linked(s) && n in s.sections && c in s.clients && !s.PeerOf(c).closed
    requires s.PeerOf(c).section == "" || s.PeerOf(c).section == n
    ensures var schema := Schema(n, s.sections[n].groups);
      var owed := if s.connected then [schema] else [schema, Problem(n, "not connected to inverter")];
      if d == c then Sent(s, s.Join(c, n), d, owed, n) else Untouched(s, s.Join(c, n), d)
  {
    var u, schema := Seated(s, c, n), Schema(n, s.sections[n].groups);
    SeatedLinked(s, c, n);
    SeatedTouches(s, c, n, d);
    SeatedTouches(s, c, n, c);
    if s.PeerOf(c).Full() {
      RemoveTouches(u, c, d);
    } else {
      var v := u.SendToClient(c, schema);
      SendTouches(u, c, schema, d);
      SendTouches(u, c, schema, c);
      EnqueueLinked(u, c, schema);
      GreetTouches(v, c, n, d);
    }
  }

  lemma {:induction false} EnqueueLinked(s: HubState, c: ClientId, m: Packet)
    requires Linked(s) && !s.PeerOf(c).closed && !s.PeerOf(c).Full()
    ensures Linked(s.SendToClient(c, m))
  {
    var t := s.SendToClient(c, m);
    forall d
      ensures t.PeerOf(d).section == s.PeerOf(d).section
    {
    }
    forall k, d | k in t.sections
      ensures d in t.sections[k].subscribers <==> t.PeerOf(d).section == k
    {
      assert d in s.sections[k].subscribers <==> s.PeerOf(d).section == k;
    }
  }

  lemma {:induction false} GreetTouches(v: HubState, c: ClientId, n: string, d: ClientId)
    requires Linked(v) && c in v.clients && !v.PeerOf(c).closed && n in v.sections
    ensures Untouched(v, v.TriggerSectionRead(n), d)
    ensures var t := v.SendToClient(c, Problem(n, NOT_CONNECTED));
      if d == c then Sent(v, t, d, [Problem(n, "not connected to inverter")], v.PeerOf(d).section)
      else Untouched(v, t, d)
  {
    SendTouches(v, c, Problem(n, NOT_CONNECTED), d);
    StartQuiet(v, n, None);
  }

  lemma {:induction false} SubscribeClients(s: HubState, c: ClientId, n: string, d: ClientId)
    requires Running(s) && c in s.clients
    ensures ClientStep(s, Subscribe(c, n), s.SubscribeClient(c, n), d)
  {
    assert ChannelOk(s, d) && ChannelOk(s, c);
    var u := Moving(s, c, n);
    MovingTouches(s, c, n, d);
    MovingTouches(s, c, n, c);
    if n in s.sections {
      MovingBegan(s, c, n);
      assert SameWork(s.sections[n], u.sections[n], StartsFor([], n));
      JoinTouches(u, c, n, d);
    } else {
      assert s.PeerOf(c).section == n ==> n == "";
      SendTouches(u, c, Problem(n, UNKNOWN_SECTION), d);
    }
  }

  lemma {:induction false} UnsubscribeClients(s: HubState, c: ClientId, n: string, d: ClientId)
    requires Running(s)
    ensures ClientStep(s, Unsubscribe(c, n), s.UnsubscribeClient(c, n), d)
  {
    assert ChannelOk(s, d);
    UnsubscribeTouches(s, c, n, d);
  }

  lemma {:induction false} UnregisterClients(s: HubState, c: ClientId, d: ClientId)
    requires Running(s)
    ensures ClientStep(s, Unregistered(c), s.RemoveClient(c), d)
  {
    assert ChannelOk(s, d);
    RemoveTouches(s, c, d);
  }

  lemma {:induction false} QuietClients(s: HubState, e: HubEvent, t: HubState, d: ClientId)
    requires ChannelOk(s, d) && t.clients == s.clients && t.peers == s.peers && ConcernsNone(e)
    ensures ClientStep(s, e, t, d)
  {
  }

  /** A broadcast, seen by one client. */
  lemma {:induction false} DeliverTouches(s: HubState, cs: set<ClientId>, m: Packet, d: ClientId)
    requires Running(s) && cs <= s.clients
    ensures var t := s.Deliver(cs, m); if d in cs then Sent(s, t, d, [m], s.PeerOf(d).section) else Untouched(s, t, d)
  {
    assert ChannelOk(s, d);
    if d in s.clients {
      DeliveredTo(s, cs, m, d);
    } else {
      assert s.Deliver(cs, m).PeerOf(d) == s.PeerOf(d);
    }
  }

  lemma {:induction false} BroadcastTouches(s: HubState, n: string, m: Packet, d: ClientId)
    requires Running(s)
    ensures var t := s.BroadcastToSection(n, m);
      if n in s.sections && s.PeerOf(d).section == n then d in s.clients && Sent(s, t, d, [m], n)
      else Untouched(s, t, d)
  {
    if n in s.sections {
      SubscribersRegistered(s, n);
      assert d in s.sections[n].subscribers <==> s.PeerOf(d).section == n;
      DeliverTouches(s, s.sections[n].subscribers, m, d);
    }
  }

  lemma {:induction false} ResultClients(s: HubState, n: string, m: Packet, d: ClientId)
    requires Running(s)
    ensures ClientStep(s, ResultRead(n, m), s.HandleResult(n, m), d)
  {
    assert ChannelOk(s, d);
    MarkedGood(s, n, m);
    BroadcastTouches(Marked(s, n, m), n, m, d);
    ResultStep(s, Marked(s, n, m), s.HandleResult(n, m), n, m, d);
  }

  lemma {:induction false} ResultStep(s: HubState, u: HubState, t: HubState, n: string, m: Packet, d: ClientId)
    requires ChannelOk(s, d) && u.clients == s.clients && u.peers == s.peers && u.sections.Keys == s.sections.Keys
    requires if n in u.sections && u.PeerOf(d).section == n then d in u.clients && Sent(u, t, d, [m], n)
             else Untouched(u, t, d)
    ensures ClientStep(s, ResultRead(n, m), t, d)
  {
    assert u.PeerOf(d) == s.PeerOf(d);
  }

  lemma {:induction false} MarkedGood(s: HubState, n: string, m: Packet)
    requires Running(s)
    ensures var u := Marked(s, n, m);
      && Running(u) && u.clients == s.clients && u.peers == s.peers && u.sections.Keys == s.sections.Keys
      && u.selectedPack == s.selectedPack && s.HandleResult(n, m) == u.BroadcastToSection(n, m)
  {
    if Marked(s, n, m) != s {
      FlagGood(s, n, s.sections[n].(hasReadOnce := true));
    }
  }

  lemma {:induction false} RebuiltGood(s: HubState, count: nat, plan: BatchPlan)
    requires Running(s) && "battery" in s.sections
    requires count <= Battery.MAX_CHANNELS && IsPlan(Battery.BatteryGroups(count), plan)
    ensures Running(s.Rebuild("battery", Battery.BatteryGroups(count), plan))
  {
    Battery.BatteryFits(count);
    FitMeansNoWrap(Battery.BatteryGroups(count));
    RebuildGood(s, "battery", Battery.BatteryGroups(count), plan);
  }

  lemma {:induction false} RebuildClients(s: HubState, count: nat, plan: BatchPlan, d: ClientId)
    requires Running(s) && count <= Battery.MAX_CHANNELS && IsPlan(Battery.BatteryGroups(count), plan)
    ensures var t, owed := s.RebuildBattery(count, plan), BatterySchema(s, d, count);
      if owed != [] then d in s.clients && Sent(s, t, d, owed, s.PeerOf(d).section) else Untouched(s, t, d)
  {
    if "battery" in s.sections {
      var groups := Battery.BatteryGroups(count);
      RebuiltGood(s, count, plan);
      BroadcastTouches(s.Rebuild("battery", groups, plan), "battery", Schema("battery", groups), d);
    }
  }

  lemma {:induction false} DetectedClients(s: HubState, count: nat, plan: BatchPlan, d: ClientId)
    requires Running(s) && Admissible(s, BatteryDetected(count, plan))
    ensures ClientStep(s, BatteryDetected(count, plan), s.ChannelsDetected(count, plan), d)
  {
    assert ChannelOk(s, d);
    RebuildClients(s, count, plan, d);
    TriggerQuiet(s.RebuildBattery(count, plan), "battery");
    RebuiltStep(s, s.RebuildBattery(count, plan), s.ChannelsDetected(count, plan), count, plan, d);
  }

  lemma {:induction false} TriggerQuiet(u: HubState, n: string)
    ensures var t := u.TriggerSectionRead(n);
      t.clients == u.clients && t.peers == u.peers && t.selectedPack == u.selectedPack
  {
    if n in u.sections {
      StartQuiet(u, n, None);
    }
  }

  lemma {:induction false} RebuiltStep(s: HubState, u: HubState, t: HubState, count: nat, plan: BatchPlan, d: ClientId)
    requires ChannelOk(s, d) && t.clients == u.clients && t.peers == u.peers
    requires var owed := BatterySchema(s, d, count);
      if owed != [] then d in s.clients && Sent(s, u, d, owed, s.PeerOf(d).section) else Untouched(s, u, d)
    ensures ClientStep(s, BatteryDetected(count, plan), t, d)
  {
  }

  lemma {:induction false} SentTwice(s: HubState, u: HubState, t: HubState, d: ClientId, x: seq<Packet>, y: seq<Packet>,
                                     n: string)
    requires Sent(s, u, d, x, n)
    requires if d in u.clients && y != [] then Sent(u, t, d, y, n) else Untouched(u, t, d)
    ensures Sent(s, t, d, x + y, n)
  {
    assert s.PeerOf(d).queue + x + y == s.PeerOf(d).queue + (x + y);
  }

  lemma {:induction false} ComeUpTouches(u: HubState, plan: BatchPlan, d: ClientId)
    requires Running(u) && IsPlan(Battery.BatteryGroups(2), plan)
    ensures var t, owed := u.ComeUp(2, plan), BatterySchema(u, d, 2);
      if owed != [] then d in u.clients && Sent(u, t, d, owed, u.PeerOf(d).section) else Untouched(u, t, d)
  {
    FreshedGood(u);
    RebuildClients(Freshed(u), 2, plan, d);
    assert u.ComeUp(2, plan) == Freshed(u).RebuildBattery(2, plan);
  }

  /** A hub just connected, with fresh trackers. */
  function Freshed(u: HubState): HubState {
    u.(connected := true).ResetTrackers(u.sections.Keys)
  }

  lemma {:induction false} FreshedGood(u: HubState)
    requires Running(u)
    ensures var v := Freshed(u);
      Running(v) && v.clients == u.clients && v.peers == u.peers && v.sections.Keys == u.sections.Keys
  {
    ConnectedGood(u, true);
    ResetGood(u.(connected := true));
  }

  lemma {:induction false} UpClients(s: HubState, u: HubState, t: HubState, plan: BatchPlan, d: ClientId)
    requires ChannelOk(s, d) && u.sections.Keys == s.sections.Keys && Linked(u)
    requires if d in s.clients then Sent(s, u, d, [StateChanged(Link.Connected)], s.PeerOf(d).section)
             else Untouched(s, u, d)
    requires var owed := BatterySchema(u, d, 2);
      if owed != [] then d in u.clients && Sent(u, t, d, owed, u.PeerOf(d).section) else Untouched(u, t, d)
    ensures ClientStep(s, LinkChanged(Link.Connected, plan), t, d)
  {
    if d in u.clients {
      SentTwice(s, u, t, d, [StateChanged(Link.Connected)], BatterySchema(s, d, 2), s.PeerOf(d).section);
    }
  }

  lemma {:induction false} LinkClients(s: HubState, state: Link.ConnState, plan: BatchPlan, d: ClientId)
    requires Running(s) && Admissible(s, LinkChanged(state, plan))
    ensures ClientStep(s, LinkChanged(state, plan), s.HandleStateEvent(state, plan), d)
  {
    assert ChannelOk(s, d);
    var u := s.Deliver(s.clients, StateChanged(state));
    DeliverTouches(s, s.clients, StateChanged(state), d);
    if state.Connected? {
      DeliveredGood(s);
      ReconnectClients(s, u, plan, d);
    } else {
      DownClients(s, u, state, plan, d);
    }
  }

  lemma {:induction false} DeliveredGood(s: HubState)
    requires Running(s)
    ensures var u := s.Deliver(s.clients, StateChanged(Link.Connected));
      Running(u) && u.sections.Keys == s.sections.Keys
  {
    DeliverGood(s, s.clients, StateChanged(Link.Connected));
  }

  lemma {:induction false} ReconnectClients(s: HubState, u: HubState, plan: BatchPlan, d: ClientId)
    requires ChannelOk(s, d) && Running(u) && u.sections.Keys == s.sections.Keys
    requires IsPlan(Battery.BatteryGroups(2), plan)
    requires if d in s.clients then Sent(s, u, d, [StateChanged(Link.Connected)], s.PeerOf(d).section)
             else Untouched(s, u, d)
    ensures ClientStep(s, LinkChanged(Link.Connected, plan), u.ComeUp(2, plan), d)
  {
    ComeUpTouches(u, plan, d);
    UpClients(s, u, u.ComeUp(2, plan), plan, d);
  }

  lemma {:induction false} DownClients(s: HubState, u: HubState, state: Link.ConnState, plan: BatchPlan, d: ClientId)
    requires ChannelOk(s, d) && !state.Connected? && u == s.Deliver(s.clients, StateChanged(state))
    requires if d in s.clients then Sent(s, u, d, [StateChanged(state)], s.PeerOf(d).section) else Untouched(s, u, d)
    ensures ClientStep(s, LinkChanged(state, plan), s.HandleStateEvent(state, plan), d)
  {
    var t := s.HandleStateEvent(state, plan);
    assert t.clients == u.clients && t.peers == u.peers;
  }

  /** Events that concern no client. */
  predicate ConcernsNone(e: HubEvent) {
    e.RefreshAsked? || e.CycleAsked? || e.PackSelected? || e.PvConfigured? || e.DisconnectAsked?
  }

  lemma {:induction false} NoneConcerned(s: HubState, e: HubEvent)
    requires ConcernsNone(e)
    ensures Handle(s, e).clients == s.clients && Handle(s, e).peers == s.peers
  {
    match e
    case RefreshAsked(n) => RefreshConcerns(s, n);
    case CycleAsked(n) => CycleConcerns(s, n);
    case PackSelected(tower, pack) => SelectConcerns(s, tower, pack);
    case PvConfigured(channels, plan) => PvConcerns(s, channels, plan);
    case DisconnectAsked =>
  }

  lemma {:induction false} RefreshConcerns(s: HubState, n: string)
    ensures var t := s.Refresh(n);
      t.clients == s.clients && t.peers == s.peers && t.selectedPack == s.selectedPack
  {
    if n in s.sections {
      var u := if s.sections[n].readOnce then s.(sections := s.sections[n := s.sections[n].(hasReadOnce := false)])
               else s;
      StartQuiet(u, n, None);
    }
  }

  lemma {:induction false} CycleConcerns(s: HubState, n: string)
    ensures var t := s.HandleReadCycle(n);
      t.clients == s.clients && t.peers == s.peers && t.selectedPack == s.selectedPack
  {
    if n in s.sections {
      StartQuiet(s, n, if n == "bms" then s.selectedPack else None);
    }
  }

  lemma {:induction false} SelectConcerns(s: HubState, tower: int, pack: int)
    ensures var t := s.HandleSelectPack(tower, pack);
      t.clients == s.clients && t.peers == s.peers && t.selectedPack == Some(Pack(Near(tower, 1, 2), Near(pack, 1, 10)))
  {
    var chosen := Some(Pack(Near(tower, 1, 2), Near(pack, 1, 10)));
    if "bms" in s.sections {
      StartQuiet(s.(selectedPack := chosen), "bms", chosen);
    }
  }

  lemma {:induction false} PvConcerns(s: HubState, channels: int, plan: BatchPlan)
    ensures var t := s.ConfigurePv(channels, plan);
      t.clients == s.clients && t.peers == s.peers && t.selectedPack == s.selectedPack
  {
    if "pv" in s.sections {
      StartQuiet(s.Rebuild("pv", PvGroupsFor(channels), plan), "pv", None);
    }
  }

  /** Every event means for every client what the table says. */
  lemma {:induction false} ClientExactly(s: HubState, e: HubEvent, d: ClientId)
    requires Running(s) && Admissible(s, e) && !Outside(e) && !e.HubCancelled?
    ensures ClientStep(s, e, Handle(s, e), d)
  {
    if ConcernsNone(e) {
      NoneConcerned(s, e);
      assert ChannelOk(s, d);
      QuietClients(s, e, Handle(s, e), d);
    } else {
      SomeConcerned(s, e, d);
    }
  }

  lemma {:induction false} SomeConcerned(s: HubState, e: HubEvent, d: ClientId)
    requires Running(s) && Admissible(s, e) && !Outside(e) && !e.HubCancelled? && !ConcernsNone(e)
    ensures ClientStep(s, e, Handle(s, e), d)
  {
    match e
    case Registered(c, state) => RegisterClients(s, c, state, d);
    case Unregistered(c) => UnregisterClients(s, c, d);
    case Subscribe(c, n) => SubscribeClients(s, c, n, d);
    case Unsubscribe(c, n) => UnsubscribeClients(s, c, n, d);
    case LinkChanged(state, plan) => LinkClients(s, state, plan, d);
    case ResultRead(n, m) => ResultClients(s, n, m, d);
    case BatteryDetected(count, plan) => DetectedClients(s, count, plan, d);
  }

  // ---- the selected pack ----

  /** Somebody turns to the battery packs' overview, or away from it. */
  ghost predicate Abandons(s: HubState, e: HubEvent, t: HubState) {
    || (e.Subscribe? && e.n == "bms" && "bms" in s.sections)
    || (e.Unsubscribe? && e.n == "bms" && "bms" in s.sections)
    || exists c :: LeavesBms(s, t, c)
  }

  predicate LeavesBms(s: HubState, t: HubState, c: ClientId) {
    s.PeerOf(c).section == "bms" && t.PeerOf(c).section != "bms"
  }

  /** The pack that is selected afterwards: the one asked for, brought into range; none once
      somebody has turned to the overview or away from it; the same otherwise. */
  ghost predicate SelectionStep(s: HubState, e: HubEvent, t: HubState) {
    t.selectedPack ==
    if e.PackSelected? then Some(Pack(Near(e.tower, 1, 2), Near(e.pack, 1, 10)))
    else if Abandons(s, e, t) then None
    else s.selectedPack
  }

  lemma {:induction false} UnsubscribeSelection(s: HubState, c: ClientId, n: string)
    requires Linked(s)
    ensures var t := s.UnsubscribeClient(c, n);
      t.selectedPack == if n == "bms" && "bms" in s.sections then None else s.selectedPack
  {
  }

  lemma {:induction false} RemoveSelection(s: HubState, c: ClientId)
    requires Linked(s)
    ensures s.RemoveClient(c).selectedPack ==
            if c in s.clients && s.PeerOf(c).section == "bms" then None else s.selectedPack
  {
    assert s.PeerOf(c).section != "" ==> s.PeerOf(c).section in s.sections;
  }

  lemma {:induction false} SendSelection(s: HubState, c: ClientId, m: Packet)
    requires Linked(s) && !s.PeerOf(c).closed && c in s.clients
    ensures s.SendToClient(c, m).selectedPack ==
            if s.PeerOf(c).Full() && s.PeerOf(c).section == "bms" then None else s.selectedPack
  {
    RemoveSelection(s, c);
  }

  lemma {:induction false} DeliverSelection(s: HubState, cs: set<ClientId>, m: Packet)
    requires Running(s) && cs <= s.clients
    ensures var t := s.Deliver(cs, m);
      t.selectedPack == if exists c :: LeavesBms(s, t, c) then None else s.selectedPack
  {
    var t, slow := s.Deliver(cs, m), s.Slow(cs);
    forall c
      ensures LeavesBms(s, t, c) <==> c in slow && s.PeerOf(c).section == "bms"
    {
      DeliverTouches(s, cs, m, c);
      assert ChannelOk(s, c);
    }
    if "bms" in s.sections {
      forall c
        ensures c in s.sections["bms"].subscribers * slow <==> c in slow && s.PeerOf(c).section == "bms"
      {
        assert c in s.sections["bms"].subscribers <==> s.PeerOf(c).section == "bms";
      }
    } else {
      assert forall c :: s.PeerOf(c).section != "bms";
    }
  }

  /** Only this client may have left. */
  lemma {:induction false} OnlyLeaves(s: HubState, e: HubEvent, t: HubState, c: ClientId)
    requires forall d :: ClientStep(s, e, t, d)
    requires (e.Registered? || e.Unregistered? || e.Subscribe? || e.Unsubscribe?) && e.c == c && Running(s)
    ensures (exists d :: LeavesBms(s, t, d)) <==> LeavesBms(s, t, c)
  {
    forall d | d != c
      ensures !LeavesBms(s, t, d)
    {
      assert ClientStep(s, e, t, d) && ChannelOk(s, d);
      assert s.PeerOf(d).section != "" ==> d in s.clients;
    }
  }

  lemma {:induction false} AllClients(s: HubState, e: HubEvent)
    requires Running(s) && Admissible(s, e) && !Outside(e) && !e.HubCancelled?
    ensures forall d :: ClientStep(s, e, Handle(s, e), d)
  {
    forall d
      ensures ClientStep(s, e, Handle(s, e), d)
    {
      ClientExactly(s, e, d);
    }
  }

  lemma {:induction false} RegisterSelection(s: HubState, c: ClientId, state: Link.ConnState)
    requires Running(s) && Admissible(s, Registered(c, state))
    ensures SelectionStep(s, Registered(c, state), s.Register(c, state))
  {
    var e, t, u := Registered(c, state), s.Register(c, state), s.(clients := s.clients + {c});
    AllClients(s, e);
    assert Handle(s, e) == t;
    OnlyLeaves(s, e, t, c);
    AdmitLinked(s, c);
    SendSelection(u, c, StateChanged(state));
    assert ClientStep(s, e, t, c) && u.PeerOf(c) == s.PeerOf(c);
  }

  lemma {:induction false} UnregisterSelection(s: HubState, c: ClientId)
    requires Running(s)
    ensures SelectionStep(s, Unregistered(c), s.RemoveClient(c))
  {
    var e, t := Unregistered(c), s.RemoveClient(c);
    AllClients(s, e);
    assert Handle(s, e) == t;
    OnlyLeaves(s, e, t, c);
    RemoveSelection(s, c);
    assert ClientStep(s, e, t, c);
    assert s.PeerOf(c).section != "" ==> c in s.clients;
  }

  lemma {:induction false} JoinSelection(s: HubState, c: ClientId, n: string)
    requires Linked(s) && n in s.sections && c in s.clients && !s.PeerOf(c).closed
    requires s.PeerOf(c).section == "" || s.PeerOf(c).section == n
    ensures s.Join(c, n).selectedPack == if n == "bms" then None else s.selectedPack
  {
    var u, schema := Seated(s, c, n), Schema(n, s.sections[n].groups);
    SeatedLinked(s, c, n);
    SeatedTouches(s, c, n, c);
    if s.PeerOf(c).Full() {
      RemoveSelection(u, c);
    } else {
      var v := u.SendToClient(c, schema);
      SendSelection(u, c, schema);
      SendTouches(u, c, schema, c);
      EnqueueLinked(u, c, schema);
      SendSelection(v, c, Problem(n, NOT_CONNECTED));
      StartQuiet(v, n, None);
    }
  }

  lemma {:induction false} MovingSelection(s: HubState, c: ClientId, n: string)
    requires Linked(s)
    ensures Moving(s, c, n).selectedPack ==
            if s.PeerOf(c).section == "bms" && n != "bms" then None else s.selectedPack
  {
    var before := s.PeerOf(c).section;
    if before != "" && before != n {
      CancelQuiet(s, before);
      LinkedFrame(s, s.CancelRead(before));
      UnsubscribeSelection(s.CancelRead(before), c, before);
      assert before in s.sections;
    }
  }

  lemma {:induction false} SubscribeSelection(s: HubState, c: ClientId, n: string)
    requires Running(s) && c in s.clients
    ensures s.SubscribeClient(c, n).selectedPack ==
            if (n == "bms" && "bms" in s.sections) || (s.PeerOf(c).section == "bms" && n != "bms") then None
            else s.selectedPack
  {
    var u := Moving(s, c, n);
    assert ChannelOk(s, c);
    MovingTouches(s, c, n, c);
    MovingSelection(s, c, n);
    if n in s.sections {
      JoinSelection(u, c, n);
    } else {
      SendSelection(u, c, Problem(n, UNKNOWN_SECTION));
    }
  }

  lemma {:induction false} SubscribeSelects(s: HubState, c: ClientId, n: string)
    requires Running(s) && c in s.clients
    ensures SelectionStep(s, Subscribe(c, n), s.SubscribeClient(c, n))
  {
    var e, t := Subscribe(c, n), s.SubscribeClient(c, n);
    AllClients(s, e);
    assert Handle(s, e) == t;
    OnlyLeaves(s, e, t, c);
    SubscribeSelection(s, c, n);
    assert ClientStep(s, e, t, c);
    assert s.PeerOf(c).section == "bms" ==> "bms" in s.sections;
  }

  lemma {:induction false} UnsubscribeSelects(s: HubState, c: ClientId, n: string)
    requires Running(s)
    ensures SelectionStep(s, Unsubscribe(c, n), s.UnsubscribeClient(c, n))
  {
    var e, t := Unsubscribe(c, n), s.UnsubscribeClient(c, n);
    AllClients(s, e);
    assert Handle(s, e) == t;
    OnlyLeaves(s, e, t, c);
    UnsubscribeSelection(s, c, n);
    assert ClientStep(s, e, t, c);
    UnsubscribeTouches(s, c, n, c);
  }

  lemma {:induction false} BroadcastSelection(s: HubState, n: string, m: Packet)
    requires Running(s)
    ensures var t := s.BroadcastToSection(n, m);
      t.selectedPack == if exists c :: LeavesBms(s, t, c) then None else s.selectedPack
    ensures n != "bms" ==> forall c :: !LeavesBms(s, s.BroadcastToSection(n, m), c)
  {
    if n in s.sections {
      SubscribersRegistered(s, n);
      DeliverSelection(s, s.sections[n].subscribers, m);
    }
    forall c | n != "bms"
      ensures !LeavesBms(s, s.BroadcastToSection(n, m), c)
    {
      BroadcastTouches(s, n, m, c);
    }
  }

  /** The selection after broadcasts from u on. */
  lemma {:induction false} SelectionFrom(s: HubState, e: HubEvent, u: HubState, t: HubState)
    requires e.ResultRead? || e.LinkChanged? || e.BatteryDetected?
    requires u.peers == s.peers && u.selectedPack == s.selectedPack
    requires t.selectedPack == if exists c :: LeavesBms(u, t, c) then None else u.selectedPack
    ensures SelectionStep(s, e, t)
  {
    assert forall c :: u.PeerOf(c) == s.PeerOf(c);
    assert forall c :: LeavesBms(s, t, c) <==> LeavesBms(u, t, c);
  }

  lemma {:induction false} ResultSelection(s: HubState, n: string, m: Packet)
    requires Running(s)
    ensures SelectionStep(s, ResultRead(n, m), s.HandleResult(n, m))
  {
    MarkedGood(s, n, m);
    BroadcastSelection(Marked(s, n, m), n, m);
    SelectionFrom(s, ResultRead(n, m), Marked(s, n, m), s.HandleResult(n, m));
  }

  /** The same clients are with the packs, and the same pack is selected. */
  ghost predicate SamePacks(s: HubState, t: HubState) {
    t.selectedPack == s.selectedPack && forall c :: t.PeerOf(c).section == "bms" <==> s.PeerOf(c).section == "bms"
  }

  /** Rebuilding the battery section leaves the packs' clients alone. */
  lemma {:induction false} RebuildSelection(s: HubState, count: nat, plan: BatchPlan)
    requires Running(s) && count <= Battery.MAX_CHANNELS && IsPlan(Battery.BatteryGroups(count), plan)
    ensures SamePacks(s, s.RebuildBattery(count, plan))
  {
    var t := s.RebuildBattery(count, plan);
    forall c
      ensures t.PeerOf(c).section == "bms" <==> s.PeerOf(c).section == "bms"
    {
      RebuildClients(s, count, plan, c);
    }
    RebuiltSelection(s, count, plan);
  }

  lemma {:induction false} RebuiltSelection(s: HubState, count: nat, plan: BatchPlan)
    requires Running(s) && count <= Battery.MAX_CHANNELS && IsPlan(Battery.BatteryGroups(count), plan)
    ensures s.RebuildBattery(count, plan).selectedPack == s.selectedPack
  {
    if "battery" in s.sections {
      var groups := Battery.BatteryGroups(count);
      RebuiltGood(s, count, plan);
      BroadcastSelection(s.Rebuild("battery", groups, plan), "battery", Schema("battery", groups));
    }
  }

  lemma {:induction false} PacksThrough(s: HubState, e: HubEvent, u: HubState, t: HubState)
    requires e.LinkChanged? || e.BatteryDetected?
    requires SamePacks(u, t) && u.selectedPack == if exists c :: LeavesBms(s, u, c) then None else s.selectedPack
    ensures SelectionStep(s, e, t)
  {
    assert forall c :: LeavesBms(s, t, c) <==> LeavesBms(s, u, c);
  }

  lemma {:induction false} NobodyLeaves(s: HubState)
    ensures !exists c :: LeavesBms(s, s, c)
  {
  }

  lemma {:induction false} DetectedSelection(s: HubState, count: nat, plan: BatchPlan)
    requires Running(s) && Admissible(s, BatteryDetected(count, plan))
    ensures SelectionStep(s, BatteryDetected(count, plan), s.ChannelsDetected(count, plan))
  {
    var u := s.RebuildBattery(count, plan);
    RebuildSelection(s, count, plan);
    TriggerQuiet(u, "battery");
    SamePeers(u, u.TriggerSectionRead("battery"));
    NobodyLeaves(s);
    PacksThrough(s, BatteryDetected(count, plan), s, u.TriggerSectionRead("battery"));
  }

  lemma {:induction false} LinkSelection(s: HubState, state: Link.ConnState, plan: BatchPlan)
    requires Running(s) && Admissible(s, LinkChanged(state, plan))
    ensures SelectionStep(s, LinkChanged(state, plan), s.HandleStateEvent(state, plan))
  {
    DeliverSelection(s, s.clients, StateChanged(state));
    DeliverGood(s, s.clients, StateChanged(state));
    TurnPacks(s, s.Deliver(s.clients, StateChanged(state)), state, plan);
    PacksThrough(s, LinkChanged(state, plan), s.Deliver(s.clients, StateChanged(state)),
                 s.HandleStateEvent(state, plan));
  }

  lemma {:induction false} TurnPacks(s: HubState, u: HubState, state: Link.ConnState, plan: BatchPlan)
    requires Running(u) && IsPlan(Battery.BatteryGroups(2), plan) && u == s.Deliver(s.clients, StateChanged(state))
    ensures SamePacks(u, s.HandleStateEvent(state, plan))
  {
    if state.Connected? {
      UpPacks(u, plan);
    } else {
      DownPacks(u);
    }
  }

  lemma {:induction false} UpPacks(u: HubState, plan: BatchPlan)
    requires Running(u) && IsPlan(Battery.BatteryGroups(2), plan)
    ensures SamePacks(u, u.ComeUp(2, plan))
  {
    FreshedGood(u);
    RebuildSelection(Freshed(u), 2, plan);
    SamePeers(u, Freshed(u));
  }

  lemma {:induction false} SamePeers(u: HubState, v: HubState)
    requires v.peers == u.peers
    ensures forall c :: v.PeerOf(c) == u.PeerOf(c)
  {
  }

  lemma {:induction false} DownPacks(u: HubState)
    ensures SamePacks(u, u) && SamePacks(u, u.(connected := false).CancelReads(u.sections.Keys))
  {
    SamePeers(u, u.(connected := false).CancelReads(u.sections.Keys));
  }

  /** The selected pack after every event is the one said above. */
  lemma {:induction false} SelectionExactly(s: HubState, e: HubEvent)
    requires Running(s) && Admissible(s, e) && !Outside(e) && !e.HubCancelled?
    ensures SelectionStep(s, e, Handle(s, e))
  {
    match e
    case Registered(c, state) => RegisterSelection(s, c, state);
    case Unregistered(c) => UnregisterSelection(s, c);
    case Subscribe(c, n) => SubscribeSelects(s, c, n);
    case Unsubscribe(c, n) => UnsubscribeSelects(s, c, n);
    case LinkChanged(state, plan) => LinkSelection(s, state, plan);
    case ResultRead(n, m) => ResultSelection(s, n, m);
    case BatteryDetected(count, plan) => DetectedSelection(s, count, plan);
    case PackSelected(tower, pack) => SelectConcerns(s, tower, pack);
    case _ => QuietSelection(s, e);
  }

  lemma {:induction false} QuietSelection(s: HubState, e: HubEvent)
    requires e.RefreshAsked? || e.CycleAsked? || e.PvConfigured? || e.DisconnectAsked?
    ensures SelectionStep(s, e, Handle(s, e))
  {
    NoneConcerned(s, e);
    KeepsSelection(s, e);
  }

  lemma {:induction false} KeepsSelection(s: HubState, e: HubEvent)
    requires e.RefreshAsked? || e.CycleAsked? || e.PvConfigured? || e.DisconnectAsked?
    ensures Handle(s, e).selectedPack == s.selectedPack
  {
    match e
    case RefreshAsked(n) => RefreshConcerns(s, n);
    case CycleAsked(n) => CycleConcerns(s, n);
    case PvConfigured(channels, plan) => PvConcerns(s, channels, plan);
    case DisconnectAsked =>
  }

  // ---- taking messages out ----

  /** A client's writer takes its oldest message; nobody else's queue changes. */
  lemma {:induction false} DrainsOldest(s: HubState, c: ClientId, d: ClientId)
    ensures var t := Advance(s, Drained(c));
      && t.clients == s.clients && (d != c || s.PeerOf(c).queue == [] ==> t.PeerOf(d) == s.PeerOf(d))
      && (s.PeerOf(c).queue != [] ==>
            && s.PeerOf(c).queue == [s.PeerOf(c).queue[0]] + t.PeerOf(c).queue
            && t.PeerOf(c) == s.PeerOf(c).(queue := t.PeerOf(c).queue))
  {
  }
}
