/** The hub's event loop as a state machine: clients with bounded send queues,
    sections with subscribers and a read context, cached plans and trackers. Every
    step is one event handled by the loop, one read cycle, or one message taken out
    of a queue. */
module HubModel {
  import opened Registers
  import opened BatchPlanner
  import opened SpanTrackers
  import opened ReadCycles
  import Link = BrokerModel
  import Battery
  import Pv

  type ClientId = nat

  /** The capacity of a client's send channel. */
  const SEND_BUFFER := 256

  /** The battery channels assumed until they are detected. */
  const RESET_CHANNELS := 2

  datatype Packet =
    | StateChanged(state: Link.ConnState)
    | Problem(of: string, text: string)
    | Schema(of: string, groups: seq<ProbeGroup>)
    | Reading(of: string, m: Message)
    | Complete(of: string)

  const UNKNOWN_SECTION := "unknown section"
  const NOT_CONNECTED := "not connected to inverter"

  /** What the hub knows of a client: its send channel and the section it reads. */
  datatype Peer = Peer(queue: seq<Packet>, section: string, closed: bool) {
    predicate Full() {
      |queue| >= SEND_BUFFER
    }
  }

  const FRESH_PEER := Peer([], "", false)

  datatype Section = Section(
    groups: seq<ProbeGroup>,
    probes: seq<Probe>,
    plan: BatchPlan,
    tracker: Tracker,
    readOnce: bool,
    hasReadOnce: bool,
    subscribers: set<ClientId>,
    readCancel: Option<nat>,
    reading: bool)

  datatype Pack = Pack(tower: int, pack: int)

  /** A read that was started: for which section, and for which pack if any. */
  datatype Job = Job(section: string, pack: Option<Pack>)

  /** `jobs` lists every read context ever made; `live` holds the indices of those
      not cancelled. `panicked` is set by a send on, or a close of, a closed channel. */
  datatype HubState = HubState(
    clients: set<ClientId>,
    peers: map<ClientId, Peer>,
    sections: map<string, Section>,
    jobs: seq<Job>,
    live: set<nat>,
    connected: bool,
    selectedPack: Option<Pack>,
    panicked: bool,
    stopped: bool)
  {
    function PeerOf(c: ClientId): Peer {
      if c in peers then peers[c] else FRESH_PEER
    }

    // ---- reads ----

    function CancelRead(n: string): HubState {
      if n in sections && sections[n].readCancel.Some? then
        this.(live := live - {sections[n].readCancel.value},
              sections := sections[n := sections[n].(readCancel := None)])
      else this
    }

    function Held(names: set<string>): set<nat> {
      set n | n in names && n in sections && sections[n].readCancel.Some? :: sections[n].readCancel.value
    }

    /** Cancels the reads of several sections, in whatever order. */
    function CancelReads(names: set<string>): HubState {
      this.(live := live - Held(names),
            sections := map n | n in sections :: if n in names then sections[n].(readCancel := None) else sections[n])
    }

    function StartRead(n: string, pack: Option<Pack>): HubState
      requires n in sections
    {
      var s := CancelRead(n);
      s.(jobs := jobs + [Job(n, pack)],
         live := s.live + {|jobs|},
         sections := s.sections[n := s.sections[n].(readCancel := Some(|jobs|), reading := true)])
    }

    function TriggerSectionRead(n: string): HubState {
      if n in sections then StartRead(n, None) else this
    }

    // ---- clients ----

    /** A client leaves a section; the last one to leave cancels its read. */
    function LeaveOne(c: ClientId, n: string): HubState
      requires n in sections
    {
      var sec, left := sections[n], sections[n].subscribers - {c};
      this.(sections := sections[n := sec.(subscribers := left,
                                           readCancel := if left == {} then None else sec.readCancel)],
            live := if left == {} && sec.readCancel.Some? then live - {sec.readCancel.value} else live,
            selectedPack := if n == "bms" then None else selectedPack)
    }

    function UnsubscribeClient(c: ClientId, n: string): HubState {
      if n !in sections then this
      else
        LeaveOne(c, n).(peers := if PeerOf(c).section == n then peers[c := PeerOf(c).(section := "")] else peers)
    }

    function RemoveClient(c: ClientId): HubState {
      if c !in clients then this
      else
        var s := if PeerOf(c).section != "" then UnsubscribeClient(c, PeerOf(c).section) else this;
        s.(clients := clients - {c},
           peers := s.peers[c := s.PeerOf(c).(closed := true)],
           panicked := s.panicked || s.PeerOf(c).closed)
    }

    /** A send that does not block: a client whose queue is full is removed. */
    function SendToClient(c: ClientId, m: Packet): HubState {
      if PeerOf(c).closed then this.(panicked := true)
      else if PeerOf(c).Full() then RemoveClient(c)
      else this.(peers := peers[c := PeerOf(c).(queue := PeerOf(c).queue + [m])])
    }

    // ---- broadcasts ----

    function Receive(c: ClientId, m: Packet): Peer {
      var p := PeerOf(c);
      if p.closed then p
      else if p.Full() then p.(section := "", closed := true)
      else p.(queue := p.queue + [m])
    }

    function Received(cs: set<ClientId>, m: Packet): map<ClientId, Peer> {
      peers + map c | c in cs :: Receive(c, m)
    }

    function Slow(cs: set<ClientId>): set<ClientId> {
      set c | c in cs && !PeerOf(c).closed && PeerOf(c).Full()
    }

    predicate AnyClosed(cs: set<ClientId>) {
      exists c :: c in cs && PeerOf(c).closed
    }

    /** The sections that lose all their subscribers when the clients `gone` leave. */
    function Emptied(gone: set<ClientId>): set<string> {
      set n | n in sections && sections[n].subscribers * gone != {} && sections[n].subscribers <= gone
    }

    function SectionAfter(n: string, gone: set<ClientId>): Section
      requires n in sections
    {
      sections[n].(subscribers := sections[n].subscribers - gone,
                   readCancel := if n in Emptied(gone) then None else sections[n].readCancel)
    }

    /** The hub after the clients `gone` have left their sections, in whatever order. */
    function Leave(gone: set<ClientId>): HubState {
      this.(
        clients := clients - gone,
        live := live - Held(Emptied(gone)),
        sections := map n | n in sections :: SectionAfter(n, gone),
        selectedPack := if "bms" in sections && sections["bms"].subscribers * gone != {} then None else selectedPack)
    }

    /** The result of sending m to each of the clients cs, in whatever order: those
        with room get it once, the others are removed. */
    function Deliver(cs: set<ClientId>, m: Packet): HubState {
      Leave(Slow(cs)).(
        peers := Received(cs, m),
        panicked := panicked || AnyClosed(cs))
    }

    function BroadcastToSection(n: string, m: Packet): HubState {
      if n in sections then Deliver(sections[n].subscribers, m) else this
    }

    // ---- commands and events ----

    function Register(c: ClientId, state: Link.ConnState): HubState {
      this.(clients := clients + {c}).SendToClient(c, StateChanged(state))
    }

    function SubscribeClient(c: ClientId, n: string): HubState {
      var s := if PeerOf(c).section != "" && PeerOf(c).section != n
               then CancelRead(PeerOf(c).section).UnsubscribeClient(c, PeerOf(c).section) else this;
      if n !in sections then s.SendToClient(c, Problem(n, UNKNOWN_SECTION))
      else s.Join(c, n)
    }

    /** The rest of a subscription, once the client has left its previous section. */
    function Join(c: ClientId, n: string): HubState
      requires n in sections
    {
      var s := this.(
        sections := sections[n := sections[n].(subscribers := sections[n].subscribers + {c})],
        peers := peers[c := PeerOf(c).(section := n)],
        selectedPack := if n == "bms" then None else selectedPack);
      if PeerOf(c).closed then s.(panicked := true)
      else if PeerOf(c).Full() then s.RemoveClient(c)
      else
        var s1 := s.SendToClient(c, Schema(n, sections[n].groups));
        if connected then s1.TriggerSectionRead(n) else s1.SendToClient(c, Problem(n, NOT_CONNECTED))
    }

    function Refresh(n: string): HubState {
      var s := if n in sections && sections[n].readOnce then
                 this.(sections := sections[n := sections[n].(hasReadOnce := false)]) else this;
      s.TriggerSectionRead(n)
    }

    function HandleReadCycle(n: string): HubState {
      if !connected || n !in sections || sections[n].subscribers == {} || sections[n].reading
         || (sections[n].readOnce && sections[n].hasReadOnce)
      then this
      else StartRead(n, if n == "bms" then selectedPack else None)
    }

    function HandleSelectPack(tower: int, pack: int): HubState {
      var chosen := Pack(Battery.Clamp(tower, 1, Battery.TOWERS), Battery.Clamp(pack, 1, Battery.PACKS_PER_TOWER));
      var s := this.(selectedPack := Some(chosen));
      if "bms" in sections then s.StartRead("bms", Some(chosen)) else s
    }

    /** Gives a section new groups with their plan, and every span a fresh start. */
    function Rebuild(n: string, groups: seq<ProbeGroup>, plan: BatchPlan): HubState
      requires n in sections
    {
      this.(sections := sections[n := sections[n].(groups := groups, probes := FlattenProbes(groups), plan := plan,
                                                   tracker := sections[n].tracker.Reset())])
    }

    function ConfigurePv(channels: int, plan: BatchPlan): HubState {
      if "pv" !in sections then this
      else
        var s := Rebuild("pv", PvGroupsFor(channels), plan);
        if connected && sections["pv"].subscribers != {} then s.TriggerSectionRead("pv") else s
    }

    function RebuildBattery(channels: nat, plan: BatchPlan): HubState {
      if "battery" !in sections then this
      else
        var groups := Battery.BatteryGroups(channels);
        Rebuild("battery", groups, plan).BroadcastToSection("battery", Schema("battery", groups))
    }

    /** Auto-detection found another channel count. */
    function ChannelsDetected(channels: nat, plan: BatchPlan): HubState {
      RebuildBattery(channels, plan).TriggerSectionRead("battery")
    }

    function ResetTracker(n: string): HubState
      requires n in sections
    {
      this.(sections := sections[n := sections[n].(tracker := sections[n].tracker.Reset())])
    }

    function ResetTrackers(names: set<string>): HubState {
      this.(sections := map n | n in sections ::
              if n in names then sections[n].(tracker := sections[n].tracker.Reset()) else sections[n])
    }

    /** After a reconnect every tracker starts afresh and the battery section falls back
        to the default channel count. */
    function ComeUp(channels: nat, plan: BatchPlan): HubState {
      this.(connected := true).ResetTrackers(sections.Keys).RebuildBattery(channels, plan)
    }

    function HandleStateEvent(state: Link.ConnState, plan: BatchPlan): HubState {
      var s := Deliver(clients, StateChanged(state));
      match state
      case Connected => s.ComeUp(RESET_CHANNELS, plan)
      case Disconnected => s.(connected := false).CancelReads(s.sections.Keys)
      case Reconnecting => s.(connected := false).CancelReads(s.sections.Keys)
      case _ => s
    }

    function HandleResult(n: string, m: Packet): HubState {
      var s := if m.Complete? && n in sections && sections[n].readOnce && !sections[n].hasReadOnce then
                 this.(sections := sections[n := sections[n].(hasReadOnce := true)]) else this;
      s.BroadcastToSection(n, m)
    }

    /** Closes the send channels of these clients, in whatever order. */
    function CloseClients(cs: set<ClientId>): HubState {
      this.(clients := clients - cs,
            peers := peers + map c | c in cs :: PeerOf(c).(closed := true),
            panicked := panicked || AnyClosed(cs))
    }

    function CloseClient(c: ClientId): HubState {
      this.(clients := clients - {c}, peers := peers[c := PeerOf(c).(closed := true)],
            panicked := panicked || PeerOf(c).closed)
    }

    /** The context of the hub is done, and with it every context derived from it. */
    function Shutdown(): HubState {
      CloseClients(clients).CancelReads(sections.Keys).(live := {}, stopped := true)
    }

    // ---- steps outside the loop ----

    /** A reading goroutine runs one read cycle of its section. */
    function RunCycle(k: nat, env: Env, now: nat): HubState {
      if k < |jobs| && jobs[k].pack.None? && jobs[k].section in sections then
        var sec := sections[jobs[k].section];
        var c := ReadCycle(env, sec.plan.spans, sec.probes, History(now, sec.tracker, [], []));
        this.(sections := sections[jobs[k].section := sec.(tracker := c.tracker)])
      else this
    }

    /** A reading goroutine ends and clears the section's flag, even if it was
        cancelled long ago and another one is reading. */
    function ReaderExit(n: string): HubState {
      if n in sections then this.(sections := sections[n := sections[n].(reading := false)]) else this
    }

    /** A client's writer takes the oldest message. */
    function Drain(c: ClientId): HubState {
      if PeerOf(c).queue == [] then this
      else this.(peers := peers[c := PeerOf(c).(queue := PeerOf(c).queue[1..])])
    }
  }

  function PvGroupsFor(channels: int): seq<ProbeGroup> {
    Pv.PvGroups(Battery.Clamp(channels, Pv.MIN_CHANNELS, Pv.MAX_CHANNELS))
  }

  datatype HubEvent =
    | Registered(c: ClientId, state: Link.ConnState)
    | Unregistered(c: ClientId)
    | Subscribe(c: ClientId, n: string)
    | Unsubscribe(c: ClientId, n: string)
    | RefreshAsked(n: string)
    | CycleAsked(n: string)
    | PackSelected(tower: int, pack: int)
    | PvConfigured(channels: int, plan: BatchPlan)
    | DisconnectAsked
    | LinkChanged(state: Link.ConnState, plan: BatchPlan)
    | ResultRead(n: string, m: Packet)
    | BatteryDetected(count: nat, plan: BatchPlan)
    | HubCancelled
    | CycleRun(k: nat, env: Env, now: nat)
    | ReaderDone(n: string)
    | Drained(c: ClientId)

  /** Events that are not handled by the loop and go on after it has ended. */
  predicate Outside(e: HubEvent) {
    e.CycleRun? || e.ReaderDone? || e.Drained?
  }

  function Advance(s: HubState, e: HubEvent): HubState {
    if Outside(e) then Elsewhere(s, e) else if s.stopped then s else Handle(s, e)
  }

  function Elsewhere(s: HubState, e: HubEvent): HubState {
    match e
    case CycleRun(k, env, now) => s.RunCycle(k, env, now)
    case ReaderDone(n) => s.ReaderExit(n)
    case Drained(c) => s.Drain(c)
    case _ => s
  }

  /** What the loop does with an event. */
  function Handle(s: HubState, e: HubEvent): HubState {
    match e
    case Registered(c, state) => s.Register(c, state)
    case Unregistered(c) => s.RemoveClient(c)
    case Subscribe(c, n) => s.SubscribeClient(c, n)
    case Unsubscribe(c, n) => s.UnsubscribeClient(c, n)
    case RefreshAsked(n) => s.Refresh(n)
    case CycleAsked(n) => s.HandleReadCycle(n)
    case PackSelected(tower, pack) => s.HandleSelectPack(tower, pack)
    case PvConfigured(channels, plan) => s.ConfigurePv(channels, plan)
    case DisconnectAsked => s.CancelReads(s.sections.Keys)
    case LinkChanged(state, plan) => s.HandleStateEvent(state, plan)
    case ResultRead(n, m) => s.HandleResult(n, m)
    case BatteryDetected(count, plan) => s.ChannelsDetected(count, plan)
    case HubCancelled => s.Shutdown()
    case _ => s
  }

  function NewSection(groups: seq<ProbeGroup>, plan: BatchPlan, readOnce: bool): Section {
    Section(groups, FlattenProbes(groups), plan, Tracker.New(DEFAULT_THRESHOLD), readOnce, false, {}, None, false)
  }

  function New(sections: map<string, Section>): HubState {
    HubState({}, map[], sections, [], {}, false, None, false, false)
  }

  // ---- subscriptions ----

  /** A client is among a section's subscribers exactly when that is its section, and
      only registered clients have one. */
  ghost predicate Linked(s: HubState) {
    && "" !in s.sections
    && (forall n, c :: n in s.sections ==> (c in s.sections[n].subscribers <==> s.PeerOf(c).section == n))
    && (forall c :: s.PeerOf(c).section != "" ==> c in s.clients && s.PeerOf(c).section in s.sections)
  }

  lemma {:induction false} SubscribersRegistered(s: HubState, n: string)
    requires Linked(s) && n in s.sections
    ensures s.sections[n].subscribers <= s.clients
  {
    forall c | c in s.sections[n].subscribers
      ensures c in s.clients
    {
      assert s.PeerOf(c).section == n;
    }
  }

  // ---- the loops over maps, one element at a time ----

  lemma {:induction false} CancelNone(s: HubState)
    ensures s.CancelReads({}) == s
  {
    var t := s.CancelReads({});
    assert t.sections == s.sections;
    assert t.live == s.live;
  }

  lemma {:induction false} CancelNext(s: HubState, done: set<string>, n: string)
    requires n in s.sections && n !in done
    ensures s.CancelReads(done).CancelRead(n) == s.CancelReads(done + {n})
  {
    var t, u := s.CancelReads(done).CancelRead(n), s.CancelReads(done + {n});
    assert s.CancelReads(done).sections[n] == s.sections[n];
    assert t.sections == u.sections;
    if s.sections[n].readCancel.Some? {
      assert s.Held(done + {n}) == s.Held(done) + {s.sections[n].readCancel.value};
    } else {
      assert s.Held(done + {n}) == s.Held(done);
    }
    assert t.live == u.live;
  }

  lemma {:induction false} ResetNone(s: HubState)
    ensures s.ResetTrackers({}) == s
  {
    assert s.ResetTrackers({}).sections == s.sections;
  }

  lemma {:induction false} ResetNext(s: HubState, done: set<string>, n: string)
    requires n in s.sections && n !in done
    ensures n in s.ResetTrackers(done).sections
    ensures s.ResetTrackers(done).ResetTracker(n) == s.ResetTrackers(done + {n})
  {
    assert s.ResetTrackers(done).ResetTracker(n).sections == s.ResetTrackers(done + {n}).sections;
  }

  lemma {:induction false} CloseNone(s: HubState)
    ensures s.CloseClients({}) == s
  {
    assert s.CloseClients({}).peers == s.peers;
  }

  lemma {:induction false} CloseNext(s: HubState, done: set<ClientId>, c: ClientId)
    requires c in s.clients && c !in done
    ensures s.CloseClients(done).CloseClient(c) == s.CloseClients(done + {c})
  {
    var t, u := s.CloseClients(done).CloseClient(c), s.CloseClients(done + {c});
    assert s.CloseClients(done).PeerOf(c) == s.PeerOf(c);
    assert t.clients == u.clients;
    assert t.peers == u.peers;
    assert s.AnyClosed(done + {c}) <==> s.AnyClosed(done) || s.PeerOf(c).closed;
  }

  /** Leaving and then cancelling the read, as the code does it. */
  lemma {:induction false} CancelWhenLeft(s: HubState, t: HubState, c: ClientId, n: string)
    requires n in s.sections
    requires t == s.(sections := s.sections[n := s.sections[n].(subscribers := s.sections[n].subscribers - {c})],
                     peers := t.peers, selectedPack := if n == "bms" then None else s.selectedPack)
    ensures (if t.sections[n].subscribers == {} then t.CancelRead(n) else t) == s.LeaveOne(c, n).(peers := t.peers)
  {
    var sec, left := s.sections[n], s.sections[n].subscribers - {c};
    UpdateTwice(s.sections, n, sec.(subscribers := left), sec.(subscribers := left, readCancel := None));
  }

  lemma {:induction false} UpdateTwice<K, V>(m: map<K, V>, k: K, x: V, y: V)
    ensures m[k := x][k := y] == m[k := y]
  {
  }

  lemma {:induction false} DeliverNone(s: HubState, m: Packet)
    ensures s.Deliver({}, m) == s
  {
    var t := s.Deliver({}, m);
    assert s.Slow({}) == {};
    assert s.Emptied({}) == {};
    assert s.Held({}) == {};
    forall n | n in s.sections
      ensures t.sections[n] == s.sections[n]
    {
      assert s.sections[n].subscribers - {} == s.sections[n].subscribers;
    }
    assert t.sections == s.sections;
    assert t.peers == s.peers;
  }

  lemma {:induction false} SlowNext(s: HubState, done: set<ClientId>, c: ClientId)
    requires c !in done
    ensures s.Slow(done + {c}) == s.Slow(done) + if !s.PeerOf(c).closed && s.PeerOf(c).Full() then {c} else {}
  {
  }

  lemma {:induction false} ReceivedNext(s: HubState, done: set<ClientId>, c: ClientId, m: Packet)
    requires c !in done
    ensures s.Received(done + {c}, m) == s.Received(done, m)[c := s.Receive(c, m)]
    ensures c in s.Received(done, m) <==> c in s.peers
    ensures c in s.peers ==> s.Received(done, m)[c] == s.peers[c]
  {
  }

  /** A client that leaves changes its own section only. */
  lemma {:induction false} LeaveElsewhere(s: HubState, gone: set<ClientId>, c: ClientId, n: string)
    requires Linked(s) && n in s.sections && s.PeerOf(c).section != n
    ensures s.SectionAfter(n, gone + {c}) == s.SectionAfter(n, gone)
    ensures n in s.Emptied(gone + {c}) <==> n in s.Emptied(gone)
    ensures s.sections[n].subscribers * (gone + {c}) == s.sections[n].subscribers * gone
  {
    var subs := s.sections[n].subscribers;
    assert c !in subs;
    assert subs - (gone + {c}) == subs - gone;
    assert subs * (gone + {c}) == subs * gone;
    assert subs <= gone + {c} <==> subs <= gone;
  }

  lemma {:induction false} LeaveHere(s: HubState, gone: set<ClientId>, c: ClientId, n: string)
    requires Linked(s) && n in s.sections && s.PeerOf(c).section == n && c !in gone
    ensures var left := s.SectionAfter(n, gone).subscribers - {c};
      && n !in s.Emptied(gone)
      && (n in s.Emptied(gone + {c}) <==> left == {})
      && s.SectionAfter(n, gone + {c}) ==
         s.sections[n].(subscribers := left, readCancel := if left == {} then None else s.sections[n].readCancel)
      && s.sections[n].subscribers * (gone + {c}) != {}
  {
    var subs := s.sections[n].subscribers;
    assert c in subs && c in subs * (gone + {c});
    assert subs - (gone + {c}) == subs - gone - {c};
    assert subs <= gone + {c} <==> subs - gone - {c} == {};
  }

  lemma {:induction false} LeaveNextSections(s: HubState, gone: set<ClientId>, c: ClientId, n: string)
    requires Linked(s) && c !in gone && s.PeerOf(c).section == n && n in s.sections
    ensures s.Leave(gone + {c}).sections == s.Leave(gone).LeaveOne(c, n).sections
  {
    LeaveHere(s, gone, c, n);
    var left := s.SectionAfter(n, gone).subscribers - {c};
    var now := s.SectionAfter(n, gone).(subscribers := left,
                                        readCancel := if left == {} then None else s.sections[n].readCancel);
    assert s.SectionAfter(n, gone + {c}) == now;
    SectionsAgree(s, gone, c, n, now);
  }

  lemma {:induction false} SectionsAgree(s: HubState, gone: set<ClientId>, c: ClientId, n: string, now: Section)
    requires Linked(s) && s.PeerOf(c).section == n && n in s.sections && s.SectionAfter(n, gone + {c}) == now
    ensures (map k | k in s.sections :: s.SectionAfter(k, gone + {c})) ==
            (map k | k in s.sections :: s.SectionAfter(k, gone))[n := now]
  {
    forall k | k in s.sections && k != n
      ensures s.SectionAfter(k, gone + {c}) == s.SectionAfter(k, gone)
    {
      LeaveElsewhere(s, gone, c, k);
    }
  }

  lemma {:induction false} EmptiedNext(s: HubState, gone: set<ClientId>, c: ClientId, n: string)
    requires Linked(s) && c !in gone && s.PeerOf(c).section == n && n in s.sections
    ensures s.Emptied(gone + {c}) ==
            s.Emptied(gone) + if s.SectionAfter(n, gone).subscribers - {c} == {} then {n} else {}
  {
    LeaveHere(s, gone, c, n);
    forall k | k in s.sections && k != n
      ensures k in s.Emptied(gone + {c}) <==> k in s.Emptied(gone)
    {
      LeaveElsewhere(s, gone, c, k);
    }
  }

  lemma {:induction false} LeaveNextLive(s: HubState, gone: set<ClientId>, c: ClientId, n: string)
    requires Linked(s) && c !in gone && s.PeerOf(c).section == n && n in s.sections
    ensures s.Leave(gone + {c}).live == s.Leave(gone).LeaveOne(c, n).live
  {
    EmptiedNext(s, gone, c, n);
    LeaveHere(s, gone, c, n);
    HeldUnion(s, s.Emptied(gone), n);
  }

  /** One more client leaves. */
  lemma {:induction false} LeaveNext(s: HubState, gone: set<ClientId>, c: ClientId, n: string)
    requires Linked(s) && c !in gone && s.PeerOf(c).section == n && n in s.sections
    ensures s.Leave(gone + {c}) == s.Leave(gone).LeaveOne(c, n).(clients := s.Leave(gone).clients - {c})
  {
    LeaveNextSections(s, gone, c, n);
    LeaveNextLive(s, gone, c, n);
    assert s.Leave(gone + {c}).clients == s.Leave(gone).clients - {c};
    if n == "bms" {
      LeaveHere(s, gone, c, "bms");
    } else if "bms" in s.sections {
      LeaveElsewhere(s, gone, c, "bms");
    }
  }

  lemma {:induction false} HeldUnion(s: HubState, names: set<string>, n: string)
    ensures s.Held(names + {n}) ==
            s.Held(names) +
            if n in s.sections && s.sections[n].readCancel.Some? then {s.sections[n].readCancel.value} else {}
  {
  }

  /** A client without a section leaves. */
  lemma {:induction false} LeaveUnseen(s: HubState, gone: set<ClientId>, c: ClientId)
    requires Linked(s) && s.PeerOf(c).section == ""
    ensures s.Leave(gone + {c}) == s.Leave(gone).(clients := s.Leave(gone).clients - {c})
  {
    var t, u := s.Leave(gone), s.Leave(gone + {c});
    forall k | k in s.sections
      ensures u.sections[k] == t.sections[k] && (k in s.Emptied(gone + {c}) <==> k in s.Emptied(gone))
    {
      LeaveElsewhere(s, gone, c, k);
    }
    assert u.sections == t.sections;
    assert s.Emptied(gone + {c}) == s.Emptied(gone);
    assert u.clients == t.clients - {c};
    if "bms" in s.sections {
      LeaveElsewhere(s, gone, c, "bms");
    }
  }

  lemma {:induction false} DeliverClosed(s: HubState, done: set<ClientId>, c: ClientId, m: Packet)
    requires c !in done && s.PeerOf(c).closed
    ensures s.Deliver(done, m).SendToClient(c, m) == s.Deliver(done + {c}, m)
  {
    SlowNext(s, done, c);
    ReceivedNext(s, done, c, m);
    assert s.Slow(done + {c}) == s.Slow(done);
    assert s.Received(done, m)[c := s.Receive(c, m)] == s.Received(done, m);
  }

  lemma {:induction false} DeliverRoom(s: HubState, done: set<ClientId>, c: ClientId, m: Packet)
    requires c !in done && !s.PeerOf(c).closed && !s.PeerOf(c).Full()
    ensures s.Deliver(done, m).SendToClient(c, m) == s.Deliver(done + {c}, m)
  {
    SlowNext(s, done, c);
    ReceivedNext(s, done, c, m);
    assert s.Slow(done + {c}) == s.Slow(done);
  }

  /** Removing a client, field by field. */
  lemma {:induction false} RemoveFields(t: HubState, c: ClientId)
    requires c in t.clients && !t.PeerOf(c).closed
    requires t.PeerOf(c).section != "" ==> t.PeerOf(c).section in t.sections
    ensures var n := t.PeerOf(c).section;
      var u := if n == "" then t else t.LeaveOne(c, n);
      t.RemoveClient(c) == u.(clients := t.clients - {c},
                              peers := t.peers[c := t.PeerOf(c).(section := "", closed := true)])
  {
    var n, p := t.PeerOf(c).section, t.PeerOf(c);
    if n != "" {
      assert t.peers[c := p.(section := "")][c := p.(section := "", closed := true)] ==
             t.peers[c := p.(section := "", closed := true)];
    }
  }

  lemma {:induction false} DeliverFull(s: HubState, done: set<ClientId>, c: ClientId, m: Packet)
    requires Linked(s) && c in s.clients && c !in done && !s.PeerOf(c).closed && s.PeerOf(c).Full()
    ensures s.Deliver(done, m).SendToClient(c, m) == s.Deliver(done + {c}, m)
  {
    SlowNext(s, done, c);
    ReceivedNext(s, done, c, m);
    assert s.Slow(done + {c}) == s.Slow(done) + {c};
    assert s.AnyClosed(done + {c}) <==> s.AnyClosed(done);
    DeliverRemoves(s, done, c, m);
  }

  lemma {:induction false} DeliverRemoves(s: HubState, done: set<ClientId>, c: ClientId, m: Packet)
    requires Linked(s) && c in s.clients && c !in done && !s.PeerOf(c).closed && s.PeerOf(c).Full()
    ensures s.Deliver(done, m).SendToClient(c, m) ==
            s.Leave(s.Slow(done) + {c}).(peers := s.Received(done, m)[c := s.Receive(c, m)],
                                         panicked := s.panicked || s.AnyClosed(done))
  {
    var t := s.Deliver(done, m);
    ReceivedNext(s, done, c, m);
    assert t.PeerOf(c) == s.PeerOf(c) && c in t.clients;
    assert s.PeerOf(c).section != "" ==> s.PeerOf(c).section in s.sections;
    RemoveFields(t, c);
    LeavesDelivered(s, done, c, m);
  }

  lemma {:induction false} LeavesDelivered(s: HubState, done: set<ClientId>, c: ClientId, m: Packet)
    requires Linked(s) && c in s.clients && c !in done
    requires s.PeerOf(c).section == "" || s.PeerOf(c).section in s.sections
    ensures var n, t := s.PeerOf(c).section, s.Deliver(done, m);
      (if n == "" then t else t.LeaveOne(c, n)).(clients := t.clients - {c}, peers := s.peers, panicked := s.panicked)
      == s.Leave(s.Slow(done) + {c}).(peers := s.peers, panicked := s.panicked)
  {
    var gone, n := s.Slow(done), s.PeerOf(c).section;
    if n == "" {
      LeaveUnseen(s, gone, c);
    } else {
      LeaveNext(s, gone, c, n);
      LeaveOneFrame(s.Leave(gone), c, n, s.Received(done, m), s.panicked || s.AnyClosed(done));
    }
  }

  lemma {:induction false} LeaveOneFrame(t: HubState, c: ClientId, n: string, peers: map<ClientId, Peer>,
                                         panicked: bool)
    requires n in t.sections
    ensures t.(peers := peers, panicked := panicked).LeaveOne(c, n) ==
            t.LeaveOne(c, n).(peers := peers, panicked := panicked)
  {
  }

  /** One round of a broadcast loop, for any client not yet served. */
  lemma {:induction false} DeliverNext(s: HubState, done: set<ClientId>, c: ClientId, m: Packet)
    requires Linked(s) && c in s.clients && c !in done
    ensures s.Deliver(done, m).SendToClient(c, m) == s.Deliver(done + {c}, m)
  {
    if s.PeerOf(c).closed {
      DeliverClosed(s, done, c, m);
    } else if s.PeerOf(c).Full() {
      DeliverFull(s, done, c, m);
    } else {
      DeliverRoom(s, done, c, m);
    }
  }

  // ---- what keeps the links ----

  ghost predicate SameLinks(s: HubState, t: HubState) {
    && t.clients == s.clients && t.peers == s.peers && t.sections.Keys == s.sections.Keys
    && forall n :: n in s.sections ==> t.sections[n].subscribers == s.sections[n].subscribers
  }

  lemma {:induction false} LinkedFrame(s: HubState, t: HubState)
    requires Linked(s) && SameLinks(s, t)
    ensures Linked(t)
  {
    forall c
      ensures t.PeerOf(c) == s.PeerOf(c)
    {
    }
  }

  lemma {:induction false} DeliverLinked(s: HubState, cs: set<ClientId>, m: Packet)
    requires Linked(s)
    ensures Linked(s.Deliver(cs, m))
  {
    var t := s.Deliver(cs, m);
    forall c
      ensures t.PeerOf(c).section == if c in s.Slow(cs) then "" else s.PeerOf(c).section
    {
    }
    forall n, c | n in t.sections
      ensures c in t.sections[n].subscribers <==> t.PeerOf(c).section == n
    {
      assert t.sections[n].subscribers == s.sections[n].subscribers - s.Slow(cs);
    }
  }
}
