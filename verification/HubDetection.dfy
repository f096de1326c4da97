/** How often the hub rebuilds the battery section for a device that does not change. */
module HubDetection {
  import opened Registers
  import opened BatchPlanner
  import opened HubModel
  import opened HubTheorems
  import Link = BrokerModel
  import Battery

  // ---- who changes a section's groups ----

  ghost predicate SameGroups(s: HubState, t: HubState) {
    && t.sections.Keys == s.sections.Keys
    && forall n :: n in s.sections ==> t.sections[n].groups == s.sections[n].groups
  }

  lemma {:induction false} SwapGroups(s: HubState, t: HubState, n: string, sec: Section)
    requires n in s.sections && t.sections == s.sections[n := sec] && sec.groups == s.sections[n].groups
    ensures SameGroups(s, t)
  {
    assert t.sections.Keys == s.sections.Keys;
    forall m | m in s.sections
      ensures t.sections[m].groups == s.sections[m].groups
    {
    }
  }

  lemma {:induction false} CancelGroups(s: HubState, n: string)
    ensures SameGroups(s, s.CancelRead(n))
  {
    if n in s.sections && s.sections[n].readCancel.Some? {
      SwapGroups(s, s.CancelRead(n), n, s.sections[n].(readCancel := None));
    }
  }

  lemma {:induction false} TriggerGroups(s: HubState, n: string, pack: Option<Pack>)
    ensures SameGroups(s, s.TriggerSectionRead(n)) && (n in s.sections ==> SameGroups(s, s.StartRead(n, pack)))
  {
    CancelGroups(s, n);
  }

  lemma {:induction false} RemoveGroups(s: HubState, c: ClientId, n: string)
    ensures SameGroups(s, s.UnsubscribeClient(c, n)) && SameGroups(s, s.RemoveClient(c))
  {
    UnsubscribeGroups(s, c, n);
    if s.PeerOf(c).section != "" {
      UnsubscribeGroups(s, c, s.PeerOf(c).section);
    }
  }

  lemma {:induction false} UnsubscribeGroups(s: HubState, c: ClientId, n: string)
    ensures SameGroups(s, s.UnsubscribeClient(c, n))
  {
    if n in s.sections {
      var t := s.UnsubscribeClient(c, n);
      SwapGroups(s, t, n, t.sections[n]);
    }
  }

  lemma {:induction false} SendGroups(s: HubState, c: ClientId, m: Packet)
    ensures SameGroups(s, s.SendToClient(c, m))
  {
    RemoveGroups(s, c, "");
  }

  lemma {:induction false} DeliverGroups(s: HubState, cs: set<ClientId>, m: Packet)
    ensures SameGroups(s, s.Deliver(cs, m))
  {
    forall n | n in s.sections
      ensures s.Deliver(cs, m).sections[n].groups == s.sections[n].groups
    {
      assert s.Deliver(cs, m).sections[n] == s.SectionAfter(n, s.Slow(cs));
    }
  }

  lemma {:induction false} SeatedGroups(s: HubState, c: ClientId, n: string)
    requires n in s.sections
    ensures SameGroups(s, Seated(s, c, n))
  {
    SwapGroups(s, Seated(s, c, n), n, s.sections[n].(subscribers := s.sections[n].subscribers + {c}));
  }

  /** What follows once the client has its seat. */
  lemma {:induction false} GreetGroups(t: HubState, c: ClientId, n: string, schema: Packet)
    ensures SameGroups(t, t.RemoveClient(c))
    ensures SameGroups(t, t.SendToClient(c, schema).TriggerSectionRead(n))
    ensures SameGroups(t, t.SendToClient(c, schema).SendToClient(c, Problem(n, NOT_CONNECTED)))
  {
    RemoveGroups(t, c, "");
    SendGroups(t, c, schema);
    TriggerGroups(t.SendToClient(c, schema), n, None);
    SendGroups(t.SendToClient(c, schema), c, Problem(n, NOT_CONNECTED));
  }

  lemma {:induction false} JoinGroups(s: HubState, c: ClientId, n: string)
    requires n in s.sections
    ensures SameGroups(s, s.Join(c, n))
  {
    SeatedGroups(s, c, n);
    GreetGroups(Seated(s, c, n), c, n, Schema(n, s.sections[n].groups));
  }

  lemma {:induction false} SubscribeGroups(s: HubState, c: ClientId, n: string)
    ensures SameGroups(s, s.SubscribeClient(c, n))
  {
    var before := s.PeerOf(c).section;
    CancelGroups(s, before);
    UnsubscribeGroups(s.CancelRead(before), c, before);
    var t := if before != "" && before != n then s.CancelRead(before).UnsubscribeClient(c, before) else s;
    SendGroups(t, c, Problem(n, UNKNOWN_SECTION));
    if n in t.sections {
      JoinGroups(t, c, n);
    }
  }

  lemma {:induction false} RefreshGroups(s: HubState, n: string)
    ensures SameGroups(s, s.Refresh(n))
  {
    if n in s.sections && s.sections[n].readOnce {
      var sec := s.sections[n].(hasReadOnce := false);
      SwapGroups(s, s.(sections := s.sections[n := sec]), n, sec);
      TriggerGroups(s.(sections := s.sections[n := sec]), n, None);
    } else {
      TriggerGroups(s, n, None);
    }
  }

  lemma {:induction false} SelectGroups(s: HubState, tower: int, pack: int)
    ensures SameGroups(s, s.HandleSelectPack(tower, pack))
  {
    var chosen := Pack(Battery.Clamp(tower, 1, Battery.TOWERS), Battery.Clamp(pack, 1, Battery.PACKS_PER_TOWER));
    TriggerGroups(s.(selectedPack := Some(chosen)), "bms", Some(chosen));
  }

  lemma {:induction false} ResultGroups(s: HubState, n: string, m: Packet)
    ensures SameGroups(s, s.HandleResult(n, m))
  {
    if n in s.sections {
      var sec := s.sections[n].(hasReadOnce := true);
      var t := s.(sections := s.sections[n := sec]);
      SwapGroups(s, t, n, sec);
      DeliverGroups(t, t.sections[n].subscribers, m);
      DeliverGroups(s, s.sections[n].subscribers, m);
    }
  }

  lemma {:induction false} OutsideGroups(s: HubState, e: HubEvent)
    ensures SameGroups(s, Elsewhere(s, e))
  {
    match e
    case CycleRun(k, env, now) =>
      var t := s.RunCycle(k, env, now);
      if k < |s.jobs| && s.jobs[k].section in s.sections {
        var n := s.jobs[k].section;
        if t != s {
          SwapGroups(s, t, n, t.sections[n]);
        }
      }
    case ReaderDone(n) =>
      if n in s.sections {
        SwapGroups(s, s.ReaderExit(n), n, s.sections[n].(reading := false));
      }
    case _ =>
  }

  /** Events that may change the groups of the battery section. */
  predicate Regroups(e: HubEvent) {
    e.BatteryDetected? || (e.LinkChanged? && e.state.Connected?)
  }

  ghost predicate SameBattery(s: HubState, t: HubState) {
    && ("battery" in t.sections <==> "battery" in s.sections)
    && ("battery" in s.sections ==> t.sections["battery"].groups == s.sections["battery"].groups)
  }

  lemma {:induction false} PvLeavesBattery(s: HubState, channels: int, plan: BatchPlan)
    ensures SameBattery(s, s.ConfigurePv(channels, plan))
  {
    if "pv" in s.sections {
      TriggerGroups(s.Rebuild("pv", PvGroupsFor(channels), plan), "pv", None);
    }
  }

  lemma {:induction false} LinkLeavesBattery(s: HubState, state: Link.ConnState, plan: BatchPlan)
    requires !state.Connected?
    ensures SameBattery(s, s.HandleStateEvent(state, plan))
  {
    DeliverGroups(s, s.clients, StateChanged(state));
  }

  lemma {:induction false} BatteryKept(s: HubState, e: HubEvent)
    requires !Regroups(e)
    ensures SameBattery(s, Handle(s, e))
  {
    match e
    case Registered(c, state) => SendGroups(s.(clients := s.clients + {c}), c, StateChanged(state));
    case Unregistered(c) => RemoveGroups(s, c, "");
    case Subscribe(c, n) => SubscribeGroups(s, c, n);
    case Unsubscribe(c, n) => UnsubscribeGroups(s, c, n);
    case RefreshAsked(n) => RefreshGroups(s, n);
    case CycleAsked(n) => TriggerGroups(s, n, if n == "bms" then s.selectedPack else None);
    case PackSelected(tower, pack) => SelectGroups(s, tower, pack);
    case PvConfigured(channels, plan) => PvLeavesBattery(s, channels, plan);
    case LinkChanged(state, plan) => LinkLeavesBattery(s, state, plan);
    case ResultRead(n, m) => ResultGroups(s, n, m);
    case _ =>
  }

  lemma {:induction false} DetectedGroups(s: HubState, count: nat, plan: BatchPlan)
    requires "battery" in s.sections
    ensures var t := s.ChannelsDetected(count, plan);
      "battery" in t.sections && t.sections["battery"].groups == Battery.BatteryGroups(count)
  {
    var u := s.Rebuild("battery", Battery.BatteryGroups(count), plan);
    DeliverGroups(u, u.sections["battery"].subscribers, Schema("battery", Battery.BatteryGroups(count)));
    TriggerGroups(s.RebuildBattery(count, plan), "battery", None);
  }

  // ---- runs ----

  /** A run in which the device has `channels` channels: a read of the battery section
      asks for a rebuild only when that is not what the section has. */
  ghost predicate DeviceRun(s: HubState, es: seq<HubEvent>, channels: nat)
    decreases |es|
  {
    es == [] ||
    (&& (es[0].BatteryDetected? ==>
           && "battery" in s.sections && es[0].count == channels
           && Battery.NeedsRebuild(s.sections["battery"].groups, channels))
     && !(es[0].LinkChanged? && es[0].state.Connected?)
     && DeviceRun(Advance(s, es[0]), es[1..], channels))
  }

  function Rebuilt(s: HubState, es: seq<HubEvent>): nat
    decreases |es|
  {
    if es == [] then 0
    else (if es[0].BatteryDetected? && !s.stopped then 1 else 0) + Rebuilt(Advance(s, es[0]), es[1..])
  }

  /** The section has the device's channels, or nothing rebuilds it any more. */
  ghost predicate Matched(s: HubState, channels: nat) {
    s.stopped || ("battery" in s.sections && s.sections["battery"].groups == Battery.BatteryGroups(channels))
  }

  lemma {:induction false} StoppedStays(s: HubState, e: HubEvent)
    requires s.stopped
    ensures Advance(s, e).stopped
  {
  }

  lemma {:induction false} AdvanceKeeps(s: HubState, e: HubEvent)
    requires !Regroups(e)
    ensures SameBattery(s, Advance(s, e))
  {
    OutsideGroups(s, e);
    BatteryKept(s, e);
  }

  lemma {:induction false} MatchedRun(s: HubState, es: seq<HubEvent>, channels: nat)
    requires DeviceRun(s, es, channels) && Matched(s, channels)
    ensures Rebuilt(s, es) == 0
    decreases |es|
  {
    if es != [] {
      var e, t := es[0], Advance(s, es[0]);
      if s.stopped {
        StoppedStays(s, e);
      } else {
        Battery.CountExact(channels);
        assert !e.BatteryDetected?;
        AdvanceKeeps(s, e);
      }
      MatchedRun(t, es[1..], channels);
    }
  }

  /** However clients come, go, subscribe and refresh, a device whose channel count
      does not change has its section rebuilt at most once per connection. */
  lemma {:induction false} OneRebuildPerConnection(s: HubState, es: seq<HubEvent>, channels: nat)
    requires DeviceRun(s, es, channels)
    ensures Rebuilt(s, es) <= 1
    decreases |es|
  {
    if es != [] {
      var e, t := es[0], Advance(s, es[0]);
      if s.stopped {
        MatchedRun(s, es, channels);
      } else if e.BatteryDetected? {
        DetectedGroups(s, channels, e.plan);
        MatchedRun(t, es[1..], channels);
      } else {
        OneRebuildPerConnection(t, es[1..], channels);
      }
    }
  }

  // ---- detections that wait in the hub's queue ----

  /** The reader of job k finds another count and queues a rebuild, or the hub handles an
      event. */
  datatype Turn = Detects(k: nat) | Handles(e: HubEvent)

  /** The rebuilds in the queue, and the jobs whose readers have queued one; a reader ends
      when it does. */
  datatype Queue = Queue(waiting: int, ended: set<nat>)

  const EMPTY := Queue(0, {})

  /** The hub takes a queued rebuild. */
  predicate Pops(s: HubState, turn: Turn) {
    turn.Handles? && turn.e.BatteryDetected? && !s.stopped
  }

  function Moved(s: HubState, turn: Turn): HubState {
    if turn.Handles? then Advance(s, turn.e) else s
  }

  function Requeued(s: HubState, q: Queue, turn: Turn): Queue {
    if turn.Detects? then Queue(q.waiting + 1, q.ended + {turn.k})
    else if Pops(s, turn) then q.(waiting := q.waiting - 1)
    else q
  }

  ghost predicate Has(s: HubState, channels: nat) {
    "battery" in s.sections && s.sections["battery"].groups == Battery.BatteryGroups(channels)
  }

  predicate IsBatteryJob(s: HubState, k: nat) {
    k < |s.jobs| && s.jobs[k] == Job("battery", None)
  }

  /** What such a device allows: a reader that the hub started for the battery section, be it
      cancelled meanwhile or not, queues a rebuild once, and only when the section differs
      from the device at that moment; the hub takes only what was queued. */
  ghost predicate MayTurn(s: HubState, q: Queue, turn: Turn, channels: nat) {
    match turn
    case Detects(k) =>
      && IsBatteryJob(s, k) && k !in q.ended
      && "battery" in s.sections && Battery.NeedsRebuild(s.sections["battery"].groups, channels)
    case Handles(e) =>
      && !(e.LinkChanged? && e.state.Connected?)
      && (e.BatteryDetected? ==> q.waiting > 0 && e.count == channels && "battery" in s.sections)
  }

  ghost predicate QueuedRun(s: HubState, q: Queue, turns: seq<Turn>, channels: nat)
    decreases |turns|
  {
    turns == [] ||
    (&& MayTurn(s, q, turns[0], channels)
     && QueuedRun(Moved(s, turns[0]), Requeued(s, q, turns[0]), turns[1..], channels))
  }

  function Rebuilds(s: HubState, turns: seq<Turn>): nat
    decreases |turns|
  {
    if turns == [] then 0
    else (if Pops(s, turns[0]) then 1 else 0) + Rebuilds(Moved(s, turns[0]), turns[1..])
  }

  /** How many rebuilds wait when the run ends. */
  function LeftQueued(s: HubState, q: Queue, turns: seq<Turn>): int
    decreases |turns|
  {
    if turns == [] then q.waiting
    else LeftQueued(Moved(s, turns[0]), Requeued(s, q, turns[0]), turns[1..])
  }

  /** How many wait when the hub takes the first one, or at the end if it takes none. */
  function QueuedAtFirst(s: HubState, q: Queue, turns: seq<Turn>): int
    decreases |turns|
  {
    if turns == [] || Pops(s, turns[0]) then q.waiting
    else QueuedAtFirst(Moved(s, turns[0]), Requeued(s, q, turns[0]), turns[1..])
  }

  lemma {:induction false} MovedHas(s: HubState, q: Queue, turn: Turn, channels: nat)
    requires MayTurn(s, q, turn, channels) && (Has(s, channels) || Pops(s, turn))
    ensures turn.Handles? && Has(Moved(s, turn), channels)
  {
    if Pops(s, turn) {
      PopsHas(s, turn.e.plan, channels);
    } else {
      KeepsHas(s, q, turn, channels);
    }
  }

  lemma {:induction false} PopsHas(s: HubState, plan: BatchPlan, channels: nat)
    requires !s.stopped && "battery" in s.sections
    ensures Has(Advance(s, BatteryDetected(channels, plan)), channels)
  {
    DetectedGroups(s, channels, plan);
  }

  lemma {:induction false} KeepsHas(s: HubState, q: Queue, turn: Turn, channels: nat)
    requires MayTurn(s, q, turn, channels) && Has(s, channels) && !Pops(s, turn)
    ensures turn.Handles? && Has(Moved(s, turn), channels)
  {
    Battery.CountExact(channels);
    if turn.Handles? && !turn.e.BatteryDetected? {
      AdvanceKeeps(s, turn.e);
    }
  }

  /** Once the section has the device's channels no more rebuilds are queued. */
  lemma {:induction false} HasRun(s: HubState, q: Queue, turns: seq<Turn>, channels: nat)
    requires QueuedRun(s, q, turns, channels) && Has(s, channels) && q.waiting >= 0
    ensures Rebuilds(s, turns) + LeftQueued(s, q, turns) == q.waiting && LeftQueued(s, q, turns) >= 0
    decreases |turns|
  {
    if turns != [] {
      MovedHas(s, q, turns[0], channels);
      HasRun(Moved(s, turns[0]), Requeued(s, q, turns[0]), turns[1..], channels);
    }
  }

  /** The rebuilds of a connection are exactly those queued before the first of them was
      handled, but for what is still queued at the end. */
  lemma {:induction false} RebuildsExactly(s: HubState, q: Queue, turns: seq<Turn>, channels: nat)
    requires QueuedRun(s, q, turns, channels) && q.waiting >= 0
    ensures Rebuilds(s, turns) + LeftQueued(s, q, turns) == QueuedAtFirst(s, q, turns)
    ensures LeftQueued(s, q, turns) >= 0
    decreases |turns|
  {
    if turns != [] {
      var next := Requeued(s, q, turns[0]);
      if Pops(s, turns[0]) {
        MovedHas(s, q, turns[0], channels);
        HasRun(Moved(s, turns[0]), next, turns[1..], channels);
      } else {
        RebuildsExactly(Moved(s, turns[0]), next, turns[1..], channels);
      }
    }
  }

  // ---- two rebuilds ----

  /** A reader detects, a client asks for a refresh, the reader started for it detects too,
      and then the hub takes both rebuilds. */
  function DetectedTwice(s: HubState, k: nat, channels: nat, plan: BatchPlan): seq<Turn> {
    var rebuild := Handles(BatteryDetected(channels, plan));
    [Detects(k), Handles(RefreshAsked("battery")), Detects(|s.jobs|), rebuild, rebuild]
  }

  /** From any state in which a battery reader has yet to detect. */
  lemma {:induction false} TwoRebuilds(s: HubState, k: nat, channels: nat, plan: BatchPlan)
    requires !s.stopped && "battery" in s.sections && IsBatteryJob(s, k)
    requires Battery.NeedsRebuild(s.sections["battery"].groups, channels)
    ensures QueuedRun(s, EMPTY, DetectedTwice(s, k, channels, plan), channels)
    ensures Rebuilds(s, DetectedTwice(s, k, channels, plan)) == 2
    ensures |s.jobs| in Advance(s, RefreshAsked("battery")).live
  {
    var rest := [Handles(RefreshAsked("battery"))] + SecondDetected(|s.jobs|, channels, plan);
    Refreshed(s);
    RefreshedDetected(s, k, channels, plan);
    assert Requeued(s, EMPTY, Detects(k)) == Queue(1, {k});
    TurnCons(s, EMPTY, Detects(k), rest, channels);
    assert DetectedTwice(s, k, channels, plan) == [Detects(k)] + rest;
  }

  lemma {:induction false} RefreshedDetected(s: HubState, k: nat, channels: nat, plan: BatchPlan)
    requires !s.stopped && "battery" in s.sections && k < |s.jobs|
    requires Battery.NeedsRebuild(s.sections["battery"].groups, channels)
    ensures var rest := [Handles(RefreshAsked("battery"))] + SecondDetected(|s.jobs|, channels, plan);
      QueuedRun(s, Queue(1, {k}), rest, channels) && Rebuilds(s, rest) == 2
  {
    var refresh := Handles(RefreshAsked("battery"));
    Refreshed(s);
    assert Moved(s, refresh) == s.Refresh("battery");
    AgainDetected(s.Refresh("battery"), |s.jobs|, {k}, channels, plan);
    TurnCons(s, Queue(1, {k}), refresh, SecondDetected(|s.jobs|, channels, plan), channels);
  }

  function SecondDetected(k: nat, channels: nat, plan: BatchPlan): seq<Turn> {
    [Detects(k), Handles(BatteryDetected(channels, plan)), Handles(BatteryDetected(channels, plan))]
  }

  lemma {:induction false} AgainDetected(s: HubState, k: nat, ended: set<nat>, channels: nat, plan: BatchPlan)
    requires !s.stopped && "battery" in s.sections && IsBatteryJob(s, k) && k !in ended
    requires Battery.NeedsRebuild(s.sections["battery"].groups, channels)
    ensures QueuedRun(s, Queue(1, ended), SecondDetected(k, channels, plan), channels)
    ensures Rebuilds(s, SecondDetected(k, channels, plan)) == 2
  {
    var rebuild := Handles(BatteryDetected(channels, plan));
    TwoHandled(s, ended + {k}, channels, plan);
    TurnCons(s, Queue(1, ended), Detects(k), [rebuild, rebuild], channels);
    assert SecondDetected(k, channels, plan) == [Detects(k)] + [rebuild, rebuild];
  }

  lemma {:induction false} Refreshed(s: HubState)
    requires "battery" in s.sections
    ensures var t := s.Refresh("battery");
      && t.stopped == s.stopped && t.jobs == s.jobs + [Job("battery", None)] && |s.jobs| in t.live
      && "battery" in t.sections && t.sections["battery"].groups == s.sections["battery"].groups
  {
    RefreshGroups(s, "battery");
  }

  lemma {:induction false} TwoHandled(s: HubState, ended: set<nat>, channels: nat, plan: BatchPlan)
    requires !s.stopped && "battery" in s.sections
    ensures var rebuild := Handles(BatteryDetected(channels, plan));
      QueuedRun(s, Queue(2, ended), [rebuild, rebuild], channels) && Rebuilds(s, [rebuild, rebuild]) == 2
  {
    var rebuild := Handles(BatteryDetected(channels, plan));
    DetectedGroups(s, channels, plan);
    LastRebuild(Moved(s, rebuild), ended, channels, plan);
    TurnCons(s, Queue(2, ended), rebuild, [rebuild], channels);
    assert [rebuild] + [rebuild] == [rebuild, rebuild];
  }

  lemma {:induction false} TurnCons(s: HubState, q: Queue, turn: Turn, turns: seq<Turn>, channels: nat)
    requires MayTurn(s, q, turn, channels)
    requires QueuedRun(Moved(s, turn), Requeued(s, q, turn), turns, channels)
    ensures QueuedRun(s, q, [turn] + turns, channels)
    ensures Rebuilds(s, [turn] + turns) == (if Pops(s, turn) then 1 else 0) + Rebuilds(Moved(s, turn), turns)
  {
    assert ([turn] + turns)[1..] == turns;
  }

  lemma {:induction false} LastRebuild(s: HubState, ended: set<nat>, channels: nat, plan: BatchPlan)
    requires !s.stopped && "battery" in s.sections
    ensures var turns := [Handles(BatteryDetected(channels, plan))];
      QueuedRun(s, Queue(1, ended), turns, channels) && Rebuilds(s, turns) == 1
  {
  }

  // ---- such a state is reached ----

  /** A client comes and subscribes to the battery section. */
  function Visited(s: HubState, c: ClientId): HubState {
    Advance(Advance(s, Registered(c, Link.Connected)), Subscribe(c, "battery"))
  }

  /** A connected hub that no client has visited, whose battery section has the default
      count. */
  ghost predicate Unvisited(s: HubState) {
    !s.stopped && s.connected && s.jobs == [] && s.clients == {} && s.peers == map[] && Has(s, RESET_CHANNELS)
  }

  lemma {:induction false} RebuildUnseen(s: HubState, plan: BatchPlan)
    requires "battery" in s.sections && s.sections["battery"].subscribers == {}
    ensures var groups := Battery.BatteryGroups(RESET_CHANNELS);
      s.RebuildBattery(RESET_CHANNELS, plan) == s.Rebuild("battery", groups, plan)
  {
    var groups := Battery.BatteryGroups(RESET_CHANNELS);
    DeliverNone(s.Rebuild("battery", groups, plan), Schema("battery", groups));
  }

  lemma {:induction false} LinkUp(sections: map<string, Section>, plan: BatchPlan)
    requires "battery" in sections && sections["battery"].subscribers == {}
    ensures Unvisited(Advance(New(sections), LinkChanged(Link.Connected, plan)))
  {
    var s := New(sections);
    DeliverNone(s, StateChanged(Link.Connected));
    RebuildUnseen(s.(connected := true).ResetTrackers(sections.Keys), plan);
  }

  lemma {:induction false} MayVisit(s: HubState, c: ClientId)
    requires Unvisited(s)
    ensures Admissible(s, Registered(c, Link.Connected))
    ensures Admissible(Advance(s, Registered(c, Link.Connected)), Subscribe(c, "battery"))
  {
    assert s.PeerOf(c) == FRESH_PEER;
  }

  lemma {:induction false} FirstVisit(s: HubState, c: ClientId)
    requires Unvisited(s)
    ensures var t := Visited(s, c); !t.stopped && IsBatteryJob(t, 0) && 0 in t.live && Has(t, RESET_CHANNELS)
  {
    var t := Advance(s, Registered(c, Link.Connected));
    assert t.PeerOf(c).section == "" && !t.PeerOf(c).Full() && !t.PeerOf(c).closed;
    assert t.sections == s.sections && t.jobs == [] && t.connected && c in t.clients;
    JoinGroups(t, c, "battery");
  }
}
