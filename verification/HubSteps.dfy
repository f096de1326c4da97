/** What each event does to the reads, flags, groups and trackers of the hub, as a table, and
    what that means over runs: when a read is started depends on the events so far. */
module HubSteps {
  import opened Registers
  import opened BatchPlanner
  import opened SpanTrackers
  import opened ReadCycles
  import opened HubModel
  import opened HubTheorems
  import Link = BrokerModel
  import Battery
  import Pv

  // ---- the table ----

  /** The nearest number in a range. */
  function Near(x: int, lo: int, hi: int): int {
    if x < lo then lo else if x > hi then hi else x
  }

  /** There is room for another message, and the channel is open. */
  predicate HasRoom(s: HubState, c: ClientId) {
    !s.PeerOf(c).closed && |s.PeerOf(c).queue| < 256
  }

  /** The reads that an event starts: at once for a new subscriber while the link is up, and
      for a refresh, a pack, a changed channel count; for a read cycle only if nothing speaks
      against it. */
  function Starts(s: HubState, e: HubEvent): seq<Job> {
    match e
    case Subscribe(c, n) =>
      if n in s.sections && s.connected && HasRoom(s, c) then [Job(n, None)] else []
    case RefreshAsked(n) =>
      if n in s.sections then [Job(n, None)] else []
    case CycleAsked(n) =>
      if MayCycle(s, n) then [Job(n, if n == "bms" then s.selectedPack else None)] else []
    case PackSelected(tower, pack) =>
      if "bms" in s.sections then [Job("bms", Some(Pack(Near(tower, 1, 2), Near(pack, 1, 10))))] else []
    case PvConfigured(_, _) =>
      if "pv" in s.sections && s.connected && s.sections["pv"].subscribers != {} then [Job("pv", None)] else []
    case BatteryDetected(_, _) =>
      if "battery" in s.sections then [Job("battery", None)] else []
    case _ => []
  }

  predicate MayCycle(s: HubState, n: string) {
    && n in s.sections && s.connected && s.sections[n].subscribers != {} && !s.sections[n].reading
    && (s.sections[n].readOnce ==> !s.sections[n].hasReadOnce)
  }

  function LinkAfter(up: bool, e: HubEvent): bool {
    if !e.LinkChanged? then up
    else
      match e.state
      case Connected => true
      case Disconnected => false
      case Reconnecting => false
      case _ => up
  }

  /** Whether a section counts as read afterwards: completed, and not asked for anew. */
  function OnceAfter(x: Section, n: string, e: HubEvent): bool {
    if x.readOnce && e.ResultRead? && e.n == n && e.m.Complete? then true
    else if x.readOnce && e == RefreshAsked(n) then false
    else x.hasReadOnce
  }

  function GroupsAfter(groups: seq<ProbeGroup>, n: string, e: HubEvent): seq<ProbeGroup> {
    match e
    case PvConfigured(channels, _) => if n == "pv" then Pv.PvGroups(Near(channels, 2, 16)) else groups
    case BatteryDetected(count, _) => if n == "battery" then Battery.BatteryGroups(count) else groups
    case LinkChanged(state, _) => if n == "battery" && state.Connected? then Battery.BatteryGroups(2) else groups
    case _ => groups
  }

  /** New groups, or a new connection, give every span a fresh start. */
  predicate Afresh(n: string, e: HubEvent) {
    || (n == "pv" && e.PvConfigured?) || (n == "battery" && e.BatteryDetected?)
    || (e.LinkChanged? && e.state.Connected?)
  }

  predicate StartsFor(js: seq<Job>, n: string) {
    exists j :: j in js && j.section == n
  }

  ghost predicate SectionStep(x: Section, y: Section, n: string, e: HubEvent, js: seq<Job>) {
    && y.readOnce == x.readOnce
    && y.hasReadOnce == OnceAfter(x, n, e)
    && y.reading == (StartsFor(js, n) || (x.reading && e != ReaderDone(n)))
    && y.groups == GroupsAfter(x.groups, n, e)
    && (!e.CycleRun? ==> y.tracker == if Afresh(n, e) then Tracker.New(x.tracker.threshold) else x.tracker)
  }

  /** What the table says of a step from s to t. */
  ghost predicate Steps(s: HubState, e: HubEvent, t: HubState) {
    && t.jobs == s.jobs + Starts(s, e) && t.connected == LinkAfter(s.connected, e)
    && t.stopped == (s.stopped || e == HubCancelled)
    && t.sections.Keys == s.sections.Keys
    && forall n :: n in s.sections ==> SectionStep(s.sections[n], t.sections[n], n, e, Starts(s, e))
  }

  // ---- frames ----

  ghost predicate SameWork(x: Section, y: Section, starts: bool) {
    && y.groups == x.groups && y.tracker == x.tracker && y.readOnce == x.readOnce && y.hasReadOnce == x.hasReadOnce
    && y.reading == (starts || x.reading)
  }

  /** These reads were started, and otherwise only subscriptions, queues and contexts
      differ. */
  ghost predicate Began(s: HubState, t: HubState, js: seq<Job>) {
    && t.jobs == s.jobs + js && t.connected == s.connected && t.stopped == s.stopped
    && t.sections.Keys == s.sections.Keys
    && forall n :: n in s.sections ==> SameWork(s.sections[n], t.sections[n], StartsFor(js, n))
  }

  lemma {:induction false} NoneStarts(n: string)
    ensures !StartsFor([], n)
  {
  }

  lemma {:induction false} BeganMore(s: HubState, u: HubState, t: HubState, js: seq<Job>)
    requires Began(s, u, []) && Began(u, t, js)
    ensures Began(s, t, js)
  {
    forall n | n in s.sections
      ensures SameWork(s.sections[n], t.sections[n], StartsFor(js, n))
    {
      assert SameWork(s.sections[n], u.sections[n], StartsFor([], n));
      assert SameWork(u.sections[n], t.sections[n], StartsFor(js, n));
    }
  }

  lemma {:induction false} BeganSwap(s: HubState, t: HubState, n: string, sec: Section)
    requires n in s.sections && t.sections == s.sections[n := sec] && SameWork(s.sections[n], sec, false)
    requires t.jobs == s.jobs && t.connected == s.connected && t.stopped == s.stopped
    ensures Began(s, t, [])
  {
    assert t.sections.Keys == s.sections.Keys;
    forall m | m in s.sections
      ensures SameWork(s.sections[m], t.sections[m], StartsFor([], m))
    {
    }
  }

  lemma {:induction false} Idles(s: HubState, t: HubState)
    requires t.sections == s.sections && t.jobs == s.jobs && t.connected == s.connected && t.stopped == s.stopped
    ensures Began(s, t, [])
  {
    forall m | m in s.sections
      ensures SameWork(s.sections[m], t.sections[m], StartsFor([], m))
    {
    }
  }

  lemma {:induction false} CancelBegan(s: HubState, n: string)
    ensures Began(s, s.CancelRead(n), [])
  {
    if n in s.sections && s.sections[n].readCancel.Some? {
      BeganSwap(s, s.CancelRead(n), n, s.sections[n].(readCancel := None));
    } else {
      Idles(s, s);
    }
  }

  lemma {:induction false} CancelAllBegan(s: HubState)
    ensures Began(s, s.CancelReads(s.sections.Keys), [])
  {
    var t := s.CancelReads(s.sections.Keys);
    forall m | m in s.sections
      ensures SameWork(s.sections[m], t.sections[m], StartsFor([], m))
    {
    }
  }

  lemma {:induction false} StartBegan(s: HubState, n: string, pack: Option<Pack>)
    requires n in s.sections
    ensures Began(s, s.StartRead(n, pack), [Job(n, pack)])
  {
    CancelBegan(s, n);
    var u, t, js := s.CancelRead(n), s.StartRead(n, pack), [Job(n, pack)];
    assert js[0].section == n;
    forall m | m in s.sections
      ensures SameWork(s.sections[m], t.sections[m], StartsFor(js, m))
    {
      assert SameWork(s.sections[m], u.sections[m], StartsFor([], m));
      assert StartsFor(js, m) <==> m == n;
    }
  }

  lemma {:induction false} UnsubscribeBegan(s: HubState, c: ClientId, n: string)
    ensures Began(s, s.UnsubscribeClient(c, n), [])
  {
    if n in s.sections {
      var t := s.UnsubscribeClient(c, n);
      BeganSwap(s, t, n, t.sections[n]);
    } else {
      Idles(s, s);
    }
  }

  lemma {:induction false} RemoveBegan(s: HubState, c: ClientId)
    ensures Began(s, s.RemoveClient(c), [])
  {
    var u := if c in s.clients && s.PeerOf(c).section != "" then s.UnsubscribeClient(c, s.PeerOf(c).section) else s;
    UnsubscribeBegan(s, c, s.PeerOf(c).section);
    Idles(s, s);
    Idles(u, s.RemoveClient(c));
    BeganMore(s, u, s.RemoveClient(c), []);
  }

  lemma {:induction false} SendBegan(s: HubState, c: ClientId, m: Packet)
    ensures Began(s, s.SendToClient(c, m), [])
  {
    RemoveBegan(s, c);
    if s.PeerOf(c).closed || !s.PeerOf(c).Full() {
      Idles(s, s.SendToClient(c, m));
    }
  }

  lemma {:induction false} DeliverBegan(s: HubState, cs: set<ClientId>, m: Packet)
    ensures Began(s, s.Deliver(cs, m), [])
  {
    var t := s.Deliver(cs, m);
    forall n | n in s.sections
      ensures SameWork(s.sections[n], t.sections[n], StartsFor([], n))
    {
      assert t.sections[n] == s.SectionAfter(n, s.Slow(cs));
    }
  }

  lemma {:induction false} BroadcastBegan(s: HubState, n: string, m: Packet)
    ensures Began(s, s.BroadcastToSection(n, m), [])
  {
    if n in s.sections {
      DeliverBegan(s, s.sections[n].subscribers, m);
    } else {
      Idles(s, s);
    }
  }

  /** Only the mark of a started read differs. */
  lemma {:induction false} PlainSection(x: Section, y: Section, n: string, e: HubEvent, js: seq<Job>)
    requires SameWork(x, y, StartsFor(js, n)) && OnceAfter(x, n, e) == x.hasReadOnce
    requires !e.LinkChanged? && !e.PvConfigured? && !e.BatteryDetected? && !e.ReaderDone?
    ensures SectionStep(x, y, n, e, js)
  {
  }

  /** Events that leave link, groups, trackers and marks alone. */
  lemma {:induction false} BeganSteps(s: HubState, e: HubEvent, t: HubState)
    requires Began(s, t, Starts(s, e)) && e != HubCancelled
    requires !e.LinkChanged? && !e.PvConfigured? && !e.BatteryDetected? && !e.ReaderDone?
    requires forall n :: n in s.sections ==> OnceAfter(s.sections[n], n, e) == s.sections[n].hasReadOnce
    ensures Steps(s, e, t)
  {
    forall n | n in s.sections
      ensures SectionStep(s.sections[n], t.sections[n], n, e, Starts(s, e))
    {
      assert SameWork(s.sections[n], t.sections[n], StartsFor(Starts(s, e), n));
      PlainSection(s.sections[n], t.sections[n], n, e, Starts(s, e));
    }
  }

  // ---- one event at a time ----

  lemma {:induction false} RegisterSteps(s: HubState, c: ClientId, state: Link.ConnState)
    ensures Steps(s, Registered(c, state), s.Register(c, state))
  {
    var u := s.(clients := s.clients + {c});
    Idles(s, u);
    SendBegan(u, c, StateChanged(state));
    BeganMore(s, u, s.Register(c, state), []);
    BeganSteps(s, Registered(c, state), s.Register(c, state));
  }

  lemma {:induction false} JoinBegan(s: HubState, c: ClientId, n: string)
    requires n in s.sections
    ensures Began(s, s.Join(c, n), if s.connected && HasRoom(s, c) then [Job(n, None)] else [])
  {
    var u := Seated(s, c, n);
    BeganSwap(s, u, n, u.sections[n]);
    if s.PeerOf(c).closed {
      Idles(u, s.Join(c, n));
      BeganMore(s, u, s.Join(c, n), []);
    } else if s.PeerOf(c).Full() {
      RemoveBegan(u, c);
      BeganMore(s, u, s.Join(c, n), []);
    } else {
      var schema := Schema(n, s.sections[n].groups);
      var v := u.SendToClient(c, schema);
      SendBegan(u, c, schema);
      BeganMore(s, u, v, []);
      GreetBegan(s, v, c, n);
    }
  }

  lemma {:induction false} GreetBegan(s: HubState, v: HubState, c: ClientId, n: string)
    requires n in s.sections && Began(s, v, [])
    ensures v.connected ==> Began(s, v.TriggerSectionRead(n), [Job(n, None)])
    ensures Began(s, v.SendToClient(c, Problem(n, NOT_CONNECTED)), [])
  {
    StartBegan(v, n, None);
    BeganMore(s, v, v.StartRead(n, None), [Job(n, None)]);
    SendBegan(v, c, Problem(n, NOT_CONNECTED));
    BeganMore(s, v, v.SendToClient(c, Problem(n, NOT_CONNECTED)), []);
  }

  /** The client leaves its previous section for another one. */
  function Moving(s: HubState, c: ClientId, n: string): HubState {
    var before := s.PeerOf(c).section;
    if before != "" && before != n then s.CancelRead(before).UnsubscribeClient(c, before) else s
  }

  lemma {:induction false} MovingBegan(s: HubState, c: ClientId, n: string)
    ensures Began(s, Moving(s, c, n), [])
    ensures Moving(s, c, n).PeerOf(c).queue == s.PeerOf(c).queue
    ensures Moving(s, c, n).PeerOf(c).closed == s.PeerOf(c).closed
  {
    var before := s.PeerOf(c).section;
    Idles(s, s);
    var u := s.CancelRead(before);
    CancelBegan(s, before);
    UnsubscribeBegan(u, c, before);
    BeganMore(s, u, u.UnsubscribeClient(c, before), []);
    assert u.PeerOf(c) == s.PeerOf(c);
  }

  lemma {:induction false} SubscribeSteps(s: HubState, c: ClientId, n: string)
    ensures Steps(s, Subscribe(c, n), s.SubscribeClient(c, n))
  {
    var u, t := Moving(s, c, n), s.SubscribeClient(c, n);
    MovingBegan(s, c, n);
    if n in s.sections {
      JoinBegan(u, c, n);
      BeganMore(s, u, t, Starts(s, Subscribe(c, n)));
    } else {
      SendBegan(u, c, Problem(n, UNKNOWN_SECTION));
      BeganMore(s, u, t, []);
    }
    BeganSteps(s, Subscribe(c, n), t);
  }

  /** A read-once section counts as unread before it is read again. */
  function Forgotten(x: Section, k: string, n: string): Section {
    if k == n && x.readOnce then x.(hasReadOnce := false) else x
  }

  ghost predicate Forgets(s: HubState, u: HubState, n: string) {
    && u.jobs == s.jobs && u.connected == s.connected && u.stopped == s.stopped && u.sections.Keys == s.sections.Keys
    && forall k :: k in s.sections ==> u.sections[k] == Forgotten(s.sections[k], k, n)
  }

  lemma {:induction false} RefreshedSection(x: Section, y: Section, k: string, n: string, js: seq<Job>)
    requires SameWork(Forgotten(x, k, n), y, StartsFor(js, k))
    ensures SectionStep(x, y, k, RefreshAsked(n), js)
  {
  }

  lemma {:induction false} ForgottenSteps(s: HubState, u: HubState, t: HubState, n: string)
    requires Forgets(s, u, n) && Began(u, t, Starts(s, RefreshAsked(n)))
    ensures Steps(s, RefreshAsked(n), t)
  {
    var js := Starts(s, RefreshAsked(n));
    forall k | k in s.sections
      ensures SectionStep(s.sections[k], t.sections[k], k, RefreshAsked(n), js)
    {
      assert SameWork(u.sections[k], t.sections[k], StartsFor(js, k));
      RefreshedSection(s.sections[k], t.sections[k], k, n, js);
    }
  }

  lemma {:induction false} RefreshSteps(s: HubState, n: string)
    ensures Steps(s, RefreshAsked(n), s.Refresh(n))
  {
    if n in s.sections {
      var u := s.(sections := s.sections[n := Forgotten(s.sections[n], n, n)]);
      assert u.sections.Keys == s.sections.Keys;
      assert s.sections[n := s.sections[n]] == s.sections;
      StartBegan(u, n, None);
      ForgottenSteps(s, u, s.Refresh(n), n);
    } else {
      Idles(s, s);
      ForgottenSteps(s, s, s.Refresh(n), n);
    }
  }

  lemma {:induction false} CycleSteps(s: HubState, n: string)
    ensures Steps(s, CycleAsked(n), s.HandleReadCycle(n))
  {
    if MayCycle(s, n) {
      StartBegan(s, n, if n == "bms" then s.selectedPack else None);
    } else {
      Idles(s, s);
    }
    BeganSteps(s, CycleAsked(n), s.HandleReadCycle(n));
  }

  lemma {:induction false} SelectSteps(s: HubState, tower: int, pack: int)
    ensures Steps(s, PackSelected(tower, pack), s.HandleSelectPack(tower, pack))
  {
    var chosen := Pack(Near(tower, 1, 2), Near(pack, 1, 10));
    var u := s.(selectedPack := Some(chosen));
    Idles(s, u);
    if "bms" in s.sections {
      StartBegan(u, "bms", Some(chosen));
      BeganMore(s, u, u.StartRead("bms", Some(chosen)), [Job("bms", Some(chosen))]);
    }
    BeganSteps(s, PackSelected(tower, pack), s.HandleSelectPack(tower, pack));
  }

  /** A completed read-once section is marked before its clients are told. */
  function Marked(s: HubState, n: string, m: Packet): HubState {
    if m.Complete? && n in s.sections && s.sections[n].readOnce && !s.sections[n].hasReadOnce
    then s.(sections := s.sections[n := s.sections[n].(hasReadOnce := true)]) else s
  }

  /** What marking changes. */
  ghost predicate Marks(s: HubState, u: HubState, n: string, m: Packet) {
    && u.jobs == s.jobs && u.connected == s.connected && u.stopped == s.stopped && u.sections.Keys == s.sections.Keys
    && forall k :: k in s.sections ==> u.sections[k] == MarkedSection(s.sections[k], k, n, m)
  }

  function MarkedSection(x: Section, k: string, n: string, m: Packet): Section {
    if m.Complete? && k == n && x.readOnce && !x.hasReadOnce then x.(hasReadOnce := true) else x
  }

  lemma {:induction false} MarkedMarks(s: HubState, n: string, m: Packet)
    ensures Marks(s, Marked(s, n, m), n, m)
  {
    assert Marked(s, n, m).sections.Keys == s.sections.Keys;
  }

  lemma {:induction false} ResultSteps(s: HubState, n: string, m: Packet)
    ensures Steps(s, ResultRead(n, m), s.HandleResult(n, m))
  {
    MarkedMarks(s, n, m);
    BroadcastBegan(Marked(s, n, m), n, m);
    MarkedSteps(s, Marked(s, n, m), s.HandleResult(n, m), n, m);
  }

  lemma {:induction false} MarkedSteps(s: HubState, u: HubState, t: HubState, n: string, m: Packet)
    requires Marks(s, u, n, m) && Began(u, t, [])
    ensures Steps(s, ResultRead(n, m), t)
  {
    forall k | k in s.sections
      ensures SectionStep(s.sections[k], t.sections[k], k, ResultRead(n, m), [])
    {
      assert SameWork(u.sections[k], t.sections[k], StartsFor([], k));
      ResultSection(s.sections[k], u.sections[k], t.sections[k], k, n, m);
    }
  }

  lemma {:induction false} ResultSection(x: Section, u: Section, y: Section, k: string, n: string, m: Packet)
    requires u == MarkedSection(x, k, n, m) && SameWork(u, y, StartsFor([], k))
    ensures SectionStep(x, y, k, ResultRead(n, m), [])
  {
    NoneStarts(k);
  }

  /** A section with new groups. */
  ghost predicate Renewed(s: HubState, u: HubState, n: string, groups: seq<ProbeGroup>) {
    && n in s.sections && u.sections.Keys == s.sections.Keys
    && u.jobs == s.jobs && u.connected == s.connected && u.stopped == s.stopped
    && u.sections[n].groups == groups && u.sections[n].tracker == Tracker.New(s.sections[n].tracker.threshold)
    && u.sections[n].readOnce == s.sections[n].readOnce && u.sections[n].hasReadOnce == s.sections[n].hasReadOnce
    && u.sections[n].reading == s.sections[n].reading
    && forall m :: m in s.sections && m != n ==> u.sections[m] == s.sections[m]
  }

  lemma {:induction false} RenewedSection(s: HubState, u: HubState, y: Section, n: string, k: string, e: HubEvent,
                                          js: seq<Job>)
    requires k in s.sections && n in s.sections && Renewed(s, u, n, GroupsAfter(s.sections[n].groups, n, e))
    requires SameWork(u.sections[k], y, StartsFor(js, k))
    requires (e.PvConfigured? && n == "pv") || (e.BatteryDetected? && n == "battery")
    ensures SectionStep(s.sections[k], y, k, e, js)
  {
  }

  lemma {:induction false} RebuildRenews(s: HubState, n: string, groups: seq<ProbeGroup>, plan: BatchPlan)
    requires n in s.sections
    ensures Renewed(s, s.Rebuild(n, groups, plan), n, groups)
  {
    assert s.Rebuild(n, groups, plan).sections.Keys == s.sections.Keys;
  }

  lemma {:induction false} PvSteps(s: HubState, channels: int, plan: BatchPlan)
    ensures Steps(s, PvConfigured(channels, plan), s.ConfigurePv(channels, plan))
  {
    var e, t := PvConfigured(channels, plan), s.ConfigurePv(channels, plan);
    if "pv" in s.sections {
      var u := s.Rebuild("pv", PvGroupsFor(channels), plan);
      RebuildRenews(s, "pv", PvGroupsFor(channels), plan);
      StartBegan(u, "pv", None);
      Idles(u, u);
      RenewedSteps(s, u, t, "pv", e);
    } else {
      AbsentSteps(s, "pv", e);
    }
  }

  lemma {:induction false} BatteryRenews(s: HubState, count: nat, plan: BatchPlan) returns (u: HubState)
    requires "battery" in s.sections
    ensures Renewed(s, u, "battery", Battery.BatteryGroups(count)) && Began(u, s.RebuildBattery(count, plan), [])
  {
    var groups := Battery.BatteryGroups(count);
    u := s.Rebuild("battery", groups, plan);
    RebuildRenews(s, "battery", groups, plan);
    BroadcastBegan(u, "battery", Schema("battery", groups));
  }

  lemma {:induction false} DetectedSteps(s: HubState, count: nat, plan: BatchPlan)
    ensures Steps(s, BatteryDetected(count, plan), s.ChannelsDetected(count, plan))
  {
    var e := BatteryDetected(count, plan);
    if "battery" in s.sections {
      var u := BatteryRenews(s, count, plan);
      var v := s.RebuildBattery(count, plan);
      StartBegan(v, "battery", None);
      BeganMore(u, v, v.StartRead("battery", None), [Job("battery", None)]);
      RenewedSteps(s, u, v.StartRead("battery", None), "battery", e);
    } else {
      AbsentSteps(s, "battery", e);
    }
  }

  lemma {:induction false} RenewedSteps(s: HubState, u: HubState, t: HubState, n: string, e: HubEvent)
    requires n in s.sections && Renewed(s, u, n, GroupsAfter(s.sections[n].groups, n, e))
    requires (e.PvConfigured? && n == "pv") || (e.BatteryDetected? && n == "battery")
    requires Began(u, t, Starts(s, e))
    ensures Steps(s, e, t)
  {
    forall m | m in s.sections
      ensures SectionStep(s.sections[m], t.sections[m], m, e, Starts(s, e))
    {
      assert SameWork(u.sections[m], t.sections[m], StartsFor(Starts(s, e), m));
      RenewedSection(s, u, t.sections[m], n, m, e, Starts(s, e));
    }
  }

  lemma {:induction false} AbsentSteps(s: HubState, n: string, e: HubEvent)
    requires n !in s.sections && ((e.PvConfigured? && n == "pv") || (e.BatteryDetected? && n == "battery"))
    ensures Steps(s, e, s)
  {
    forall m | m in s.sections
      ensures SectionStep(s.sections[m], s.sections[m], m, e, Starts(s, e))
    {
      NoneStarts(m);
    }
  }

  /** A change of the link that is not a reconnect. */
  lemma {:induction false} DownBegan(s: HubState, state: Link.ConnState, plan: BatchPlan) returns (u: HubState)
    requires !state.Connected?
    ensures Began(s, u, []) && Began(u.(connected := s.HandleStateEvent(state, plan).connected),
                                     s.HandleStateEvent(state, plan), [])
    ensures s.HandleStateEvent(state, plan).connected == LinkAfter(s.connected, LinkChanged(state, plan))
  {
    u := s.Deliver(s.clients, StateChanged(state));
    DeliverBegan(s, s.clients, StateChanged(state));
    CancelAllBegan(u.(connected := false));
    Idles(u, u);
  }

  lemma {:induction false} SameSection(x: Section, u: Section, y: Section, k: string, state: Link.ConnState,
                                       plan: BatchPlan)
    requires SameWork(x, u, StartsFor([], k)) && SameWork(u, y, StartsFor([], k)) && !state.Connected?
    ensures SectionStep(x, y, k, LinkChanged(state, plan), [])
  {
    NoneStarts(k);
  }

  lemma {:induction false} LinkDownSteps(s: HubState, state: Link.ConnState, plan: BatchPlan)
    requires !state.Connected?
    ensures Steps(s, LinkChanged(state, plan), s.HandleStateEvent(state, plan))
  {
    var t := s.HandleStateEvent(state, plan);
    var u := DownBegan(s, state, plan);
    forall m | m in s.sections
      ensures SectionStep(s.sections[m], t.sections[m], m, LinkChanged(state, plan), [])
    {
      assert SameWork(s.sections[m], u.sections[m], StartsFor([], m));
      assert SameWork(u.sections[m], t.sections[m], StartsFor([], m));
      SameSection(s.sections[m], u.sections[m], t.sections[m], m, state, plan);
    }
  }

  /** After a reconnect every tracker is fresh. */
  ghost predicate Freshened(x: Section, y: Section) {
    && y.tracker == Tracker.New(x.tracker.threshold)
    && y.groups == x.groups && y.readOnce == x.readOnce && y.hasReadOnce == x.hasReadOnce && y.reading == x.reading
  }

  lemma {:induction false} LinkUpSteps(s: HubState, plan: BatchPlan)
    ensures Steps(s, LinkChanged(Link.Connected, plan), s.HandleStateEvent(Link.Connected, plan))
  {
    var e, t := LinkChanged(Link.Connected, plan), s.HandleStateEvent(Link.Connected, plan);
    var u := s.Deliver(s.clients, StateChanged(Link.Connected));
    DeliverBegan(s, s.clients, StateChanged(Link.Connected));
    var v := u.(connected := true).ResetTrackers(u.sections.Keys);
    assert forall m :: m in s.sections ==> Freshened(u.sections[m], v.sections[m]);
    UpSteps(s, u, v, t, plan);
  }

  lemma {:induction false} UpSteps(s: HubState, u: HubState, v: HubState, t: HubState, plan: BatchPlan)
    requires Began(s, u, []) && v.sections.Keys == u.sections.Keys && t == v.RebuildBattery(2, plan)
    requires v.jobs == u.jobs && v.connected && v.stopped == u.stopped
    requires forall m :: m in s.sections ==> Freshened(u.sections[m], v.sections[m])
    ensures Steps(s, LinkChanged(Link.Connected, plan), t)
  {
    if "battery" in v.sections {
      var w := BatteryRenews(v, 2, plan);
      FreshSteps(s, u, v, w, t, plan);
    } else {
      Idles(v, t);
      FreshSteps(s, u, v, v, t, plan);
    }
  }

  lemma {:induction false} FreshSteps(s: HubState, u: HubState, v: HubState, w: HubState, t: HubState, plan: BatchPlan)
    requires Began(s, u, []) && v.sections.Keys == u.sections.Keys && Began(w, t, [])
    requires v.jobs == u.jobs && v.connected && v.stopped == u.stopped
    requires forall m :: m in s.sections ==> Freshened(u.sections[m], v.sections[m])
    requires if "battery" in v.sections then Renewed(v, w, "battery", Battery.BatteryGroups(2)) else w == v
    ensures Steps(s, LinkChanged(Link.Connected, plan), t)
  {
    forall m | m in s.sections
      ensures SectionStep(s.sections[m], t.sections[m], m, LinkChanged(Link.Connected, plan), [])
    {
      assert SameWork(s.sections[m], u.sections[m], StartsFor([], m));
      assert SameWork(w.sections[m], t.sections[m], StartsFor([], m));
      UpFields(u.sections[m], v, w, m);
      FreshSection(s.sections[m], u.sections[m], v.sections[m], w.sections[m], t.sections[m], m, plan);
    }
  }

  lemma {:induction false} UpFields(x: Section, v: HubState, w: HubState, k: string)
    requires k in v.sections && Freshened(x, v.sections[k])
    requires if "battery" in v.sections then Renewed(v, w, "battery", Battery.BatteryGroups(2)) else w == v
    ensures k in w.sections
    ensures var y, z := v.sections[k], w.sections[k];
      && z.tracker == y.tracker && z.readOnce == y.readOnce && z.hasReadOnce == y.hasReadOnce
      && z.reading == y.reading && z.groups == if k == "battery" then Battery.BatteryGroups(2) else y.groups
  {
  }

  lemma {:induction false} FreshSection(x: Section, u: Section, v: Section, w: Section, y: Section, k: string,
                                        plan: BatchPlan)
    requires SameWork(x, u, StartsFor([], k)) && Freshened(u, v) && SameWork(w, y, StartsFor([], k))
    requires w.tracker == v.tracker && w.readOnce == v.readOnce && w.hasReadOnce == v.hasReadOnce
    requires w.reading == v.reading && w.groups == if k == "battery" then Battery.BatteryGroups(2) else v.groups
    ensures SectionStep(x, y, k, LinkChanged(Link.Connected, plan), [])
  {
    NoneStarts(k);
  }

  lemma {:induction false} StopSteps(s: HubState)
    ensures Steps(s, HubCancelled, s.Shutdown())
  {
    var u := s.CloseClients(s.clients);
    CancelAllBegan(u);
    var t := s.Shutdown();
    forall m | m in s.sections
      ensures SectionStep(s.sections[m], t.sections[m], m, HubCancelled, [])
    {
      assert SameWork(u.sections[m], t.sections[m], StartsFor([], m));
    }
  }

  /** What a step outside the loop may change. */
  ghost predicate Moves(s: HubState, t: HubState, e: HubEvent) {
    && t.jobs == s.jobs && t.connected == s.connected && t.stopped == s.stopped && t.sections.Keys == s.sections.Keys
    && forall k :: k in s.sections ==> SectionMoves(s.sections[k], t.sections[k], k, e)
  }

  ghost predicate SectionMoves(x: Section, y: Section, k: string, e: HubEvent) {
    match e
    case CycleRun(_, _, _) => y == x.(tracker := y.tracker)
    case ReaderDone(n) => y == if n == k then x.(reading := false) else x
    case _ => y == x
  }

  lemma {:induction false} ElsewhereMoves(s: HubState, e: HubEvent)
    requires Outside(e)
    ensures Moves(s, Elsewhere(s, e), e)
  {
    match e
    case CycleRun(k, env, now) => CycleMoves(s, k, env, now);
    case ReaderDone(n) => ExitMoves(s, n);
    case Drained(c) => StayMoves(s, s.Drain(c), e);
  }

  lemma {:induction false} CycleMoves(s: HubState, k: nat, env: Env, now: nat)
    ensures Moves(s, s.RunCycle(k, env, now), CycleRun(k, env, now))
  {
    assert s.RunCycle(k, env, now).sections.Keys == s.sections.Keys;
  }

  lemma {:induction false} ExitMoves(s: HubState, n: string)
    ensures Moves(s, s.ReaderExit(n), ReaderDone(n))
  {
    assert s.ReaderExit(n).sections.Keys == s.sections.Keys;
  }

  lemma {:induction false} StayMoves(s: HubState, t: HubState, e: HubEvent)
    requires e.Drained? && t.sections == s.sections && t.jobs == s.jobs
    requires t.connected == s.connected && t.stopped == s.stopped
    ensures Moves(s, t, e)
  {
  }

  lemma {:induction false} MovesSteps(s: HubState, e: HubEvent, t: HubState)
    requires Outside(e) && Moves(s, t, e)
    ensures Steps(s, e, t)
  {
    forall m | m in s.sections
      ensures SectionStep(s.sections[m], t.sections[m], m, e, [])
    {
      OutsideFields(s.sections[m], t.sections[m], m, e);
    }
  }

  lemma {:induction false} OutsideFields(x: Section, y: Section, m: string, e: HubEvent)
    requires Outside(e)
    requires SectionMoves(x, y, m, e)
    ensures SectionStep(x, y, m, e, [])
  {
    NoneStarts(m);
  }

  /** Every event that the loop handles, and every step outside it, does what the table
      says. */
  lemma {:induction false} StepExactly(s: HubState, e: HubEvent)
    requires !s.stopped || Outside(e)
    ensures Steps(s, e, Advance(s, e))
  {
    if Outside(e) {
      ElsewhereMoves(s, e);
      MovesSteps(s, e, Elsewhere(s, e));
    } else {
      HandledSteps(s, e);
    }
  }

  lemma {:induction false} HandledSteps(s: HubState, e: HubEvent)
    requires !Outside(e)
    ensures Steps(s, e, Handle(s, e))
  {
    match e
    case Registered(c, state) => RegisterSteps(s, c, state);
    case Unregistered(c) => RemoveBegan(s, c); BeganSteps(s, e, s.RemoveClient(c));
    case Subscribe(c, n) => SubscribeSteps(s, c, n);
    case Unsubscribe(c, n) => UnsubscribeBegan(s, c, n); BeganSteps(s, e, s.UnsubscribeClient(c, n));
    case RefreshAsked(n) => RefreshSteps(s, n);
    case CycleAsked(n) => CycleSteps(s, n);
    case PackSelected(tower, pack) => SelectSteps(s, tower, pack);
    case PvConfigured(channels, plan) => PvSteps(s, channels, plan);
    case DisconnectAsked => CancelAllBegan(s); BeganSteps(s, e, s.CancelReads(s.sections.Keys));
    case LinkChanged(state, plan) =>
      if state.Connected? {
        LinkUpSteps(s, plan);
      } else {
        LinkDownSteps(s, state, plan);
      }
    case ResultRead(n, m) => ResultSteps(s, n, m);
    case BatteryDetected(count, plan) => DetectedSteps(s, count, plan);
    case HubCancelled => StopSteps(s);
    case _ =>
  }

  /** A reader's cycle gives the tracker of its section what the cycle of that section's plan
      leaves, and changes no other section; a pack's reader changes none. */
  lemma {:induction false} CycleRunExactly(s: HubState, k: nat, env: Env, now: nat, n: string)
    requires n in s.sections
    ensures var t, x := Advance(s, CycleRun(k, env, now)), s.sections[n];
      && n in t.sections
      && t.sections[n] ==
         if k < |s.jobs| && s.jobs[k] == Job(n, None)
         then x.(tracker := ReadCycle(env, x.plan.spans, x.probes, History(now, x.tracker, [], [])).tracker)
         else x
  {
  }

  // ---- runs ----

  /** The last change of the link among these events was a connection. */
  function LinkIsUp(es: seq<HubEvent>): bool {
    es != [] && LinkAfter(LinkIsUp(es[..|es| - 1]), es[|es| - 1])
  }

  /** A completed reading of the section came last, and no refresh after it. */
  predicate ReadDone(es: seq<HubEvent>, n: string) {
    es != [] &&
    var e := es[|es| - 1];
    if e.ResultRead? && e.n == n && e.m.Complete? then true
    else if e == RefreshAsked(n) then false
    else ReadDone(es[..|es| - 1], n)
  }

  predicate HasStopped(es: seq<HubEvent>) {
    exists i :: 0 <= i < |es| && es[i].HubCancelled?
  }

  /** What the i-th event starts; nothing once the hub has stopped. */
  function Begins(s: HubState, e: HubEvent): seq<Job> {
    if s.stopped then [] else Starts(s, e)
  }

  /** A read of the section was started, and no reader of it has ended since. */
  predicate ReaderMarked(states: seq<HubState>, es: seq<HubEvent>, i: nat, n: string)
    requires |states| == |es| + 1 && i <= |es|
  {
    i > 0 &&
    (StartsFor(Begins(states[i - 1], es[i - 1]), n)
     || (ReaderMarked(states, es, i - 1, n) && es[i - 1] != ReaderDone(n)))
  }

  /** The flags of the i-th state as the events before it say. */
  ghost predicate FlagsOf(sections: map<string, Section>, states: seq<HubState>, es: seq<HubEvent>, i: nat)
    requires |states| == |es| + 1 && i <= |es|
  {
    var s := states[i];
    && s.sections.Keys == sections.Keys && (s.stopped <==> HasStopped(es[..i]))
    && (!s.stopped ==> (s.connected <==> LinkIsUp(es[..i])))
    && forall n :: n in sections ==>
         && s.sections[n].readOnce == sections[n].readOnce
         && (!s.stopped ==> (s.sections[n].hasReadOnce <==> sections[n].readOnce && ReadDone(es[..i], n)))
         && (s.sections[n].reading <==> ReaderMarked(states, es, i, n))
  }

  /** So it is in every state of every run. */
  lemma {:induction false} RunFlags(sections: map<string, Section>, states: seq<HubState>, es: seq<HubEvent>, i: nat)
    requires HubRun(sections, states, es) && i <= |es|
    ensures FlagsOf(sections, states, es, i)
  {
    if i > 0 {
      RunFlags(sections, states, es, i - 1);
      assert Happens(states[i - 1], es[i - 1], states[i - 1 + 1]);
      FlagsNext(sections, states, es, i);
    }
  }

  lemma {:induction false} FlagsNext(sections: map<string, Section>, states: seq<HubState>, es: seq<HubEvent>, i: nat)
    requires |states| == |es| + 1 && 0 < i <= |es| && FlagsOf(sections, states, es, i - 1)
    requires states[i] == Advance(states[i - 1], es[i - 1])
    ensures FlagsOf(sections, states, es, i)
  {
    if states[i - 1].stopped && !Outside(es[i - 1]) {
      FlagsStay(sections, states, es, i);
    } else {
      StepExactly(states[i - 1], es[i - 1]);
      FlagsStep(sections, states, es, i);
    }
  }

  lemma {:induction false} FlagsStay(sections: map<string, Section>, states: seq<HubState>, es: seq<HubEvent>, i: nat)
    requires |states| == |es| + 1 && 0 < i <= |es| && FlagsOf(sections, states, es, i - 1)
    requires states[i] == states[i - 1] && states[i].stopped && !es[i - 1].ReaderDone?
    ensures FlagsOf(sections, states, es, i)
  {
    assert es[..i] == es[..i - 1] + [es[i - 1]];
    forall n | n in sections
      ensures ReaderMarked(states, es, i, n) <==> ReaderMarked(states, es, i - 1, n)
    {
      NoneStarts(n);
    }
  }

  lemma {:induction false} FlagsStep(sections: map<string, Section>, states: seq<HubState>, es: seq<HubEvent>, i: nat)
    requires |states| == |es| + 1 && 0 < i <= |es| && FlagsOf(sections, states, es, i - 1)
    requires Steps(states[i - 1], es[i - 1], states[i]) && (!states[i - 1].stopped || Outside(es[i - 1]))
    ensures FlagsOf(sections, states, es, i)
  {
    var s, t, e := states[i - 1], states[i], es[i - 1];
    assert es[..i] == es[..i - 1] + [e] && es[..i][..|es[..i]| - 1] == es[..i - 1];
    forall n | n in sections
      ensures t.sections[n].readOnce == sections[n].readOnce
      ensures !t.stopped ==> (t.sections[n].hasReadOnce <==> sections[n].readOnce && ReadDone(es[..i], n))
      ensures t.sections[n].reading <==> ReaderMarked(states, es, i, n)
    {
      assert SectionStep(s.sections[n], t.sections[n], n, e, Starts(s, e));
      NoneStarts(n);
      if s.stopped {
        assert Starts(s, e) == [];
      }
    }
  }

  /** A read cycle that a client asks for starts a read exactly if the hub runs, the last
      change of the link was a connection, the section exists and has a subscriber, no read of
      it was started whose reader has not ended, and it is not a read-once section completed
      since the last refresh. The read is of the section, or of the selected battery pack. */
  lemma {:induction false} CycleStartsExactly(sections: map<string, Section>, states: seq<HubState>, es: seq<HubEvent>,
                                              i: nat, n: string)
    requires HubRun(sections, states, es) && i < |es| && es[i] == CycleAsked(n)
    ensures n in sections ==> n in states[i].sections
    ensures var s := states[i];
      var due :=
        && !HasStopped(es[..i]) && LinkIsUp(es[..i]) && n in sections && s.sections[n].subscribers != {}
        && !ReaderMarked(states, es, i, n) && !(sections[n].readOnce && ReadDone(es[..i], n));
      states[i + 1].jobs == s.jobs + if due then [Job(n, if n == "bms" then s.selectedPack else None)] else []
  {
    RunFlags(sections, states, es, i);
    assert Happens(states[i], es[i], states[i + 1]);
    CycleAppends(states[i], states[i + 1], n);
  }

  lemma {:induction false} CycleAppends(s: HubState, t: HubState, n: string)
    requires t == Advance(s, CycleAsked(n))
    ensures t.jobs == s.jobs + if s.stopped || !MayCycle(s, n) then []
                               else [Job(n, if n == "bms" then s.selectedPack else None)]
  {
    if !s.stopped {
      StepExactly(s, CycleAsked(n));
    }
  }
}
