/** Which reads are live after each event: when a read is cancelled, and when it goes on. */
module HubReads {
  import opened Registers
  import opened BatchPlanner
  import opened BatchPlanTheorems
  import opened HubModel
  import opened HubTheorems
  import opened HubSteps
  import opened HubClients
  import Link = BrokerModel
  import Battery

  // ---- the table ----

  /** The event cancels the read of the section, if there is one: on request, or because the
      link is lost; because a subscriber moves to another section; or because nobody is left
      after somebody has left, or come and been lost. */
  predicate Cancels(s: HubState, e: HubEvent, t: HubState, n: string)
    requires n in s.sections && n in t.sections
  {
    || e.DisconnectAsked?
    || (e.LinkChanged? && (e.state.Disconnected? || e.state.Reconnecting?))
    || (e.Subscribe? && s.PeerOf(e.c).section == n && e.n != n)
    || ((e.Unsubscribe? || e.Subscribe?) && e.n == n && t.sections[n].subscribers == {})
    || (s.sections[n].subscribers != {} && t.sections[n].subscribers == {})
  }

  /** The read context that a section holds afterwards. */
  ghost predicate HeldStep(s: HubState, e: HubEvent, t: HubState, n: string)
    requires n in s.sections
  {
    n in t.sections
    && t.sections[n].readCancel ==
       if StartsFor(Starts(s, e), n) then Some(|s.jobs|)
       else if Cancels(s, e, t, n) then None
       else s.sections[n].readCancel
  }

  // ---- one operation ----

  lemma {:induction false} CancelHeld(s: HubState, m: string, n: string)
    requires n in s.sections
    ensures var t := s.CancelRead(m);
      n in t.sections && t.sections[n] == if n == m then s.sections[n].(readCancel := None) else s.sections[n]
  {
  }

  lemma {:induction false} StartHeld(s: HubState, m: string, pack: Option<Pack>, n: string)
    requires m in s.sections && n in s.sections
    ensures var t := s.StartRead(m, pack);
      && n in t.sections && t.sections[n].subscribers == s.sections[n].subscribers
      && t.sections[n].readCancel == if n == m then Some(|s.jobs|) else s.sections[n].readCancel
  {
    CancelHeld(s, m, n);
  }

  lemma {:induction false} UnsubscribeHeld(s: HubState, c: ClientId, m: string, n: string)
    requires n in s.sections
    ensures var t := s.UnsubscribeClient(c, m);
      && n in t.sections
      && t.sections[n].subscribers == (if n == m then s.sections[n].subscribers - {c} else s.sections[n].subscribers)
      && t.sections[n].readCancel ==
         if n == m && t.sections[n].subscribers == {} then None else s.sections[n].readCancel
  {
  }

  lemma {:induction false} RemoveHeld(s: HubState, c: ClientId, n: string)
    requires Linked(s) && n in s.sections
    ensures var t := s.RemoveClient(c);
      && n in t.sections && t.sections[n].subscribers == s.sections[n].subscribers - {c}
      && t.sections[n].readCancel ==
         if s.PeerOf(c).section == n && t.sections[n].subscribers == {} then None else s.sections[n].readCancel
  {
    if c in s.clients && s.PeerOf(c).section != "" {
      UnsubscribeHeld(s, c, s.PeerOf(c).section, n);
    }
    assert c in s.sections[n].subscribers <==> s.PeerOf(c).section == n;
  }

  /** A client that is lost leaves its section, and others nothing. */
  lemma {:induction false} SendHeld(s: HubState, c: ClientId, m: Packet, n: string)
    requires Linked(s) && n in s.sections && !s.PeerOf(c).closed
    ensures var t, lost := s.SendToClient(c, m), s.PeerOf(c).Full();
      && n in t.sections
      && t.sections[n].subscribers == (if lost then s.sections[n].subscribers - {c} else s.sections[n].subscribers)
      && t.sections[n].readCancel ==
         if lost && s.PeerOf(c).section == n && t.sections[n].subscribers == {} then None
         else s.sections[n].readCancel
  {
    RemoveHeld(s, c, n);
  }

  lemma {:induction false} DeliverHeld(s: HubState, cs: set<ClientId>, m: Packet, n: string)
    requires n in s.sections
    ensures var t := s.Deliver(cs, m);
      && n in t.sections
      && t.sections[n].readCancel ==
         if s.sections[n].subscribers != {} && t.sections[n].subscribers == {} then None else s.sections[n].readCancel
    ensures s.sections[n].subscribers == {} ==> s.Deliver(cs, m).sections[n].subscribers == {}
  {
    var t, slow, subs := s.Deliver(cs, m), s.Slow(cs), s.sections[n].subscribers;
    assert t.sections[n] == s.SectionAfter(n, slow);
    forall c | c in subs && subs - slow == {}
      ensures c in slow
    {
      assert c !in subs - slow;
    }
    if subs <= slow && subs != {} {
      assert subs * slow == subs;
    }
  }

  // ---- one event ----

  lemma {:induction false} RegisterHeld(s: HubState, c: ClientId, state: Link.ConnState, n: string)
    requires Linked(s) && n in s.sections && !s.PeerOf(c).closed
    ensures HeldStep(s, Registered(c, state), s.Register(c, state), n)
  {
    var u := s.(clients := s.clients + {c});
    NoneStarts(n);
    AdmitLinked(s, c);
    SendHeld(u, c, StateChanged(state), n);
    assert c in s.sections[n].subscribers <==> s.PeerOf(c).section == n;
  }

  lemma {:induction false} UnregisterHeld(s: HubState, c: ClientId, n: string)
    requires Linked(s) && n in s.sections
    ensures HeldStep(s, Unregistered(c), s.RemoveClient(c), n)
  {
    NoneStarts(n);
    RemoveHeld(s, c, n);
    assert c in s.sections[n].subscribers <==> s.PeerOf(c).section == n;
  }

  lemma {:induction false} UnsubscribesHeld(s: HubState, c: ClientId, m: string, n: string)
    requires n in s.sections
    ensures HeldStep(s, Unsubscribe(c, m), s.UnsubscribeClient(c, m), n)
  {
    NoneStarts(n);
    UnsubscribeHeld(s, c, m, n);
  }

  lemma {:induction false} MovingHeld(s: HubState, c: ClientId, m: string, n: string)
    requires Linked(s) && n in s.sections
    ensures var u, away := Moving(s, c, m), s.PeerOf(c).section == n && m != n;
      && n in u.sections
      && u.sections[n].subscribers == (if away then s.sections[n].subscribers - {c} else s.sections[n].subscribers)
      && u.sections[n].readCancel == if away then None else s.sections[n].readCancel
  {
    var before := s.PeerOf(c).section;
    if before != "" && before != m {
      CancelHeld(s, before, n);
      UnsubscribeHeld(s.CancelRead(before), c, before, n);
    }
  }

  lemma {:induction false} SeatedHeld(s: HubState, c: ClientId, m: string, n: string)
    requires m in s.sections && n in s.sections
    ensures var u := Seated(s, c, m);
      && n in u.sections && u.sections[n].readCancel == s.sections[n].readCancel
      && u.sections[n].subscribers == if n == m then s.sections[n].subscribers + {c} else s.sections[n].subscribers
  {
  }

  /** Joining: a client without room is lost at once, one with room starts a read, or is told
      that there is no connection, for which there may again be no room. */
  lemma {:induction false} JoinHeld(s: HubState, c: ClientId, m: string, n: string)
    requires Linked(s) && m in s.sections && n in s.sections && c in s.clients && !s.PeerOf(c).closed
    requires s.PeerOf(c).section == "" || s.PeerOf(c).section == m
    ensures var t := s.Join(c, m);
      && n in t.sections
      && t.sections[n].readCancel ==
         (if s.connected && HasRoom(s, c) && n == m then Some(|s.jobs|)
          else if n == m && t.sections[n].subscribers == {} then None
          else s.sections[n].readCancel)
      && (n != m ==> t.sections[n].subscribers == s.sections[n].subscribers)
      && (s.connected && HasRoom(s, c) && n == m ==> t.sections[n].subscribers != {})
  {
    var u, schema := Seated(s, c, m), Schema(m, s.sections[m].groups);
    SeatedLinked(s, c, m);
    SeatedHeld(s, c, m, n);
    SeatedTouches(s, c, m, c);
    assert c in s.sections[n].subscribers <==> s.PeerOf(c).section == n;
    if s.PeerOf(c).Full() {
      RemoveHeld(u, c, n);
    } else {
      var v := u.SendToClient(c, schema);
      SendHeld(u, c, schema, n);
      SendBegan(u, c, schema);
      SendTouches(u, c, schema, c);
      EnqueueLinked(u, c, schema);
      StartHeld(v, m, None, n);
      SendHeld(v, c, Problem(m, NOT_CONNECTED), n);
    }
  }

  lemma {:induction false} SubscribeHeld(s: HubState, c: ClientId, m: string, n: string)
    requires Linked(s) && ChannelOk(s, c) && c in s.clients && n in s.sections
    ensures HeldStep(s, Subscribe(c, m), s.SubscribeClient(c, m), n)
  {
    var u := Moving(s, c, m);
    MovingTouches(s, c, m, c);
    MovingHeld(s, c, m, n);
    MovingBegan(s, c, m);
    if m in s.sections {
      JoinHeld(u, c, m, n);
      JoinedStep(s, u, c, m, n);
    } else {
      NoneStarts(n);
      SendHeld(u, c, Problem(m, UNKNOWN_SECTION), n);
      assert u.PeerOf(c).section == "";
      assert c in s.sections[n].subscribers <==> s.PeerOf(c).section == n;
    }
  }

  lemma {:induction false} JoinedStep(s: HubState, u: HubState, c: ClientId, m: string, n: string)
    requires Linked(s) && Linked(u) && m in s.sections && n in s.sections && u == Moving(s, c, m)
    requires n in u.sections && m in u.sections && Began(s, u, [])
    requires u.PeerOf(c).queue == s.PeerOf(c).queue && u.PeerOf(c).closed == s.PeerOf(c).closed
    requires var away := s.PeerOf(c).section == n && m != n;
      && u.sections[n].subscribers == (if away then s.sections[n].subscribers - {c} else s.sections[n].subscribers)
      && u.sections[n].readCancel == if away then None else s.sections[n].readCancel
    requires var t := u.Join(c, m);
      && n in t.sections
      && t.sections[n].readCancel ==
         (if u.connected && HasRoom(u, c) && n == m then Some(|u.jobs|)
          else if n == m && t.sections[n].subscribers == {} then None
          else u.sections[n].readCancel)
      && (n != m ==> t.sections[n].subscribers == u.sections[n].subscribers)
    ensures HeldStep(s, Subscribe(c, m), u.Join(c, m), n)
  {
    var js := Starts(s, Subscribe(c, m));
    if js != [] {
      assert js[0].section == m;
      assert StartsFor(js, n) <==> n == m;
    } else {
      NoneStarts(n);
    }
  }

  /** Other events that start a read, from a state in which contexts and subscribers are those
      of s. */
  lemma {:induction false} StartedStep(s: HubState, e: HubEvent, u: HubState, job: Job, n: string)
    requires n in s.sections && n in u.sections && job.section in u.sections && |u.jobs| == |s.jobs|
    requires u.sections[n].readCancel == s.sections[n].readCancel
    requires u.sections[n].subscribers == s.sections[n].subscribers
    requires Starts(s, e) == [job] && (e.RefreshAsked? || e.CycleAsked? || e.PackSelected? || e.PvConfigured?)
    ensures HeldStep(s, e, u.StartRead(job.section, job.pack), n)
  {
    StartHeld(u, job.section, job.pack, n);
    assert Starts(s, e)[0] == job;
    assert StartsFor(Starts(s, e), n) <==> n == job.section;
  }

  lemma {:induction false} UnstartedStep(s: HubState, e: HubEvent, u: HubState, n: string)
    requires n in s.sections && n in u.sections && u.sections[n].readCancel == s.sections[n].readCancel
    requires u.sections[n].subscribers == s.sections[n].subscribers
    requires Starts(s, e) == [] && (e.RefreshAsked? || e.CycleAsked? || e.PackSelected? || e.PvConfigured?)
    ensures HeldStep(s, e, u, n)
  {
    NoneStarts(n);
  }

  lemma {:induction false} RefreshHeld(s: HubState, m: string, n: string)
    requires n in s.sections
    ensures HeldStep(s, RefreshAsked(m), s.Refresh(m), n)
  {
    if m in s.sections {
      var u := if s.sections[m].readOnce then s.(sections := s.sections[m := s.sections[m].(hasReadOnce := false)])
               else s;
      StartedStep(s, RefreshAsked(m), u, Job(m, None), n);
    } else {
      UnstartedStep(s, RefreshAsked(m), s, n);
    }
  }

  lemma {:induction false} CycleHeld(s: HubState, m: string, n: string)
    requires n in s.sections
    ensures HeldStep(s, CycleAsked(m), s.HandleReadCycle(m), n)
  {
    if MayCycle(s, m) {
      StartedStep(s, CycleAsked(m), s, Job(m, if m == "bms" then s.selectedPack else None), n);
    } else {
      UnstartedStep(s, CycleAsked(m), s, n);
    }
  }

  lemma {:induction false} SelectHeld(s: HubState, tower: int, pack: int, n: string)
    requires n in s.sections
    ensures HeldStep(s, PackSelected(tower, pack), s.HandleSelectPack(tower, pack), n)
  {
    var chosen := Some(Pack(Near(tower, 1, 2), Near(pack, 1, 10)));
    var u := s.(selectedPack := chosen);
    if "bms" in s.sections {
      StartedStep(s, PackSelected(tower, pack), u, Job("bms", chosen), n);
    } else {
      UnstartedStep(s, PackSelected(tower, pack), u, n);
    }
  }

  lemma {:induction false} PvHeld(s: HubState, channels: int, plan: BatchPlan, n: string)
    requires n in s.sections
    ensures HeldStep(s, PvConfigured(channels, plan), s.ConfigurePv(channels, plan), n)
  {
    var e := PvConfigured(channels, plan);
    if "pv" in s.sections {
      var u := s.Rebuild("pv", PvGroupsFor(channels), plan);
      if s.connected && s.sections["pv"].subscribers != {} {
        StartedStep(s, e, u, Job("pv", None), n);
      } else {
        UnstartedStep(s, e, u, n);
      }
    } else {
      UnstartedStep(s, e, s, n);
    }
  }

  /** Broadcasts: a section that loses all its subscribers loses its read. */
  ghost predicate Dropping(s: HubState, t: HubState, n: string)
    requires n in s.sections
  {
    n in t.sections
    && t.sections[n].readCancel ==
       if s.sections[n].subscribers != {} && t.sections[n].subscribers == {} then None else s.sections[n].readCancel
  }

  lemma {:induction false} BroadcastHeld(s: HubState, m: string, p: Packet, n: string)
    requires n in s.sections
    ensures Dropping(s, s.BroadcastToSection(m, p), n)
  {
    if m in s.sections {
      DeliverHeld(s, s.sections[m].subscribers, p, n);
    }
  }

  lemma {:induction false} ResultHeld(s: HubState, m: string, p: Packet, n: string)
    requires n in s.sections
    ensures HeldStep(s, ResultRead(m, p), s.HandleResult(m, p), n)
  {
    NoneStarts(n);
    MarkedMarks(s, m, p);
    BroadcastHeld(Marked(s, m, p), m, p, n);
  }

  lemma {:induction false} RebuildHeld(s: HubState, count: nat, plan: BatchPlan, n: string)
    requires n in s.sections
    ensures Dropping(s, s.RebuildBattery(count, plan), n)
    ensures n != "battery" && Linked(s) ==>
              s.RebuildBattery(count, plan).sections[n].subscribers == s.sections[n].subscribers
  {
    if "battery" in s.sections {
      var groups := Battery.BatteryGroups(count);
      var u := s.Rebuild("battery", groups, plan);
      BroadcastHeld(u, "battery", Schema("battery", groups), n);
      if n != "battery" && Linked(s) {
        OthersStay(s, u, groups, n);
      }
    }
  }

  lemma {:induction false} OthersStay(s: HubState, u: HubState, groups: seq<ProbeGroup>, n: string)
    requires Linked(s) && n in s.sections && n != "battery" && "battery" in s.sections
    requires u.sections.Keys == s.sections.Keys && u.sections[n] == s.sections[n] && u.peers == s.peers
    requires u.sections["battery"].subscribers == s.sections["battery"].subscribers
    ensures var t := u.BroadcastToSection("battery", Schema("battery", groups));
      n in t.sections && t.sections[n].subscribers == s.sections[n].subscribers
  {
    var slow := u.Slow(u.sections["battery"].subscribers);
    forall c | c in s.sections[n].subscribers
      ensures c !in slow
    {
      assert s.PeerOf(c).section == n;
      assert c in s.sections["battery"].subscribers <==> s.PeerOf(c).section == "battery";
    }
    var t := u.BroadcastToSection("battery", Schema("battery", groups));
    assert t.sections[n] == u.SectionAfter(n, slow);
    assert s.sections[n].subscribers - slow == s.sections[n].subscribers;
  }

  lemma {:induction false} DetectedHeld(s: HubState, count: nat, plan: BatchPlan, n: string)
    requires n in s.sections && Linked(s)
    ensures HeldStep(s, BatteryDetected(count, plan), s.ChannelsDetected(count, plan), n)
  {
    var u := s.RebuildBattery(count, plan);
    RebuildHeld(s, count, plan, n);
    if "battery" in s.sections {
      var w := BatteryRenews(s, count, plan);
      assert u.sections.Keys == s.sections.Keys && |u.jobs| == |s.jobs|;
      StartHeld(u, "battery", None, n);
      assert Starts(s, BatteryDetected(count, plan))[0] == Job("battery", None);
      assert StartsFor(Starts(s, BatteryDetected(count, plan)), n) <==> n == "battery";
    } else {
      NoneStarts(n);
    }
  }

  lemma {:induction false} LinkHeld(s: HubState, state: Link.ConnState, plan: BatchPlan, n: string)
    requires Running(s) && Admissible(s, LinkChanged(state, plan)) && n in s.sections
    ensures HeldStep(s, LinkChanged(state, plan), s.HandleStateEvent(state, plan), n)
  {
    DeliverHeld(s, s.clients, StateChanged(state), n);
    ToldHeld(s, s.Deliver(s.clients, StateChanged(state)), state, plan, n);
  }

  lemma {:induction false} ToldHeld(s: HubState, u: HubState, state: Link.ConnState, plan: BatchPlan, n: string)
    requires n in s.sections && n in u.sections && Dropping(s, u, n)
    requires s.sections[n].subscribers == {} ==> u.sections[n].subscribers == {}
    requires u == s.Deliver(s.clients, StateChanged(state))
    ensures HeldStep(s, LinkChanged(state, plan), s.HandleStateEvent(state, plan), n)
  {
    if state.Connected? {
      UpHeld(u, plan, n);
      UpStep(s, u, u.ComeUp(2, plan), plan, n);
    } else {
      DownStep(s, u, state, plan, n);
    }
  }

  lemma {:induction false} UpStep(s: HubState, u: HubState, t: HubState, plan: BatchPlan, n: string)
    requires n in s.sections && n in u.sections && Dropping(s, u, n) && Dropping(u, t, n)
    requires s.sections[n].subscribers == {} ==> u.sections[n].subscribers == {}
    requires u.sections[n].subscribers == {} ==> t.sections[n].subscribers == {}
    ensures HeldStep(s, LinkChanged(Link.Connected, plan), t, n)
  {
    NoneStarts(n);
  }

  lemma {:induction false} DownStep(s: HubState, u: HubState, state: Link.ConnState, plan: BatchPlan, n: string)
    requires n in s.sections && n in u.sections && Dropping(s, u, n) && !state.Connected?
    requires u == s.Deliver(s.clients, StateChanged(state))
    ensures HeldStep(s, LinkChanged(state, plan), s.HandleStateEvent(state, plan), n)
  {
    NoneStarts(n);
    match state
    case Disconnected => AllCancelled(u, n);
    case Reconnecting => AllCancelled(u, n);
    case _ =>
  }

  lemma {:induction false} AllCancelled(u: HubState, n: string)
    requires n in u.sections
    ensures var t := u.(connected := false).CancelReads(u.sections.Keys);
      n in t.sections && t.sections[n] == u.sections[n].(readCancel := None)
  {
  }

  lemma {:induction false} UpHeld(u: HubState, plan: BatchPlan, n: string)
    requires n in u.sections
    ensures Dropping(u, u.ComeUp(2, plan), n)
    ensures u.sections[n].subscribers == {} ==> u.ComeUp(2, plan).sections[n].subscribers == {}
  {
    var v := Freshed(u);
    assert v.sections.Keys == u.sections.Keys;
    RebuildHeld(v, 2, plan, n);
  }

  lemma {:induction false} SomeHeld(s: HubState, e: HubEvent, n: string)
    requires Running(s) && Admissible(s, e) && !Outside(e) && !e.HubCancelled? && !ConcernsNone(e) && n in s.sections
    ensures HeldStep(s, e, Handle(s, e), n)
  {
    match e
    case LinkChanged(state, plan) => LinkHeld(s, state, plan, n);
    case ResultRead(m, p) => ResultHeld(s, m, p, n);
    case BatteryDetected(count, plan) => DetectedHeld(s, count, plan, n);
    case _ => CommandHeld(s, e, n);
  }

  lemma {:induction false} CommandHeld(s: HubState, e: HubEvent, n: string)
    requires Running(s) && Admissible(s, e) && n in s.sections
    requires e.Registered? || e.Unregistered? || e.Subscribe? || e.Unsubscribe?
    ensures HeldStep(s, e, Handle(s, e), n)
  {
    match e
    case Registered(c, state) => RegisterHeld(s, c, state, n);
    case Unregistered(c) => UnregisterHeld(s, c, n);
    case Subscribe(c, m) => assert ChannelOk(s, c); SubscribeHeld(s, c, m, n);
    case Unsubscribe(c, m) => UnsubscribesHeld(s, c, m, n);
  }

  lemma {:induction false} NoneHeld(s: HubState, e: HubEvent, n: string)
    requires ConcernsNone(e) && n in s.sections
    ensures HeldStep(s, e, Handle(s, e), n)
  {
    match e
    case RefreshAsked(m) => RefreshHeld(s, m, n);
    case CycleAsked(m) => CycleHeld(s, m, n);
    case PackSelected(tower, pack) => SelectHeld(s, tower, pack, n);
    case PvConfigured(channels, plan) => PvHeld(s, channels, plan, n);
    case DisconnectAsked => NoneStarts(n);
  }

  /** The context that each section holds after every event is the one said above. */
  lemma {:induction false} HeldExactly(s: HubState, e: HubEvent, n: string)
    requires Running(s) && Admissible(s, e) && !Outside(e) && !e.HubCancelled? && n in s.sections
    ensures HeldStep(s, e, Handle(s, e), n)
  {
    if ConcernsNone(e) {
      NoneHeld(s, e, n);
    } else {
      SomeHeld(s, e, n);
    }
  }

  /** What becomes of the k-th read in a step from s to t: it goes on exactly if it was live
      and the event neither replaces nor cancels the read of its section; if the event starts
      it, it is live. */
  ghost predicate LiveStep(s: HubState, e: HubEvent, t: HubState, k: nat) {
    && (k < |s.jobs| ==>
          var n := s.jobs[k].section;
          k in t.live <==>
          k in s.live && n in s.sections && n in t.sections && !StartsFor(Starts(s, e), n) && !Cancels(s, e, t, n))
    && (|s.jobs| <= k < |t.jobs| ==> k in t.live)
  }

  lemma {:induction false} LiveExactly(s: HubState, e: HubEvent, k: nat)
    requires Running(s) && Admissible(s, e) && !Outside(e) && !e.HubCancelled?
    ensures LiveStep(s, e, Handle(s, e), k)
  {
    var t := Handle(s, e);
    HandleGood(s, e);
    HandledSteps(s, e);
    forall n | n in s.sections
      ensures HeldStep(s, e, t, n)
    {
      HeldExactly(s, e, n);
    }
    OldRead(s, e, t, k);
    NewRead(s, e, t, k);
  }

  lemma {:induction false} OldRead(s: HubState, e: HubEvent, t: HubState, k: nat)
    requires Readers(s) && Readers(t) && t.jobs == s.jobs + Starts(s, e) && t.sections.Keys == s.sections.Keys
    requires forall n :: n in s.sections ==> HeldStep(s, e, t, n)
    ensures k < |s.jobs| ==>
      var n := s.jobs[k].section;
      k in t.live <==>
      k in s.live && n in s.sections && n in t.sections && !StartsFor(Starts(s, e), n) && !Cancels(s, e, t, n)
  {
    if k < |s.jobs| {
      var n := s.jobs[k].section;
      assert t.jobs[k] == s.jobs[k];
      assert n in s.sections ==> HeldStep(s, e, t, n) && HoldsLive(s, n) && HoldsLive(t, n);
      assert k in s.live ==> IsHeld(s, k);
      assert k in t.live ==> IsHeld(t, k);
    }
  }

  lemma {:induction false} NewRead(s: HubState, e: HubEvent, t: HubState, k: nat)
    requires Readers(t) && t.jobs == s.jobs + Starts(s, e)
    requires forall n :: n in s.sections ==> HeldStep(s, e, t, n)
    ensures |s.jobs| <= k < |t.jobs| ==> k in t.live
  {
    if |s.jobs| <= k < |t.jobs| {
      var job := Starts(s, e)[k - |s.jobs|];
      OneStart(s, e, job);
      NewlyHeld(s, e, t, job.section);
    }
  }

  lemma {:induction false} NewlyHeld(s: HubState, e: HubEvent, t: HubState, n: string)
    requires n in s.sections && HeldStep(s, e, t, n) && StartsFor(Starts(s, e), n) && Readers(t)
    ensures |s.jobs| in t.live
  {
    assert HoldsLive(t, n);
  }

  lemma {:induction false} OneStart(s: HubState, e: HubEvent, job: Job)
    requires job in Starts(s, e)
    ensures |Starts(s, e)| == 1 && job.section in s.sections && StartsFor(Starts(s, e), job.section)
  {
  }

  // ---- shutdown ----

  /** When the hub stops, no client is left, the channel of every one that was registered is
      closed, and no read is live. */
  lemma {:induction false} StopsAll(s: HubState, c: ClientId)
    requires Running(s)
    ensures var t := Handle(s, HubCancelled);
      t.clients == {} && t.live == {} && t.stopped && (c in s.clients ==> t.PeerOf(c).closed)
  {
    ShutdownGood(s);
  }
}
