/** What the hub keeps over every run: subscriptions, read contexts, cached plans and
    send channels stay consistent. */
module HubTheorems {
  import opened Registers
  import opened BatchPlanner
  import opened BatchPlanTheorems
  import opened SpanTrackers
  import opened ReadCycles
  import opened CycleTheorems
  import opened HubModel
  import Link = BrokerModel
  import Battery
  import Pv

  // ---- the invariants ----

  /** The context a section holds is live and was made for it. */
  ghost predicate HoldsLive(s: HubState, n: string)
    requires n in s.sections
  {
    var held := s.sections[n].readCancel;
    held.Some? ==> held.value in s.live && held.value < |s.jobs| && s.jobs[held.value].section == n
  }

  /** A live context is the one its section holds. */
  ghost predicate IsHeld(s: HubState, k: nat) {
    && k < |s.jobs| && s.jobs[k].section in s.sections
    && s.sections[s.jobs[k].section].readCancel == Some(k)
  }

  ghost predicate Readers(s: HubState) {
    && (forall n :: n in s.sections ==> HoldsLive(s, n))
    && (forall k :: k in s.live ==> IsHeld(s, k))
  }

  ghost predicate Addressable(p: Pack) {
    1 <= p.tower <= Battery.TOWERS && 1 <= p.pack <= Battery.PACKS_PER_TOWER
  }

  ghost predicate Packs(s: HubState) {
    && (s.selectedPack.Some? ==> Addressable(s.selectedPack.value))
    && forall k :: 0 <= k < |s.jobs| && s.jobs[k].pack.Some? ==> Addressable(s.jobs[k].pack.value)
  }

  ghost predicate StartsSpan(plan: BatchPlan, a: word) {
    exists k :: 0 <= k < |plan.spans| && plan.spans[k].start == a
  }

  /** The tracker is consistent and remembers nothing but spans of this plan. */
  ghost predicate Tracks(t: Tracker, plan: BatchPlan) {
    && TrackerOk(t) && t.threshold == DEFAULT_THRESHOLD
    && forall a: word :: t.At(a) != FRESH ==> StartsSpan(plan, a)
  }

  /** A section's probes and plan are those of its groups. */
  ghost predicate Cached(sec: Section) {
    && NoWrap(Real(Flatten(sec.groups))) && sec.probes == FlattenProbes(sec.groups) && IsPlan(sec.groups, sec.plan)
    && Tracks(sec.tracker, sec.plan)
  }

  ghost predicate Caches(s: HubState) {
    forall n :: n in s.sections ==> Cached(s.sections[n])
  }

  /** No queue overflows, and the channels of registered clients are open. */
  ghost predicate ChannelOk(s: HubState, c: ClientId) {
    |s.PeerOf(c).queue| <= SEND_BUFFER && (c in s.clients ==> !s.PeerOf(c).closed)
  }

  ghost predicate Channels(s: HubState) {
    forall c :: ChannelOk(s, c)
  }

  ghost predicate Good(s: HubState) {
    (s.stopped || Linked(s)) && Readers(s) && Packs(s) && Caches(s) && Channels(s)
  }

  /** t is as good as s, and panicked only if s had or `late` says so. */
  ghost predicate Keeps(s: HubState, t: HubState, late: bool) {
    Good(t) && t.stopped == s.stopped && (t.panicked <==> s.panicked || late)
  }

  ghost predicate Running(s: HubState) {
    Good(s) && !s.stopped
  }

  // ---- frames ----

  ghost predicate SameCache(x: Section, y: Section) {
    x.groups == y.groups && x.probes == y.probes && x.plan == y.plan && x.tracker == y.tracker
  }

  ghost predicate SameCaches(s: HubState, t: HubState) {
    && t.sections.Keys == s.sections.Keys
    && forall n :: n in s.sections ==> SameCache(s.sections[n], t.sections[n])
  }

  lemma {:induction false} CachesFrame(s: HubState, t: HubState)
    requires Caches(s) && SameCaches(s, t)
    ensures Caches(t)
  {
    forall n | n in t.sections
      ensures Cached(t.sections[n])
    {
      assert Cached(s.sections[n]) && SameCache(s.sections[n], t.sections[n]);
    }
  }

  ghost predicate SameReads(s: HubState, t: HubState) {
    && t.jobs == s.jobs && t.live == s.live && t.sections.Keys == s.sections.Keys
    && forall n :: n in s.sections ==> t.sections[n].readCancel == s.sections[n].readCancel
  }

  lemma {:induction false} ReadersFrame(s: HubState, t: HubState)
    requires Readers(s) && SameReads(s, t)
    ensures Readers(t)
  {
    forall n | n in t.sections
      ensures HoldsLive(t, n)
    {
      assert HoldsLive(s, n);
    }
    forall k | k in t.live
      ensures IsHeld(t, k)
    {
      assert IsHeld(s, k);
    }
  }

  ghost predicate SameChannel(s: HubState, t: HubState, c: ClientId) {
    && t.PeerOf(c).queue == s.PeerOf(c).queue && t.PeerOf(c).closed == s.PeerOf(c).closed
    && (c in t.clients ==> c in s.clients)
  }

  lemma {:induction false} ChannelsFrame(s: HubState, t: HubState)
    requires Channels(s) && forall c :: SameChannel(s, t, c)
    ensures Channels(t)
  {
    forall c
      ensures ChannelOk(t, c)
    {
      assert ChannelOk(s, c) && SameChannel(s, t, c);
    }
  }

  /** A step that leaves clients and subscribers alone. */
  lemma {:induction false} QuietGood(s: HubState, t: HubState)
    requires Running(s) && SameLinks(s, t) && SameCaches(s, t) && Readers(t) && Packs(t) && !t.stopped
    ensures Good(t)
  {
    LinkedFrame(s, t);
    CachesFrame(s, t);
    forall c
      ensures SameChannel(s, t, c)
    {
    }
    ChannelsFrame(s, t);
  }

  /** Replacing one section, keeping its read context, or its plan, or its subscribers. */
  lemma {:induction false} SwapReads(s: HubState, t: HubState, n: string, sec: Section)
    requires n in s.sections && t.sections == s.sections[n := sec] && t.jobs == s.jobs && t.live == s.live
    requires sec.readCancel == s.sections[n].readCancel
    ensures SameReads(s, t)
  {
    assert t.sections.Keys == s.sections.Keys;
    forall m | m in s.sections
      ensures t.sections[m].readCancel == s.sections[m].readCancel
    {
    }
  }

  lemma {:induction false} SwapCaches(s: HubState, t: HubState, n: string, sec: Section)
    requires n in s.sections && t.sections == s.sections[n := sec] && SameCache(s.sections[n], sec)
    ensures SameCaches(s, t)
  {
    assert t.sections.Keys == s.sections.Keys;
    forall m | m in s.sections
      ensures SameCache(s.sections[m], t.sections[m])
    {
    }
  }

  lemma {:induction false} SwapLinks(s: HubState, t: HubState, n: string, sec: Section)
    requires n in s.sections && t.sections == s.sections[n := sec] && t.clients == s.clients && t.peers == s.peers
    requires sec.subscribers == s.sections[n].subscribers
    ensures SameLinks(s, t)
  {
    assert t.sections.Keys == s.sections.Keys;
    forall m | m in s.sections
      ensures t.sections[m].subscribers == s.sections[m].subscribers
    {
    }
  }

  // ---- read contexts ----

  /** Reads come and go without touching subscriptions or plans. */
  lemma {:induction false} CancelQuiet(s: HubState, n: string)
    ensures var t := s.CancelRead(n);
      && SameLinks(s, t) && SameCaches(s, t) && t.stopped == s.stopped && t.panicked == s.panicked
      && t.connected == s.connected && t.selectedPack == s.selectedPack && t.jobs == s.jobs
  {
    if n in s.sections && s.sections[n].readCancel.Some? {
      var t, sec := s.CancelRead(n), s.sections[n].(readCancel := None);
      SwapCaches(s, t, n, sec);
      SwapLinks(s, t, n, sec);
    }
  }

  lemma {:induction false} StartQuiet(s: HubState, n: string, pack: Option<Pack>)
    requires n in s.sections
    ensures var t := s.StartRead(n, pack);
      && SameLinks(s, t) && SameCaches(s, t) && t.stopped == s.stopped && t.panicked == s.panicked
      && t.connected == s.connected && t.selectedPack == s.selectedPack
  {
    CancelQuiet(s, n);
  }

  lemma {:induction false} CancelGood(s: HubState, n: string)
    requires Running(s)
    ensures Keeps(s, s.CancelRead(n), false) && SameLinks(s, s.CancelRead(n))
  {
    CancelReaders(s, n);
    CancelQuiet(s, n);
    QuietGood(s, s.CancelRead(n));
  }

  lemma {:induction false} CancelReaders(s: HubState, n: string)
    requires Readers(s)
    ensures Readers(s.CancelRead(n))
  {
    var t := s.CancelRead(n);
    forall m | m in t.sections
      ensures HoldsLive(t, m)
    {
      assert HoldsLive(s, m) && (n in s.sections ==> HoldsLive(s, n));
    }
    forall k | k in t.live
      ensures IsHeld(t, k)
    {
      assert IsHeld(s, k);
    }
  }

  /** After cancelling the reads of all sections nothing is live. */
  lemma {:induction false} NothingLive(s: HubState)
    requires Readers(s)
    ensures s.CancelReads(s.sections.Keys).live == {} && Readers(s.CancelReads(s.sections.Keys))
  {
    var t := s.CancelReads(s.sections.Keys);
    forall k | k in s.live
      ensures k in s.Held(s.sections.Keys)
    {
      assert IsHeld(s, k);
    }
    forall m | m in t.sections
      ensures HoldsLive(t, m)
    {
    }
  }

  lemma {:induction false} CancelAllGood(s: HubState)
    requires Running(s)
    ensures Keeps(s, s.CancelReads(s.sections.Keys), false)
  {
    NothingLive(s);
    CancelAllQuiet(s);
    QuietGood(s, s.CancelReads(s.sections.Keys));
  }

  lemma {:induction false} CancelAllQuiet(s: HubState)
    ensures var t := s.CancelReads(s.sections.Keys);
      && SameLinks(s, t) && SameCaches(s, t) && t.stopped == s.stopped && t.panicked == s.panicked
      && t.selectedPack == s.selectedPack && t.jobs == s.jobs
  {
  }

  lemma {:induction false} StartReaders(s: HubState, n: string, pack: Option<Pack>)
    requires Readers(s) && n in s.sections
    ensures Readers(s.StartRead(n, pack))
  {
    var t := s.StartRead(n, pack);
    CancelReaders(s, n);
    var u := s.CancelRead(n);
    forall m | m in t.sections
      ensures HoldsLive(t, m)
    {
      assert HoldsLive(u, m);
    }
    forall k | k in t.live
      ensures IsHeld(t, k)
    {
      if k != |s.jobs| {
        assert IsHeld(u, k);
        assert u.sections[n].readCancel == None;
      }
    }
  }

  lemma {:induction false} StartPacks(s: HubState, n: string, pack: Option<Pack>)
    requires Packs(s) && n in s.sections && (pack.Some? ==> Addressable(pack.value))
    ensures Packs(s.StartRead(n, pack))
  {
    var t := s.StartRead(n, pack);
    forall k | 0 <= k < |t.jobs| && t.jobs[k].pack.Some?
      ensures Addressable(t.jobs[k].pack.value)
    {
      assert k < |s.jobs| ==> t.jobs[k] == s.jobs[k];
    }
  }

  lemma {:induction false} StartGood(s: HubState, n: string, pack: Option<Pack>)
    requires Running(s) && n in s.sections && (pack.Some? ==> Addressable(pack.value))
    ensures Keeps(s, s.StartRead(n, pack), false)
  {
    StartReaders(s, n, pack);
    StartPacks(s, n, pack);
    StartQuiet(s, n, pack);
    QuietGood(s, s.StartRead(n, pack));
  }

  lemma {:induction false} TriggerGood(s: HubState, n: string)
    requires Running(s)
    ensures Keeps(s, s.TriggerSectionRead(n), false)
  {
    if n in s.sections {
      StartGood(s, n, None);
    }
  }

  // ---- clients ----

  lemma {:induction false} UnsubscribeLinked(s: HubState, c: ClientId, n: string)
    requires Linked(s)
    ensures Linked(s.UnsubscribeClient(c, n))
  {
    var t := s.UnsubscribeClient(c, n);
    forall d
      ensures t.PeerOf(d).section ==
              if d == c && n in s.sections && s.PeerOf(c).section == n then "" else s.PeerOf(d).section
    {
    }
    forall m, d | m in t.sections
      ensures d in t.sections[m].subscribers <==> t.PeerOf(d).section == m
    {
      assert d in s.sections[m].subscribers <==> s.PeerOf(d).section == m;
    }
  }

  lemma {:induction false} LeaveReaders(s: HubState, c: ClientId, n: string)
    requires Readers(s) && n in s.sections
    ensures Readers(s.LeaveOne(c, n))
  {
    var t := s.LeaveOne(c, n);
    forall m | m in t.sections
      ensures HoldsLive(t, m)
    {
      assert HoldsLive(s, m) && HoldsLive(s, n);
    }
    forall k | k in t.live
      ensures IsHeld(t, k)
    {
      assert IsHeld(s, k);
    }
  }

  lemma {:induction false} UnsubscribeChannels(s: HubState, c: ClientId, n: string)
    requires Channels(s)
    ensures Channels(s.UnsubscribeClient(c, n))
  {
    var t := s.UnsubscribeClient(c, n);
    forall d
      ensures SameChannel(s, t, d)
    {
    }
    ChannelsFrame(s, t);
  }

  lemma {:induction false} UnsubscribeGood(s: HubState, c: ClientId, n: string)
    requires Running(s)
    ensures Keeps(s, s.UnsubscribeClient(c, n), false)
  {
    if n in s.sections {
      var t := s.UnsubscribeClient(c, n);
      UnsubscribeLinked(s, c, n);
      LeaveReaders(s, c, n);
      ReadersFrame(s.LeaveOne(c, n), t);
      SwapCaches(s, t, n, t.sections[n]);
      CachesFrame(s, t);
      UnsubscribeChannels(s, c, n);
    }
  }

  lemma {:induction false} CloseChannels(s: HubState, c: ClientId)
    requires Channels(s)
    ensures Channels(s.CloseClient(c))
  {
    var t := s.CloseClient(c);
    forall d
      ensures ChannelOk(t, d)
    {
      assert ChannelOk(s, d);
    }
  }

  lemma {:induction false} CloseLinked(s: HubState, c: ClientId)
    requires Linked(s) && s.PeerOf(c).section == ""
    ensures Linked(s.CloseClient(c))
  {
    var t := s.CloseClient(c);
    forall d
      ensures t.PeerOf(d).section == s.PeerOf(d).section
    {
    }
    forall m, d | m in t.sections
      ensures d in t.sections[m].subscribers <==> t.PeerOf(d).section == m
    {
      assert d in s.sections[m].subscribers <==> s.PeerOf(d).section == m;
    }
  }

  /** Closing the channel of a client that is in no section. */
  lemma {:induction false} CloseGood(s: HubState, c: ClientId)
    requires Running(s) && c in s.clients && s.PeerOf(c).section == ""
    ensures Keeps(s, s.CloseClient(c), false)
  {
    var t := s.CloseClient(c);
    assert ChannelOk(s, c);
    CloseChannels(s, c);
    CloseLinked(s, c);
    ReadersFrame(s, t);
    CachesFrame(s, t);
  }

  lemma {:induction false} RemoveGood(s: HubState, c: ClientId)
    requires Running(s)
    ensures Keeps(s, s.RemoveClient(c), false)
  {
    if c in s.clients {
      var n := s.PeerOf(c).section;
      var u := if n != "" then s.UnsubscribeClient(c, n) else s;
      UnsubscribeGood(s, c, n);
      CloseGood(u, c);
    }
  }

  lemma {:induction false} SendGood(s: HubState, c: ClientId, m: Packet)
    requires Running(s)
    ensures Keeps(s, s.SendToClient(c, m), s.PeerOf(c).closed)
  {
    var p := s.PeerOf(c);
    if p.closed {
      ReadersFrame(s, s.(panicked := true));
      QuietGood(s, s.(panicked := true));
    } else if p.Full() {
      RemoveGood(s, c);
    } else {
      EnqueueGood(s, c, m);
    }
  }

  /** Only queues change. */
  lemma {:induction false} QueuesGood(s: HubState, t: HubState)
    requires Good(s) && t == s.(peers := t.peers) && Channels(t)
    requires forall c :: t.PeerOf(c).section == s.PeerOf(c).section
    ensures Good(t)
  {
    forall m, d | !s.stopped && m in t.sections
      ensures d in t.sections[m].subscribers <==> t.PeerOf(d).section == m
    {
      assert d in s.sections[m].subscribers <==> s.PeerOf(d).section == m;
    }
    ReadersFrame(s, t);
    CachesFrame(s, t);
  }

  lemma {:induction false} EnqueueGood(s: HubState, c: ClientId, m: Packet)
    requires Running(s) && !s.PeerOf(c).closed && !s.PeerOf(c).Full()
    ensures Keeps(s, s.SendToClient(c, m), false)
  {
    var t := s.SendToClient(c, m);
    forall d
      ensures t.PeerOf(d).section == s.PeerOf(d).section && ChannelOk(t, d)
    {
      assert ChannelOk(s, d);
    }
    QueuesGood(s, t);
  }

  // ---- broadcasts ----

  lemma {:induction false} LeaveManyReaders(s: HubState, gone: set<ClientId>)
    requires Readers(s)
    ensures Readers(s.Leave(gone))
  {
    var t := s.Leave(gone);
    forall m | m in t.sections
      ensures HoldsLive(t, m)
    {
      assert HoldsLive(s, m);
      assert t.sections[m] == s.SectionAfter(m, gone);
      forall n | n in s.Emptied(gone) && s.sections[n].readCancel.Some?
                 && s.sections[m].readCancel == s.sections[n].readCancel
        ensures n == m
      {
        assert HoldsLive(s, n);
      }
    }
    forall k | k in t.live
      ensures IsHeld(t, k)
    {
      assert IsHeld(s, k);
      var n := s.jobs[k].section;
      assert t.sections[n] == s.SectionAfter(n, gone);
    }
  }

  lemma {:induction false} DeliverChannels(s: HubState, cs: set<ClientId>, m: Packet)
    requires Channels(s)
    ensures Channels(s.Deliver(cs, m))
  {
    var t := s.Deliver(cs, m);
    forall d
      ensures ChannelOk(t, d)
    {
      assert ChannelOk(s, d);
      assert t.PeerOf(d) == if d in cs then s.Receive(d, m) else s.PeerOf(d);
    }
  }

  lemma {:induction false} DeliverCaches(s: HubState, cs: set<ClientId>, m: Packet)
    requires Caches(s)
    ensures Caches(s.Deliver(cs, m))
  {
    var t := s.Deliver(cs, m);
    forall n | n in s.sections
      ensures SameCache(s.sections[n], t.sections[n])
    {
      assert t.sections[n] == s.SectionAfter(n, s.Slow(cs));
    }
    CachesFrame(s, t);
  }

  lemma {:induction false} DeliverGood(s: HubState, cs: set<ClientId>, m: Packet)
    requires Running(s) && cs <= s.clients
    ensures Keeps(s, s.Deliver(cs, m), false)
  {
    var t := s.Deliver(cs, m);
    DeliverLinked(s, cs, m);
    LeaveManyReaders(s, s.Slow(cs));
    ReadersFrame(s.Leave(s.Slow(cs)), t);
    DeliverChannels(s, cs, m);
    DeliverCaches(s, cs, m);
    forall c | c in cs
      ensures !s.PeerOf(c).closed
    {
      assert ChannelOk(s, c);
    }
  }

  lemma {:induction false} BroadcastGood(s: HubState, n: string, m: Packet)
    requires Running(s)
    ensures Keeps(s, s.BroadcastToSection(n, m), false)
  {
    if n in s.sections {
      SubscribersRegistered(s, n);
      DeliverGood(s, s.sections[n].subscribers, m);
    }
  }

  // ---- subscribing ----

  lemma {:induction false} RegisterGood(s: HubState, c: ClientId, state: Link.ConnState)
    requires Running(s) && !s.PeerOf(c).closed
    ensures Keeps(s, s.Register(c, state), false)
  {
    AdmitGood(s, c);
    SendGood(s.(clients := s.clients + {c}), c, StateChanged(state));
  }

  lemma {:induction false} AdmitGood(s: HubState, c: ClientId)
    requires Running(s) && !s.PeerOf(c).closed
    ensures Keeps(s, s.(clients := s.clients + {c}), false)
  {
    var t := s.(clients := s.clients + {c});
    AdmitChannels(s, c);
    AdmitLinked(s, c);
    ReadersFrame(s, t);
    CachesFrame(s, t);
  }

  lemma {:induction false} AdmitChannels(s: HubState, c: ClientId)
    requires Channels(s) && !s.PeerOf(c).closed
    ensures Channels(s.(clients := s.clients + {c}))
  {
    var t := s.(clients := s.clients + {c});
    forall d
      ensures ChannelOk(t, d)
    {
      assert ChannelOk(s, d) && t.PeerOf(d) == s.PeerOf(d);
    }
  }

  lemma {:induction false} AdmitLinked(s: HubState, c: ClientId)
    requires Linked(s)
    ensures Linked(s.(clients := s.clients + {c}))
  {
    var t := s.(clients := s.clients + {c});
    forall d
      ensures t.PeerOf(d) == s.PeerOf(d)
    {
    }
  }

  /** The client as a subscriber of its new section, before anything is sent. */
  function Seated(s: HubState, c: ClientId, n: string): HubState
    requires n in s.sections
  {
    s.(sections := s.sections[n := s.sections[n].(subscribers := s.sections[n].subscribers + {c})],
       peers := s.peers[c := s.PeerOf(c).(section := n)],
       selectedPack := if n == "bms" then None else s.selectedPack)
  }

  lemma {:induction false} SeatedLinked(s: HubState, c: ClientId, n: string)
    requires Linked(s) && n in s.sections && c in s.clients && (s.PeerOf(c).section == "" || s.PeerOf(c).section == n)
    ensures Linked(Seated(s, c, n))
  {
    var t := Seated(s, c, n);
    forall d
      ensures t.PeerOf(d).section == if d == c then n else s.PeerOf(d).section
    {
    }
    forall m, d | m in t.sections
      ensures d in t.sections[m].subscribers <==> t.PeerOf(d).section == m
    {
      assert d in s.sections[m].subscribers <==> s.PeerOf(d).section == m;
    }
  }

  lemma {:induction false} SeatedGood(s: HubState, c: ClientId, n: string)
    requires Running(s) && n in s.sections && c in s.clients
    requires s.PeerOf(c).section == "" || s.PeerOf(c).section == n
    ensures Keeps(s, Seated(s, c, n), false)
  {
    var t := Seated(s, c, n);
    SeatedLinked(s, c, n);
    SeatedChannels(s, c, n);
    SwapReads(s, t, n, t.sections[n]);
    ReadersFrame(s, t);
    SwapCaches(s, t, n, t.sections[n]);
    CachesFrame(s, t);
  }

  lemma {:induction false} SeatedChannels(s: HubState, c: ClientId, n: string)
    requires Channels(s) && n in s.sections
    ensures Channels(Seated(s, c, n))
  {
    var t := Seated(s, c, n);
    forall d
      ensures SameChannel(s, t, d)
    {
    }
    ChannelsFrame(s, t);
  }

  lemma {:induction false} JoinGood(s: HubState, c: ClientId, n: string)
    requires Running(s) && n in s.sections && c in s.clients
    requires s.PeerOf(c).section == "" || s.PeerOf(c).section == n
    ensures Keeps(s, s.Join(c, n), false)
  {
    assert ChannelOk(s, c);
    SeatedGood(s, c, n);
    var t := Seated(s, c, n);
    if s.PeerOf(c).Full() {
      RemoveGood(t, c);
    } else {
      var schema := Schema(n, s.sections[n].groups);
      SendGood(t, c, schema);
      var u := t.SendToClient(c, schema);
      if s.connected {
        TriggerGood(u, n);
      } else {
        SendGood(u, c, Problem(n, NOT_CONNECTED));
      }
    }
  }

  lemma {:induction false} SubscribeGood(s: HubState, c: ClientId, n: string)
    requires Running(s) && c in s.clients
    ensures Keeps(s, s.SubscribeClient(c, n), false)
  {
    assert ChannelOk(s, c);
    var before := s.PeerOf(c).section;
    if before != "" && before != n {
      CancelGood(s, before);
      var u := s.CancelRead(before);
      UnsubscribeGood(u, c, before);
      var t := u.UnsubscribeClient(c, before);
      SubscribeRest(t, c, n);
    } else {
      SubscribeRest(s, c, n);
    }
  }

  lemma {:induction false} SubscribeRest(t: HubState, c: ClientId, n: string)
    requires Running(t) && c in t.clients && (t.PeerOf(c).section == "" || t.PeerOf(c).section == n)
    ensures Keeps(t, if n !in t.sections then t.SendToClient(c, Problem(n, UNKNOWN_SECTION)) else t.Join(c, n), false)
  {
    assert ChannelOk(t, c);
    if n !in t.sections {
      SendGood(t, c, Problem(n, UNKNOWN_SECTION));
    } else {
      JoinGood(t, c, n);
    }
  }

  // ---- reads asked for ----

  lemma {:induction false} RefreshGood(s: HubState, n: string)
    requires Running(s)
    ensures Keeps(s, s.Refresh(n), false)
  {
    if n in s.sections && s.sections[n].readOnce {
      var sec := s.sections[n].(hasReadOnce := false);
      FlagGood(s, n, sec);
      TriggerGood(s.(sections := s.sections[n := sec]), n);
    } else {
      TriggerGood(s, n);
    }
  }

  lemma {:induction false} ReadCycleGood(s: HubState, n: string)
    requires Running(s)
    ensures Keeps(s, s.HandleReadCycle(n), false)
  {
    if s.HandleReadCycle(n) != s {
      StartGood(s, n, if n == "bms" then s.selectedPack else None);
    }
  }

  lemma {:induction false} SelectPackGood(s: HubState, tower: int, pack: int)
    requires Running(s)
    ensures Keeps(s, s.HandleSelectPack(tower, pack), false)
  {
    var chosen := Pack(Battery.Clamp(tower, 1, Battery.TOWERS), Battery.Clamp(pack, 1, Battery.PACKS_PER_TOWER));
    var t := s.(selectedPack := Some(chosen));
    ReadersFrame(s, t);
    QuietGood(s, t);
    if "bms" in s.sections {
      StartGood(t, "bms", Some(chosen));
    }
  }

  // ---- plans ----

  lemma {:induction false} FreshTracks(t: Tracker, plan: BatchPlan)
    requires t.threshold == DEFAULT_THRESHOLD
    ensures Tracks(t.Reset(), plan)
  {
    NewOk(t.threshold);
  }

  lemma {:induction false} RebuildGood(s: HubState, n: string, groups: seq<ProbeGroup>, plan: BatchPlan)
    requires Running(s) && n in s.sections && IsPlan(groups, plan) && NoWrap(Real(Flatten(groups)))
    ensures Keeps(s, s.Rebuild(n, groups, plan), false)
  {
    var t := s.Rebuild(n, groups, plan);
    assert Cached(s.sections[n]);
    FreshTracks(s.sections[n].tracker, plan);
    RecacheOne(s, n, t.sections[n]);
  }

  lemma {:induction false} RecacheOne(s: HubState, n: string, sec: Section)
    requires Good(s) && n in s.sections && Cached(sec)
    requires sec.subscribers == s.sections[n].subscribers && sec.readCancel == s.sections[n].readCancel
    ensures Keeps(s, s.(sections := s.sections[n := sec]), false)
  {
    var t := s.(sections := s.sections[n := sec]);
    SwapCached(s, n, sec);
    SwapReads(s, t, n, sec);
    SwapLinks(s, t, n, sec);
    RecachedGood(s, t);
  }

  lemma {:induction false} SwapCached(s: HubState, n: string, sec: Section)
    requires Caches(s) && n in s.sections && Cached(sec)
    ensures Caches(s.(sections := s.sections[n := sec]))
  {
    var t := s.(sections := s.sections[n := sec]);
    forall m | m in t.sections
      ensures Cached(t.sections[m])
    {
      assert m != n ==> Cached(s.sections[m]);
    }
  }

  lemma {:induction false} ChannelsQuiet(s: HubState, t: HubState)
    requires Channels(s) && t.peers == s.peers && t.clients == s.clients
    ensures Channels(t)
  {
    forall c
      ensures SameChannel(s, t, c)
    {
    }
    ChannelsFrame(s, t);
  }

  /** Sections may have new plans or trackers. */
  lemma {:induction false} RecachedGood(s: HubState, t: HubState)
    requires Good(s) && t == s.(sections := t.sections) && SameLinks(s, t) && SameReads(s, t) && Caches(t)
    ensures Good(t)
  {
    if !s.stopped {
      LinkedFrame(s, t);
    }
    ReadersFrame(s, t);
    ChannelsQuiet(s, t);
    assert Packs(t);
  }

  /** Only flags of a section change. */
  lemma {:induction false} FlagGood(s: HubState, n: string, sec: Section)
    requires Good(s) && n in s.sections && SameCache(s.sections[n], sec)
    requires sec.subscribers == s.sections[n].subscribers && sec.readCancel == s.sections[n].readCancel
    ensures Keeps(s, s.(sections := s.sections[n := sec]), false)
  {
    assert Cached(s.sections[n]);
    RecacheOne(s, n, sec);
  }

  lemma {:induction false} ResetCached(sec: Section)
    requires Cached(sec)
    ensures Cached(sec.(tracker := sec.tracker.Reset()))
  {
    FreshTracks(sec.tracker, sec.plan);
  }

  lemma {:induction false} ResetCaches(s: HubState)
    requires Caches(s)
    ensures Caches(s.ResetTrackers(s.sections.Keys))
  {
    var t := s.ResetTrackers(s.sections.Keys);
    forall n | n in t.sections
      ensures Cached(t.sections[n])
    {
      ResetCached(s.sections[n]);
    }
  }

  lemma {:induction false} ResetGood(s: HubState)
    requires Running(s)
    ensures Keeps(s, s.ResetTrackers(s.sections.Keys), false)
  {
    ResetCaches(s);
    RecachedGood(s, s.ResetTrackers(s.sections.Keys));
  }

  lemma {:induction false} PvNoWrap(channels: int)
    ensures NoWrap(Real(Flatten(PvGroupsFor(channels))))
  {
    Pv.PvFits(Battery.Clamp(channels, Pv.MIN_CHANNELS, Pv.MAX_CHANNELS));
    FitMeansNoWrap(PvGroupsFor(channels));
  }

  lemma {:induction false} ConfigurePvGood(s: HubState, channels: int, plan: BatchPlan)
    requires Running(s) && IsPlan(PvGroupsFor(channels), plan)
    ensures Keeps(s, s.ConfigurePv(channels, plan), false)
  {
    if "pv" in s.sections {
      var groups := PvGroupsFor(channels);
      PvNoWrap(channels);
      RebuildGood(s, "pv", groups, plan);
      TriggerGood(s.Rebuild("pv", groups, plan), "pv");
    }
  }

  lemma {:induction false} RebuildBatteryGood(s: HubState, channels: nat, plan: BatchPlan)
    requires Running(s) && channels <= Battery.MAX_CHANNELS && IsPlan(Battery.BatteryGroups(channels), plan)
    ensures Keeps(s, s.RebuildBattery(channels, plan), false)
  {
    if "battery" in s.sections {
      var groups := Battery.BatteryGroups(channels);
      Battery.BatteryFits(channels);
      FitMeansNoWrap(groups);
      RebuildGood(s, "battery", groups, plan);
      BroadcastGood(s.Rebuild("battery", groups, plan), "battery", Schema("battery", groups));
    }
  }

  lemma {:induction false} DetectedGood(s: HubState, channels: nat, plan: BatchPlan)
    requires Running(s) && channels <= Battery.MAX_CHANNELS && IsPlan(Battery.BatteryGroups(channels), plan)
    ensures Keeps(s, s.ChannelsDetected(channels, plan), false)
  {
    RebuildBatteryGood(s, channels, plan);
    TriggerGood(s.RebuildBattery(channels, plan), "battery");
  }

  /** Only the connection flag changes. */
  lemma {:induction false} ConnectedGood(s: HubState, up: bool)
    requires Running(s)
    ensures Keeps(s, s.(connected := up), false)
  {
    ReadersFrame(s, s.(connected := up));
    QuietGood(s, s.(connected := up));
  }

  lemma {:induction false} StateEventGood(s: HubState, state: Link.ConnState, plan: BatchPlan)
    requires Running(s) && IsPlan(Battery.BatteryGroups(RESET_CHANNELS), plan)
    ensures Keeps(s, s.HandleStateEvent(state, plan), false)
    ensures state.Disconnected? || state.Reconnecting? ==>
              s.HandleStateEvent(state, plan).live == {} && !s.HandleStateEvent(state, plan).connected
  {
    var t := s.Deliver(s.clients, StateChanged(state));
    DeliverGood(s, s.clients, StateChanged(state));
    match state {
      case Connected =>
        ComeUpGood(t, RESET_CHANNELS, plan);
      case Disconnected =>
        ConnectedGood(t, false);
        NothingLive(t.(connected := false));
        CancelAllGood(t.(connected := false));
      case Reconnecting =>
        ConnectedGood(t, false);
        NothingLive(t.(connected := false));
        CancelAllGood(t.(connected := false));
      case _ =>
    }
  }

  lemma {:induction false} ComeUpGood(s: HubState, channels: nat, plan: BatchPlan)
    requires Running(s) && channels <= Battery.MAX_CHANNELS && IsPlan(Battery.BatteryGroups(channels), plan)
    ensures Keeps(s, s.ComeUp(channels, plan), false)
  {
    ConnectedGood(s, true);
    ResetGood(s.(connected := true));
    RebuildBatteryGood(s.(connected := true).ResetTrackers(s.sections.Keys), channels, plan);
  }

  lemma {:induction false} ResultGood(s: HubState, n: string, m: Packet)
    requires Running(s)
    ensures Keeps(s, s.HandleResult(n, m), false)
  {
    if m.Complete? && n in s.sections && s.sections[n].readOnce && !s.sections[n].hasReadOnce {
      var sec := s.sections[n].(hasReadOnce := true);
      FlagGood(s, n, sec);
      BroadcastGood(s.(sections := s.sections[n := sec]), n, m);
    } else {
      BroadcastGood(s, n, m);
    }
  }

  lemma {:induction false} ShutdownGood(s: HubState)
    requires Running(s)
    ensures Good(s.Shutdown()) && s.Shutdown().panicked == s.panicked && s.Shutdown().live == {}
  {
    var u := s.CloseClients(s.clients);
    var t := s.Shutdown();
    ReadersFrame(s, u);
    NothingLive(u);
    ReadersFrame(u.CancelReads(u.sections.Keys), t);
    CachesFrame(s, t);
    ShutdownChannels(s);
  }

  lemma {:induction false} ShutdownChannels(s: HubState)
    requires Channels(s)
    ensures Channels(s.Shutdown()) && s.Shutdown().panicked == s.panicked
  {
    forall c
      ensures ChannelOk(s.Shutdown(), c) && (c in s.clients ==> !s.PeerOf(c).closed)
    {
      assert ChannelOk(s, c);
    }
  }

  // ---- steps outside the loop ----

  /** A read cycle leaves a tracker that knows only spans of the plan it read. */
  lemma {:induction false} CycleTracks(env: Env, plan: BatchPlan, probes: seq<Probe>, h: History)
    requires Tracks(h.tracker, plan)
    ensures Tracks(ReadCycle(env, plan.spans, probes, h).tracker, plan)
  {
    var t := ReadCycle(env, plan.spans, probes, h).tracker;
    TickOk(h.tracker);
    PassKeepsOk(env, AddrToIdx(probes), plan.spans, Start(h, probes));
    forall a: word | !StartsSpan(plan, a)
      ensures t.At(a) == FRESH
    {
      assert h.tracker.At(a) == FRESH;
      assert forall k :: 0 <= k < |plan.spans| ==> plan.spans[k].start != a;
      assert t.At(a) == h.tracker.Tick().At(a) == h.tracker.At(a);
    }
  }

  lemma {:induction false} RunCycleGood(s: HubState, k: nat, env: Env, now: nat)
    requires Good(s)
    ensures Keeps(s, s.RunCycle(k, env, now), false)
  {
    if k < |s.jobs| && s.jobs[k].pack.None? && s.jobs[k].section in s.sections {
      var sec := s.sections[s.jobs[k].section];
      assert Cached(sec);
      var h := History(now, sec.tracker, [], []);
      CycleTracks(env, sec.plan, sec.probes, h);
      RecacheOne(s, s.jobs[k].section, sec.(tracker := ReadCycle(env, sec.plan.spans, sec.probes, h).tracker));
    }
  }

  lemma {:induction false} DrainGood(s: HubState, c: ClientId)
    requires Good(s)
    ensures Keeps(s, s.Drain(c), false)
  {
    var t := s.Drain(c);
    forall d
      ensures t.PeerOf(d).section == s.PeerOf(d).section && ChannelOk(t, d)
    {
      assert ChannelOk(s, d);
      assert t.PeerOf(d) == if d == c && s.PeerOf(c).queue != [] then s.PeerOf(c).(queue := s.PeerOf(c).queue[1..])
        else s.PeerOf(d);
    }
    QueuesGood(s, t);
  }

  // ---- runs ----

  /** Plans in events are the planner's, and the detected channel count is in range. */
  ghost predicate Planned(e: HubEvent) {
    match e
    case PvConfigured(channels, plan) => IsPlan(PvGroupsFor(channels), plan)
    case LinkChanged(_, plan) => IsPlan(Battery.BatteryGroups(RESET_CHANNELS), plan)
    case BatteryDetected(count, plan) => count <= Battery.MAX_CHANNELS && IsPlan(Battery.BatteryGroups(count), plan)
    case _ => true
  }

  /** Clients register with an open channel and subscribe while they are registered. */
  ghost predicate Admissible(s: HubState, e: HubEvent) {
    && Planned(e)
    && (e.Registered? ==> !s.PeerOf(e.c).closed)
    && (e.Subscribe? ==> e.c in s.clients)
  }

  lemma {:induction false} HandleGood(s: HubState, e: HubEvent)
    requires Running(s) && Admissible(s, e)
    ensures Good(Handle(s, e)) && Handle(s, e).panicked == s.panicked
  {
    match e
    case Registered(c, state) => RegisterGood(s, c, state);
    case Unregistered(c) => RemoveGood(s, c);
    case Subscribe(c, n) => SubscribeGood(s, c, n);
    case Unsubscribe(c, n) => UnsubscribeGood(s, c, n);
    case RefreshAsked(n) => RefreshGood(s, n);
    case CycleAsked(n) => ReadCycleGood(s, n);
    case PackSelected(tower, pack) => SelectPackGood(s, tower, pack);
    case PvConfigured(channels, plan) => ConfigurePvGood(s, channels, plan);
    case DisconnectAsked => CancelAllGood(s);
    case LinkChanged(state, plan) => StateEventGood(s, state, plan);
    case ResultRead(n, m) => ResultGood(s, n, m);
    case BatteryDetected(count, plan) => DetectedGood(s, count, plan);
    case HubCancelled => ShutdownGood(s);
    case _ =>
  }

  lemma {:induction false} StepGood(s: HubState, e: HubEvent)
    requires Good(s) && (s.stopped || Admissible(s, e))
    ensures Good(Advance(s, e)) && Advance(s, e).panicked == s.panicked
  {
    if Outside(e) {
      ElsewhereGood(s, e);
    } else if !s.stopped {
      HandleGood(s, e);
    }
  }

  lemma {:induction false} ElsewhereGood(s: HubState, e: HubEvent)
    requires Good(s)
    ensures Keeps(s, Elsewhere(s, e), false)
  {
    match e
    case Drained(c) => DrainGood(s, c);
    case CycleRun(k, env, now) => RunCycleGood(s, k, env, now);
    case ReaderDone(n) => ReaderExitGood(s, n);
    case _ =>
  }

  lemma {:induction false} ReaderExitGood(s: HubState, n: string)
    requires Good(s)
    ensures Keeps(s, s.ReaderExit(n), false)
  {
    if n in s.sections {
      FlagGood(s, n, s.sections[n].(reading := false));
    }
  }

  /** Sections as the hub registers them at startup. */
  ghost predicate Builtin(sections: map<string, Section>) {
    && "" !in sections
    && forall n :: n in sections ==>
         && NoWrap(Real(Flatten(sections[n].groups))) && IsPlan(sections[n].groups, sections[n].plan)
         && sections[n] == NewSection(sections[n].groups, sections[n].plan, sections[n].readOnce)
  }

  lemma {:induction false} NewGood(sections: map<string, Section>)
    requires Builtin(sections)
    ensures Good(New(sections)) && !New(sections).panicked
  {
    var s := New(sections);
    forall n | n in sections
      ensures Cached(sections[n]) && HoldsLive(s, n)
    {
      NewOk(DEFAULT_THRESHOLD);
    }
    forall c
      ensures ChannelOk(s, c) && s.PeerOf(c) == FRESH_PEER
    {
    }
  }

  ghost predicate Happens(s: HubState, e: HubEvent, t: HubState) {
    (s.stopped || Admissible(s, e)) && t == Advance(s, e)
  }

  /** A run of the hub: its states before, between and after the events. */
  ghost predicate HubRun(sections: map<string, Section>, states: seq<HubState>, es: seq<HubEvent>) {
    && Builtin(sections) && |states| == |es| + 1 && states[0] == New(sections)
    && forall i :: 0 <= i < |es| ==> Happens(states[i], es[i], states[i + 1])
  }

  /** In every state of every run all invariants hold, and no step has sent on a
      closed channel or closed a channel twice. */
  lemma {:induction false} EveryRunGood(sections: map<string, Section>, states: seq<HubState>, es: seq<HubEvent>,
                                        i: nat)
    requires HubRun(sections, states, es) && i <= |es|
    ensures Good(states[i]) && !states[i].panicked
  {
    if i == 0 {
      NewGood(sections);
    } else {
      EveryRunGood(sections, states, es, i - 1);
      assert Happens(states[i - 1], es[i - 1], states[i - 1 + 1]);
      StepGood(states[i - 1], es[i - 1]);
    }
  }
}
