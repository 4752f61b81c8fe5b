/**
 Connection life cycle over every run of the protocol: an instance never gets
 stuck, connects at most once, runs its connection callback at most once, and
 is replaced by exactly one instance however many death notices arrive.
 */
module Reconnection {
  import opened Base
  import opened Fields
  import opened Instance
  import opened Protocol

  // ---- the three phases of a live instance ----

  predicate Trying(p: Peer) {
    p.life.tries == 1 && p.life.reconnects == 0 && p.life.watch.None?
  }

  predicate Watching(p: Peer, h: Host) {
    && p.life.tries == 0 && p.life.reconnects == 0 && p.life.watch.Some?
    && (p.life.notice || (h.alive && h.lifetime == p.life.watch.value))
  }

  predicate Reconnecting(p: Peer) {
    p.life.tries == 0 && p.life.reconnects > 0 && p.life.watch.None?
  }

  predicate Phased(p: Peer, h: Host) {
    && (p.life.alive ==> Trying(p) || Watching(p, h) || Reconnecting(p))
    && (p.life.watch.Some? ==> p.life.watch == p.inst.manager)
    && (p.life.alive && p.life.tries > 0 ==> p.inst.connects == 0 && p.inst.manager.None? && !p.life.notice)
    && (p.life.alive && p.life.asked > 0 ==> p.life.reconnects > 0)
  }

  // ---- one connect, one answer, one callback ----

  // Answered, on the way or waiting: all together at most the one connect of the instance.
  predicate AnsweredOnce(p: Peer, j: nat, h: Host, arriving: nat) {
    && p.inst.connects <= 1
    && p.inst.callbacks + |p.wire.connected| + multiset(h.m.pending)[j] + |p.wire.connect| + arriving <= p.inst.connects
  }

  predicate ListensOnce(p: Peer, j: nat, h: Host) {
    && p.inst.connects <= 1
    && (if p.sync.registered then 1 else 0) + |p.wire.register| <= p.inst.connects
    && (forall l :: l in p.wire.register ==> p.inst.manager == Some(l))
    && (p.sync.registered ==> p.inst.manager.Some? && p.inst.manager.value <= h.lifetime)
    && (j in h.m.listeners ==> h.alive && p.sync.registered && p.inst.manager == Some(h.lifetime))
  }

  // Services reach only the client they were made for.
  predicate OwnService(p: Peer, j: nat) {
    && (forall r :: r in p.wire.connected ==> r.client == j)
    && (p.inst.service.Some? ==> p.inst.service.value.client == j)
    && (p.life.alive && p.inst.callbacks > 0 ==> p.inst.service.Some?)
  }

  predicate Replaced(p: Peer) {
    && |p.life.replacedBy| <= 1
    && (p.life.alive ==> p.life.replacedBy == [] && !p.life.closed)
    && (!p.life.alive ==> p.life.closed || |p.life.replacedBy| == 1)
    && (p.inst.reading.Some? ==> p.life.alive && p.inst.manager.Some?)
    && (forall n :: n in p.wire.notes ==> p.inst.manager.Some?)
  }

  predicate PeerInv(p: Peer, j: nat, h: Host) {
    Phased(p, h) && AnsweredOnce(p, j, h, 0) && ListensOnce(p, j, h) && OwnService(p, j) && Replaced(p)
  }

  predicate HostOk(h: Host) {
    && (!h.alive ==> h.m == Daemon.FRESH && h.routes == {})
    && (h.m.device ==> h.m.pending == [])
  }

  predicate HostInv(h: Host, n: nat) {
    && HostOk(h)
    && (forall c :: c in h.m.pending ==> c < n)
    && (forall c :: c in h.m.listeners ==> c < n)
  }

  // Each open subscription owns exactly one live instance.
  predicate OwnershipInv(s: System) {
    && (forall j :: 0 <= j < |s.peers| ==>
          s.peers[j].subscription < |s.subscriptions| &&
          (s.peers[j].life.alive <==> s.subscriptions[s.peers[j].subscription] == Some(j)))
    && (forall u :: 0 <= u < |s.subscriptions| && s.subscriptions[u].Some? ==>
          s.subscriptions[u].value < |s.peers| && s.peers[s.subscriptions[u].value].subscription == u)
  }

  predicate ConnectionInv(s: System) {
    && HostInv(s.host, |s.peers|) && OwnershipInv(s)
    && forall j :: 0 <= j < |s.peers| ==> PeerInv(s.peers[j], j, s.host)
  }

  lemma {:induction false} SendsCount(lifetime: nat, sent: seq<nat>, first: nat, j: nat)
    requires first <= |sent|
    ensures |Sends(lifetime, sent, first, j)| == multiset(sent[first..])[j]
    ensures forall r :: r in Sends(lifetime, sent, first, j) ==>
              r.client == j && r.lifetime == lifetime && first <= r.number < |sent| && sent[r.number] == j
    decreases |sent| - first
  {
    if first < |sent| {
      SendsCount(lifetime, sent, first + 1, j);
      assert sent[first..] == [sent[first]] + sent[first + 1..];
    }
  }

  // What the daemon sends to j is what it takes off its waiting list.
  lemma SendsDrainPending(m: Daemon.State, event: Daemon.Event, lifetime: nat, j: nat)
    requires m.device ==> m.pending == []
    ensures |m.sent| <= |Daemon.Step(m, event).sent|
    ensures forall r :: r in Sends(lifetime, Daemon.Step(m, event).sent, |m.sent|, j) ==> r.client == j
    ensures |Sends(lifetime, Daemon.Step(m, event).sent, |m.sent|, j)| + multiset(Daemon.Step(m, event).pending)[j] ==
            multiset(m.pending)[j] + (if event == Daemon.ConnectArrives(j) then 1 else 0)
  {
    var m' := Daemon.Step(m, event);
    var arrived := if event.ConnectArrives? then [event.client] else [];
    Daemon.StepServesPending(m, event);
    SendsCount(lifetime, m'.sent, |m.sent|, j);
    var served := m'.sent[|m.sent|..];
    assert multiset(served + m'.pending) == multiset(served) + multiset(m'.pending);
    assert multiset(m.pending + arrived) == multiset(m.pending) + multiset(arrived);
  }

  // ---- an event's own effect ----

  lemma ActPhased(p: Peer, j: nat, h: Host, e: Event)
    requires Phased(p, h) && Replaced(p) && Possible(p, h, e) && !e.Reconnect?
    ensures Phased(Act(p, j, h, e), h)
  {
  }

  lemma ActOwnService(p: Peer, j: nat, h: Host, e: Event)
    requires OwnService(p, j) && Possible(p, h, e)
    ensures OwnService(Act(p, j, h, e), j)
  {
  }

  lemma ActReplaced(p: Peer, j: nat, h: Host, e: Event)
    requires Replaced(p) && Possible(p, h, e)
    ensures Replaced(Act(p, j, h, e))
  {
  }

  // The connect that the daemon is just taking in counts as still on its way.
  function Arriving(h: Host, e: Event, j: nat): nat {
    if h.alive && e == ConnectHandled(j, h.lifetime) then 1 else 0
  }

  lemma ActKeepsConnection(p: Peer, j: nat, h: Host, e: Event)
    requires Possible(p, h, e) && !e.TryConnecting? && !e.ServiceConnected? && !e.ConnectHandled?
    ensures var p' := Act(p, j, h, e);
            && p'.wire.connect == p.wire.connect && p'.wire.connected == p.wire.connected
            && p'.inst.connects == p.inst.connects && p'.inst.callbacks == p.inst.callbacks
  {
  }

  lemma TryAnsweredOnce(p: Peer, j: nat, h: Host, found: bool, registered: bool)
    requires AnsweredOnce(p, j, h, 0) && Phased(p, h) && p.life.tries > 0
    ensures AnsweredOnce(OnTryConnecting(p, h, found, registered), j, h, 0)
  {
  }

  lemma ServiceAnsweredOnce(p: Peer, j: nat, h: Host, r: ServiceRef)
    requires AnsweredOnce(p, j, h, 0) && r in p.wire.connected
    ensures AnsweredOnce(OnServiceConnected(p, r), j, h, 0)
  {
  }

  lemma ArrivalAnsweredOnce(p: Peer, j: nat, h: Host, l: nat)
    requires AnsweredOnce(p, j, h, 0) && l in p.wire.connect
    ensures AnsweredOnce(p.(wire := p.wire.(connect := p.wire.connect - multiset{l})), j, h,
                         Arriving(h, ConnectHandled(j, l), j))
  {
  }

  lemma OtherAnsweredOnce(p: Peer, j: nat, h: Host, e: Event)
    requires AnsweredOnce(p, j, h, 0) && Possible(p, h, e)
    requires !e.TryConnecting? && !e.ServiceConnected? && !e.ConnectHandled?
    ensures AnsweredOnce(Act(p, j, h, e), j, h, 0)
  {
    ActKeepsConnection(p, j, h, e);
    hide Act, Possible;
  }

  lemma ActAnsweredOnce(p: Peer, j: nat, h: Host, e: Event)
    requires AnsweredOnce(p, j, h, 0) && Phased(p, h) && Possible(p, h, e) && AboutInstance(e) && e.i == j
    ensures AnsweredOnce(Act(p, j, h, e), j, h, Arriving(h, e, j))
  {
    hide AnsweredOnce, Phased;
    if e.TryConnecting? {
      TryAnsweredOnce(p, j, h, e.found, e.registered);
    } else if e.ServiceConnected? {
      ServiceAnsweredOnce(p, j, h, e.service);
    } else if e.ConnectHandled? {
      ArrivalAnsweredOnce(p, j, h, e.lifetime);
    } else {
      OtherAnsweredOnce(p, j, h, e);
      hide Act, Possible;
    }
  }

  lemma ActKeepsRegistration(p: Peer, j: nat, h: Host, e: Event)
    requires Possible(p, h, e) && !e.TryConnecting? && !e.ListenerHandled?
    ensures var p' := Act(p, j, h, e);
            && p'.wire.register == p.wire.register && p'.sync.registered == p.sync.registered
            && p'.inst.connects == p.inst.connects && p'.inst.manager == p.inst.manager
  {
  }

  lemma ActListensOnce(p: Peer, j: nat, h: Host, e: Event)
    requires ListensOnce(p, j, h) && Phased(p, h) && Possible(p, h, e) && AboutInstance(e) && e.i == j
    ensures ListensOnce(Act(p, j, h, e), j, h)
  {
    if e.TryConnecting? {
      assert Act(p, j, h, e) == OnTryConnecting(p, h, e.found, e.registered);
    } else if e.ListenerHandled? {
      assert Act(p, j, h, e) == OnListenerHandled(p, j, h, e.lifetime);
      assert p.inst.manager == Some(e.lifetime);
    } else {
      ActKeepsRegistration(p, j, h, e);
      hide Act;
    }
  }

  lemma ActBringsListener(p: Peer, j: nat, h: Host, e: Event)
    requires ListensOnce(p, j, h) && Possible(p, h, e) && h.alive && e == ListenerHandled(j, h.lifetime)
    ensures Act(p, j, h, e).sync.registered && Act(p, j, h, e).inst.manager == Some(h.lifetime)
  {
    assert Act(p, j, h, e) == OnListenerHandled(p, j, h, e.lifetime);
  }

  lemma ActRegisters(p: Peer, j: nat, h: Host, e: Event)
    requires ListensOnce(p, j, h) && Possible(p, h, e)
    ensures j in h.m.listeners ==> Act(p, j, h, e).sync.registered
  {
  }

  // ---- what every instance receives ----

  lemma ReceivePhased(p: Peer, j: nat, h: Host, e: Event)
    requires Phased(p, h) && (e.DaemonStarts? ==> !h.alive)
    ensures Phased(Receive(p, j, h, e), HostStep(h, e))
  {
  }

  lemma {:induction false} ReceiveOwnService(p: Peer, j: nat, h: Host, e: Event)
    requires OwnService(p, j) && HostOk(h)
    ensures OwnService(Receive(p, j, h, e), j)
  {
    if h.alive && DaemonEvent(h, e).Some? {
      SendsDrainPending(h.m, DaemonEvent(h, e).value, h.lifetime, j);
    }
  }

  lemma ReceiveReplaced(p: Peer, j: nat, h: Host, e: Event)
    requires Replaced(p) && (j in h.m.listeners ==> p.inst.manager.Some?)
    ensures Replaced(Receive(p, j, h, e))
  {
  }

  lemma ReceiveFrame(p: Peer, j: nat, h: Host, e: Event)
    ensures var p' := Receive(p, j, h, e);
            && p'.inst == p.inst && p'.log == p.log && p'.subscription == p.subscription
            && p'.life == p.life.(notice := p'.life.notice)
            && p'.wire.connect == p.wire.connect && p'.wire.register == p.wire.register
            && p'.wire.handlerCalls == p.wire.handlerCalls && p'.wire.commands == p.wire.commands
            && p'.sync.registered == p.sync.registered && p'.sync.failed == p.sync.failed
            && p'.sync.fromEmpty == p.sync.fromEmpty
  {
  }

  lemma HostListeners(h: Host, e: Event, j: nat)
    requires e.DaemonStarts? ==> !h.alive
    ensures h.lifetime <= HostStep(h, e).lifetime
    ensures j in HostStep(h, e).m.listeners ==>
              && HostStep(h, e).alive == h.alive && HostStep(h, e).lifetime == h.lifetime
              && (j in h.m.listeners || (h.alive && e == ListenerHandled(j, h.lifetime)))
  {
  }

  lemma ReceiveAnsweredOnce(p: Peer, j: nat, h: Host, e: Event)
    requires AnsweredOnce(p, j, h, Arriving(h, e, j)) && HostOk(h)
    requires e.DaemonStarts? ==> !h.alive
    ensures AnsweredOnce(Receive(p, j, h, e), j, HostStep(h, e), 0)
  {
    hide Receive, HostStep, Daemon.Step, Sends;
    ReceiveFrame(p, j, h, e);
    if e.DaemonDies? || e.DaemonStarts? || !h.alive || DaemonEvent(h, e).None? {
      ReceiveNoService(p, j, h, e);
    } else {
      SendsDrainPending(h.m, DaemonEvent(h, e).value, h.lifetime, j);
      ReceiveSends(p, j, h, e);
    }
  }

  lemma ReceiveNoService(p: Peer, j: nat, h: Host, e: Event)
    requires e.DaemonDies? || e.DaemonStarts? || !h.alive || DaemonEvent(h, e).None?
    ensures Receive(p, j, h, e).wire.connected == p.wire.connected
    ensures HostStep(h, e).m.pending == h.m.pending || HostStep(h, e).m.pending == []
    ensures !e.DaemonDies? && !e.DaemonStarts? ==> HostStep(h, e).m == h.m
  {
  }

  // A step that notifies listeners sends no service and changes nothing else at a client.
  lemma NotesServeNobody(h: Host, e: Event)
    requires NoteOf(h, e) != [] && DaemonEvent(h, e).Some?
    ensures HostStep(h, e).m.sent == h.m.sent && !e.DaemonDies?
  {
    hide Apply, AfterPairing, ConfigUpdates, PairingNote, ChangedIds;
  }

  lemma ReceiveSends(p: Peer, j: nat, h: Host, e: Event)
    requires h.alive && DaemonEvent(h, e).Some?
    requires |h.m.sent| <= |Daemon.Step(h.m, DaemonEvent(h, e).value).sent|
    ensures HostStep(h, e).m == Daemon.Step(h.m, DaemonEvent(h, e).value)
    ensures Receive(p, j, h, e).wire.connected ==
            p.wire.connected + Sends(h.lifetime, HostStep(h, e).m.sent, |h.m.sent|, j)
  {
    HostBooks(h, e);
    if NoteOf(h, e) != [] { NotesServeNobody(h, e); }
    hide HostStep, NoteOf, Daemon.Step, DaemonEvent;
    if NoteOf(h, e) == [] {
      assert Receive(p, j, h, e) == ReceiveServices(p, Sends(h.lifetime, HostStep(h, e).m.sent, |h.m.sent|, j));
    }
  }

  lemma {:induction false} ReceiveListensOnce(p: Peer, j: nat, h: Host, e: Event)
    requires ListensOnce(p, j, h)
    requires h.alive && e == ListenerHandled(j, h.lifetime) ==> p.sync.registered && p.inst.manager == Some(h.lifetime)
    requires e.DaemonStarts? ==> !h.alive
    ensures ListensOnce(Receive(p, j, h, e), j, HostStep(h, e))
  {
    ReceiveFrame(p, j, h, e);
    HostListeners(h, e, j);
  }

  // ---- the whole system ----

  // Existing instances change by their own step, and perhaps by handing over to a new one.
  predicate Shape(s: System, e: Event, s': System)
    requires Enabled(s, e)
  {
    && s'.host == HostStep(s.host, e)
    && |s.peers| <= |s'.peers| <= |s.peers| + 1
    && (forall j :: 0 <= j < |s.peers| ==>
          s'.peers[j] == Peers(s, e)[j] ||
          (e == Reconnect(j) && s.peers[j].life.alive && s'.peers[j] == Retired(Peers(s, e)[j], |s.peers|)))
    && (|s'.peers| > |s.peers| ==> s'.peers[|s.peers|] == NewPeer(s'.peers[|s.peers|].subscription))
  }

  lemma StepShape(s: System, e: Event)
    requires Enabled(s, e)
    ensures Shape(s, e, Step(s, e))
  {
    hide PeerStep, HostStep, Possible;
  }

  lemma StepPeer(s: System, e: Event, j: nat)
    requires j < |s.peers|
    ensures j < |Step(s, e).peers|
    ensures !Enabled(s, e) ==> Step(s, e) == s
    ensures Enabled(s, e) ==>
              || Step(s, e).peers[j] == PeerStep(s.peers[j], j, s.host, e)
              || (e == Reconnect(j) && s.peers[j].life.alive &&
                  Step(s, e).peers[j] == Retired(PeerStep(s.peers[j], j, s.host, e), |s.peers|))
  {
    if Enabled(s, e) { StepShape(s, e); }
    hide PeerStep, HostStep, Possible;
  }

  lemma {:induction false} PeerStepKeeps(p: Peer, j: nat, h: Host, e: Event)
    requires PeerInv(p, j, h) && HostOk(h) && (e.DaemonStarts? ==> !h.alive) && !e.Reconnect?
    requires AboutInstance(e) && e.i == j ==> Possible(p, h, e)
    ensures PeerInv(PeerStep(p, j, h, e), j, HostStep(h, e))
  {
    hide Act, Receive, HostStep, Possible, Phased, AnsweredOnce, OwnService, Replaced;
    var q := if AboutInstance(e) && e.i == j then Act(p, j, h, e) else p;
    if AboutInstance(e) && e.i == j {
      ActPhased(p, j, h, e);
      ActOwnService(p, j, h, e);
      ActReplaced(p, j, h, e);
      ActAnsweredOnce(p, j, h, e);
      ActListensOnce(p, j, h, e);
      if h.alive && e == ListenerHandled(j, h.lifetime) { ActBringsListener(p, j, h, e); }
    }
    ReceivePhased(q, j, h, e);
    ReceiveOwnService(q, j, h, e);
    ReceiveReplaced(q, j, h, e);
    ReceiveAnsweredOnce(q, j, h, e);
    ReceiveListensOnce(q, j, h, e);
  }

  lemma HostStepKeeps(h: Host, e: Event, n: nat)
    requires HostInv(h, n) && (AboutInstance(e) ==> e.i < n)
    ensures HostInv(HostStep(h, e), n)
  {
  }

  lemma NewPeerInv(n: nat, subscription: nat, h: Host)
    requires HostInv(h, n)
    ensures PeerInv(NewPeer(subscription), n, h)
  {
    assert n !in h.m.pending;
    assert multiset(h.m.pending)[n] == 0;
  }

  // Creating and dropping instances is no business of the daemon, and nothing is received.
  lemma StructuralFrame(p: Peer, j: nat, h: Host, e: Event)
    requires e.Reconnect? || e.Subscribe? || e.Unsubscribe?
    ensures HostStep(h, e) == h && Receive(p, j, h, e) == p
  {
  }

  function OneReconnectLess(p: Peer): Peer
    requires p.life.reconnects > 0
  {
    p.(life := p.life.(reconnects := p.life.reconnects - 1))
  }

  lemma ReconnectStep(p: Peer, j: nat, h: Host)
    requires Possible(p, h, Reconnect(j))
    ensures PeerStep(p, j, h, Reconnect(j)) == OneReconnectLess(p)
  {
    StructuralFrame(OneReconnectLess(p), j, h, Reconnect(j));
    hide Receive, HostStep;
  }

  // The instance that runs ReconnectOnServiceDisconnection keeps its books, alive or not.
  lemma ReconnectKeeps(p: Peer, j: nat, h: Host, n: nat)
    requires PeerInv(p, j, h) && HostOk(h) && p.life.reconnects > 0 && p.inst.reading.None?
    ensures !p.life.alive ==> PeerInv(OneReconnectLess(p), j, h)
    ensures p.life.alive ==> PeerInv(Retired(OneReconnectLess(p), n), j, h)
  {
  }

  lemma ActAlive(p: Peer, j: nat, h: Host, e: Event)
    requires Possible(p, h, e)
    ensures Act(p, j, h, e).subscription == p.subscription
    ensures Act(p, j, h, e).life.alive == (p.life.alive && !e.Unsubscribe?)
  {
  }

  lemma PeerStepAlive(p: Peer, j: nat, h: Host, e: Event)
    requires AboutInstance(e) && e.i == j ==> Possible(p, h, e)
    ensures PeerStep(p, j, h, e).subscription == p.subscription
    ensures PeerStep(p, j, h, e).life.alive == (p.life.alive && e != Unsubscribe(j))
  {
    hide Act, Receive, Possible;
    if AboutInstance(e) && e.i == j {
      ActAlive(p, j, h, e);
      ReceiveFrame(Act(p, j, h, e), j, h, e);
    } else {
      ReceiveFrame(p, j, h, e);
    }
  }

  // Ownership depends only on who is alive and which subscription each instance serves.
  predicate OnlyUnsubscribingDies(s: System, e: Event)
    requires Enabled(s, e)
  {
    && (e.Unsubscribe? ==> s.peers[e.i].life.alive)
    && forall j :: 0 <= j < |s.peers| ==>
         && Peers(s, e)[j].subscription == s.peers[j].subscription
         && Peers(s, e)[j].life.alive == (s.peers[j].life.alive && e != Unsubscribe(j))
  }

  lemma OwnershipAfterReconnect(s: System, e: Event)
    requires OwnershipInv(s) && Enabled(s, e) && OnlyUnsubscribingDies(s, e) && e.Reconnect?
    ensures OwnershipInv(Step(s, e))
  {
    hide HostStep, PeerStep, Possible;
  }

  lemma OwnershipAfterOthers(s: System, e: Event)
    requires OwnershipInv(s) && Enabled(s, e) && OnlyUnsubscribingDies(s, e) && !e.Reconnect?
    ensures OwnershipInv(Step(s, e))
  {
    hide HostStep, PeerStep, Possible;
  }

  lemma {:induction false} StepKeepsOwnership(s: System, e: Event)
    requires OwnershipInv(s)
    ensures OwnershipInv(Step(s, e))
  {
    hide HostStep, PeerStep, OwnershipInv;
    if Enabled(s, e) {
      assert e.Unsubscribe? ==> s.peers[e.i].life.alive;
      hide Possible;
      forall j | 0 <= j < |s.peers|
        ensures Peers(s, e)[j].subscription == s.peers[j].subscription
        ensures Peers(s, e)[j].life.alive == (s.peers[j].life.alive && e != Unsubscribe(j))
      {
        PeerStepAlive(s.peers[j], j, s.host, e);
      }
      hide Step, Peers;
      if e.Reconnect? { OwnershipAfterReconnect(s, e); } else { OwnershipAfterOthers(s, e); }
    }
  }

  lemma {:induction false} StepKeepsPeers(s: System, e: Event)
    requires ConnectionInv(s) && Enabled(s, e) && !e.Reconnect?
    ensures HostInv(HostStep(s.host, e), |s.peers|)
    ensures forall j :: 0 <= j < |s.peers| ==> PeerInv(Peers(s, e)[j], j, HostStep(s.host, e))
  {
    HostStepKeeps(s.host, e, |s.peers|);
    hide HostStep, PeerStep, PeerInv, OwnershipInv;
    forall j | 0 <= j < |s.peers| ensures PeerInv(Peers(s, e)[j], j, HostStep(s.host, e)) {
      PeerStepKeeps(s.peers[j], j, s.host, e);
    }
  }

  lemma ReconnectPeers(s: System, i: nat)
    requires Enabled(s, Reconnect(i))
    ensures HostStep(s.host, Reconnect(i)) == s.host
    ensures Peers(s, Reconnect(i)) == s.peers[i := OneReconnectLess(s.peers[i])]
  {
    var e := Reconnect(i);
    StructuralFrame(s.peers[i], i, s.host, e);
    ReconnectStep(s.peers[i], i, s.host);
    forall j | 0 <= j < |s.peers| && j != i ensures Peers(s, e)[j] == s.peers[j] {
      StructuralFrame(s.peers[j], j, s.host, e);
      hide Receive, Act, HostStep, Possible;
    }
    hide PeerStep, HostStep, Possible;
  }

  // What a reconnect task leaves: a new instance in its place if it was alive, and one task less.
  lemma ReconnectResult(s: System, i: nat)
    requires Enabled(s, Reconnect(i)) && s.peers[i].subscription < |s.subscriptions|
    ensures var t, p, n := Step(s, Reconnect(i)), OneReconnectLess(s.peers[i]), |s.peers|;
            && t.host == s.host
            && t.peers == if p.life.alive then s.peers[i := Retired(p, n)] + [NewPeer(p.subscription)] else s.peers[i := p]
  {
    ReconnectPeers(s, i);
    hide PeerStep, HostStep, Possible, Peers;
  }

  lemma ReconnectQueued(s: System, i: nat)
    requires Enabled(s, Reconnect(i))
    ensures i < |s.peers| && s.peers[i].life.reconnects > 0 && s.peers[i].inst.reading.None?
  {
  }

  lemma HostInvGrows(h: Host, n: nat)
    requires HostInv(h, n)
    ensures HostInv(h, n + 1)
  {
  }

  lemma {:induction false} ReconnectKeepsAll(s: System, i: nat)
    requires ConnectionInv(s) && Enabled(s, Reconnect(i))
    ensures ConnectionInv(Step(s, Reconnect(i)))
  {
    hide Step, Enabled, PeerInv, OwnershipInv, HostInv;
    var e, n := Reconnect(i), |s.peers|;
    ReconnectQueued(s, i);
    OwnersServe(s, i);
    ReconnectResult(s, i);
    StepKeepsOwnership(s, e);
    HostInvGrows(s.host, n);
    NewPeerInv(n, s.peers[i].subscription, s.host);
    ReconnectKeeps(s.peers[i], i, s.host, n) by { HostIsOk(s.host, n); }
  }

  lemma HostIsOk(h: Host, n: nat)
    requires HostInv(h, n)
    ensures HostOk(h)
  {
  }

  lemma OwnersServe(s: System, i: nat)
    requires OwnershipInv(s) && i < |s.peers|
    ensures s.peers[i].subscription < |s.subscriptions|
  {
  }

  lemma {:induction false} StepKeeps(s: System, e: Event)
    requires ConnectionInv(s)
    ensures ConnectionInv(Step(s, e))
  {
    if Enabled(s, e) {
      if e.Reconnect? {
        ReconnectKeepsAll(s, e.i);
      } else {
        StepKeepsOwnership(s, e);
        StepKeepsPeers(s, e);
        if e.Subscribe? {
          StructuralFrame(NewPeer(0), 0, s.host, e);
          NewPeerInv(|s.peers|, |s.subscriptions|, s.host);
        }
        hide PeerInv, HostStep, PeerStep, OwnershipInv, Possible;
      }
    }
  }

  lemma {:induction false} RunKeeps(events: seq<Event>)
    ensures ConnectionInv(Run(events))
  {
    if events == [] {
    } else {
      RunKeeps(events[..|events| - 1]);
      StepKeeps(Run(events[..|events| - 1]), events[|events| - 1]);
    }
  }

  // ---- what a client may rely on, over every run ----

  /** Every live instance is in exactly one of the three phases, whatever died, failed or was retried. */
  lemma NeverStuck(events: seq<Event>, j: nat)
    requires j < |Run(events).peers| && Run(events).peers[j].life.alive
    ensures var p, h := Run(events).peers[j], Run(events).host;
            || (Trying(p) && !Watching(p, h) && !Reconnecting(p))
            || (!Trying(p) && Watching(p, h) && !Reconnecting(p))
            || (!Trying(p) && !Watching(p, h) && Reconnecting(p))
  {
    RunKeeps(events);
  }

  /** Each instance sends connect at most once and runs the connection callback at most once. */
  lemma ConnectsAndCallsBackOnce(events: seq<Event>, j: nat)
    requires j < |Run(events).peers|
    ensures Run(events).peers[j].inst.callbacks <= Run(events).peers[j].inst.connects <= 1
  {
    RunKeeps(events);
  }

  /** The callback runs only on a live instance, which by then holds the service made for it. */
  lemma {:induction false} CallbackOnlyWhenReady(events: seq<Event>, e: Event, j: nat)
    requires j < |Run(events).peers|
    requires Step(Run(events), e).peers[j].inst.callbacks != Run(events).peers[j].inst.callbacks
    ensures Run(events).peers[j].life.alive && Run(events).peers[j].inst.callbacks == 0
    ensures Step(Run(events), e).peers[j].inst.service.Some?
    ensures Step(Run(events), e).peers[j].inst.service.value.client == j
  {
    var s := Run(events);
    RunKeeps(events);
    StepKeeps(s, e);
    CallbacksFrame(s, e, j);
  }

  lemma PeerStepCallbacks(p: Peer, j: nat, h: Host, e: Event)
    requires AboutInstance(e) && e.i == j ==> Possible(p, h, e)
    ensures !p.life.alive || !(e.ServiceConnected? && e.i == j) ==>
              PeerStep(p, j, h, e).inst.callbacks == p.inst.callbacks
    ensures p.life.alive && e.ServiceConnected? && e.i == j ==>
              PeerStep(p, j, h, e).inst == ServiceReady(p.inst, e.service)
  {
    if AboutInstance(e) && e.i == j { ActCallbacks(p, j, h, e); }
    ReceiveFrame(if AboutInstance(e) && e.i == j then Act(p, j, h, e) else p, j, h, e);
    hide Act, Receive, Possible;
  }

  lemma CallbacksFrame(s: System, e: Event, j: nat)
    requires j < |s.peers|
    ensures j < |Step(s, e).peers|
    ensures !s.peers[j].life.alive || !(e.ServiceConnected? && e.i == j) ==>
              Step(s, e).peers[j].inst.callbacks == s.peers[j].inst.callbacks
    ensures e.ServiceConnected? && e.i == j && Enabled(s, e) && s.peers[j].life.alive ==>
              Step(s, e).peers[j].inst == ServiceReady(s.peers[j].inst, e.service)
  {
    StepPeer(s, e, j);
    if Enabled(s, e) { PeerStepCallbacks(s.peers[j], j, s.host, e); }
    hide Step, PeerStep, Possible;
  }

  lemma ActCallbacks(p: Peer, j: nat, h: Host, e: Event)
    requires Possible(p, h, e)
    ensures !p.life.alive || !e.ServiceConnected? ==> Act(p, j, h, e).inst.callbacks == p.inst.callbacks
    ensures p.life.alive && e.ServiceConnected? ==> Act(p, j, h, e).inst == ServiceReady(p.inst, e.service)
  {
  }

  /** Late messages to a dead or replaced instance never run its callback again. */
  lemma {:induction false} DeadInstancesStaySilent(events: seq<Event>, e: Event, j: nat)
    requires j < |Run(events).peers| && !Run(events).peers[j].life.alive
    ensures Step(Run(events), e).peers[j].inst.callbacks == Run(events).peers[j].inst.callbacks
    ensures !Step(Run(events), e).peers[j].life.alive
  {
    CallbacksFrame(Run(events), e, j);
    StaysDead(Run(events), e, j);
  }

  lemma StaysDead(s: System, e: Event, j: nat)
    requires j < |s.peers| && !s.peers[j].life.alive
    ensures j < |Step(s, e).peers| && !Step(s, e).peers[j].life.alive
  {
    if Enabled(s, e) {
      PeerStepAlive(s.peers[j], j, s.host, e);
      hide PeerStep, HostStep, Possible;
    }
  }

  /**
   However many death notices arrive, an instance is replaced at most once; and once its reconnect tasks
   have run it has been replaced, unless its subscription was dropped.
   */
  lemma ReplacedExactlyOnce(events: seq<Event>, j: nat)
    requires j < |Run(events).peers|
    ensures var life := Run(events).peers[j].life;
            && |life.replacedBy| <= 1
            && (life.asked > 0 && life.reconnects == 0 && !life.closed ==> |life.replacedBy| == 1)
  {
    RunKeeps(events);
  }

  /** A reconnect task of a live instance ends it and puts a fresh one, already trying, in its place. */
  lemma {:induction false} ReconnectStartsAfresh(events: seq<Event>, i: nat)
    requires i < |Run(events).peers| && Run(events).peers[i].life.alive && Enabled(Run(events), Reconnect(i))
    ensures var s, s' := Run(events), Step(Run(events), Reconnect(i));
            && |s'.peers| == |s.peers| + 1 && !s'.peers[i].life.alive
            && s'.peers[i].life.replacedBy == [|s.peers|]
            && s'.peers[|s.peers|] == NewPeer(s.peers[i].subscription) && Trying(s'.peers[|s.peers|])
            && s'.subscriptions == s.subscriptions[s.peers[i].subscription := Some(|s.peers|)]
  {
    RunKeeps(events);
    var s := Run(events);
    ReconnectStep(s.peers[i], i, s.host);
    hide PeerStep, HostStep, HostInv, Possible;
  }

  /** Every open subscription owns exactly one live instance; a dropped one owns none. */
  lemma OneLiveInstancePerSubscription(events: seq<Event>, u: nat)
    requires u < |Run(events).subscriptions|
    ensures var s := Run(events);
            forall j :: 0 <= j < |s.peers| && s.peers[j].subscription == u ==>
              (s.peers[j].life.alive <==> s.subscriptions[u] == Some(j))
    ensures Run(events).subscriptions[u].Some? ==>
              && Run(events).subscriptions[u].value < |Run(events).peers|
              && Run(events).peers[Run(events).subscriptions[u].value].life.alive
  {
    RunKeeps(events);
  }

  // ---- the daemon's books, given that clients are distinct ----

  predicate ArrivedOnce(p: Peer, j: nat, h: Host, arriving: nat) {
    p.inst.connects <= 1 && multiset(h.m.connects)[j] + |p.wire.connect| + arriving <= p.inst.connects
  }

  ghost predicate BooksInv(s: System) {
    && Daemon.Conserved(s.host.m)
    && (forall c :: c in s.host.m.connects ==> c < |s.peers|)
    && (forall j :: 0 <= j < |s.peers| ==> ArrivedOnce(s.peers[j], j, s.host, 0))
  }

  lemma HostBooks(h: Host, e: Event)
    ensures h.alive && DaemonEvent(h, e).Some? ==> HostStep(h, e).m == Daemon.Step(h.m, DaemonEvent(h, e).value)
    ensures !(h.alive && DaemonEvent(h, e).Some?) ==> HostStep(h, e).m == h.m || HostStep(h, e).m == Daemon.FRESH
  {
    hide Daemon.Step;
  }

  lemma HostConnects(h: Host, e: Event, j: nat)
    requires Daemon.Conserved(h.m)
    ensures Daemon.Conserved(HostStep(h, e).m)
    ensures multiset(HostStep(h, e).m.connects)[j] <= multiset(h.m.connects)[j] + Arriving(h, e, j)
    ensures forall c :: c in HostStep(h, e).m.connects ==> c in h.m.connects || (e.ConnectHandled? && c == e.i)
  {
    HostBooks(h, e);
    hide HostStep, Daemon.Step;
    if h.alive && DaemonEvent(h, e).Some? {
      Daemon.StepConserves(h.m, DaemonEvent(h, e).value);
      Daemon.StepConnects(h.m, DaemonEvent(h, e).value);
      hide Daemon.Conserved;
    }
  }

  lemma ActArrivedOnce(p: Peer, j: nat, h: Host, e: Event)
    requires ArrivedOnce(p, j, h, 0) && Phased(p, h) && Possible(p, h, e) && AboutInstance(e) && e.i == j
    ensures ArrivedOnce(Act(p, j, h, e), j, h, Arriving(h, e, j))
  {
    if e.TryConnecting? {
      assert Act(p, j, h, e) == OnTryConnecting(p, h, e.found, e.registered);
    } else if e.ConnectHandled? {
      assert Act(p, j, h, e).wire.connect == p.wire.connect - multiset{e.lifetime};
    } else if e.ServiceConnected? {
      assert Act(p, j, h, e) == OnServiceConnected(p, e.service);
    } else {
      ActKeepsConnection(p, j, h, e);
    }
  }

  lemma {:induction false} PeerStepArrivedOnce(p: Peer, j: nat, h: Host, e: Event)
    requires ArrivedOnce(p, j, h, 0) && Phased(p, h) && Daemon.Conserved(h.m)
    requires AboutInstance(e) && e.i == j ==> Possible(p, h, e)
    ensures ArrivedOnce(PeerStep(p, j, h, e), j, HostStep(h, e), 0)
  {
    hide Act, Receive, HostStep, Possible, Daemon.Conserved, Phased;
    HostConnects(h, e, j);
    if AboutInstance(e) && e.i == j { ActArrivedOnce(p, j, h, e); }
    ReceiveFrame(if AboutInstance(e) && e.i == j then Act(p, j, h, e) else p, j, h, e);
  }

  lemma {:induction false} PeersKeepBooks(s: System, e: Event)
    requires ConnectionInv(s) && BooksInv(s) && Enabled(s, e)
    ensures var h := HostStep(s.host, e);
            && Daemon.Conserved(h.m)
            && (forall c :: c in h.m.connects ==> c < |s.peers|)
            && (forall j :: 0 <= j < |s.peers| ==> ArrivedOnce(Peers(s, e)[j], j, h, 0))
  {
    HostConnects(s.host, e, 0);
    assert e.ConnectHandled? ==> e.i < |s.peers|;
    hide PeerStep, HostStep, Possible;
    forall j | 0 <= j < |s.peers| ensures ArrivedOnce(Peers(s, e)[j], j, HostStep(s.host, e), 0) {
      PeerStepArrivedOnce(s.peers[j], j, s.host, e);
    }
  }

  lemma ShapeKeepsBooks(s: System, e: Event, s': System)
    requires Enabled(s, e) && Shape(s, e, s') && Daemon.Conserved(s'.host.m)
    requires forall c :: c in s'.host.m.connects ==> c < |s.peers|
    requires forall j :: 0 <= j < |s.peers| ==> ArrivedOnce(Peers(s, e)[j], j, s'.host, 0)
    ensures BooksInv(s')
  {
    hide PeerStep, HostStep, Daemon.Conserved, Enabled;
    assert |s.peers| !in s'.host.m.connects;
    assert |s.peers| !in multiset(s'.host.m.connects);
  }

  lemma StepKeepsBooks(s: System, e: Event)
    requires ConnectionInv(s) && BooksInv(s)
    ensures BooksInv(Step(s, e))
  {
    hide HostStep, PeerStep, ConnectionInv, Daemon.Conserved, Possible;
    if Enabled(s, e) {
      PeersKeepBooks(s, e);
      StepShape(s, e);
      hide Step, BooksInv;
      ShapeKeepsBooks(s, e, Step(s, e));
    }
  }

  lemma {:induction false} RunKeepsBooks(events: seq<Event>)
    ensures BooksInv(Run(events))
  {
    if events == [] {
    } else {
      var s := Run(events[..|events| - 1]);
      RunKeeps(events[..|events| - 1]);
      RunKeepsBooks(events[..|events| - 1]);
      StepKeepsBooks(s, events[|events| - 1]);
    }
  }

  /** In the protocol no client is ever taken in twice, so the daemon's services_ is always exact. */
  lemma {:induction false} EachClientServedOnce(events: seq<Event>)
    ensures var m := Run(events).host.m;
            && Daemon.NoRepeats(m.connects) && m.connects == m.sent + m.pending
            && Daemon.ServicesExact(m.services, m.sent, m.gone)
  {
    RunKeepsBooks(events);
    var s := Run(events);
    forall c | c in s.host.m.connects ensures multiset(s.host.m.connects)[c] <= 1 {
      assert ArrivedOnce(s.peers[c], c, s.host, 0);
    }
    Daemon.CountedOnce(s.host.m.connects);
  }
}
