/**
 No dead ends: from every reachable state of the protocol there is a way on,
 without any crash, to a state in which the instance owned by an open
 subscription has run its connection callback and holds a service of the
 daemon that is running.
 */
module Recovery {
  import opened Base
  import opened Instance
  import opened Protocol
  import R = Reconnection

  // ---- a connect to the running daemon is never lost ----

  // It is answered, or the answer is on its way, or the client waits, or the connect is on its way.
  predicate Answerable(p: Peer, j: nat, h: Host, arriving: nat) {
    && (p.inst.manager.Some? ==> p.inst.manager.value <= h.lifetime)
    && (forall r :: r in p.wire.connected ==> p.inst.manager == Some(r.lifetime))
    && (p.inst.service.Some? ==> p.inst.manager == Some(p.inst.service.value.lifetime))
    && (forall l :: l in p.wire.connect ==> p.inst.manager == Some(l))
    && (j in h.m.pending || arriving > 0 ==> h.alive && p.inst.manager == Some(h.lifetime))
    && (p.life.alive && h.alive && p.inst.manager == Some(h.lifetime) ==>
          p.inst.callbacks + |p.wire.connected| + multiset(h.m.pending)[j] + |p.wire.connect| + arriving > 0)
  }

  lemma ActKeepsAnswer(p: Peer, j: nat, h: Host, e: Event)
    requires Possible(p, h, e) && !e.TryConnecting? && !e.ServiceConnected? && !e.ConnectHandled?
    ensures var q := Act(p, j, h, e);
            q.inst.manager == p.inst.manager && q.inst.service == p.inst.service && (q.life.alive ==> p.life.alive)
  {
  }

  lemma TryAnswerable(p: Peer, j: nat, h: Host, found: bool, registered: bool)
    requires Answerable(p, j, h, 0) && R.Phased(p, h) && R.AnsweredOnce(p, j, h, 0)
    requires p.life.tries > 0 && (found && registered ==> h.alive)
    ensures Answerable(OnTryConnecting(p, h, found, registered), j, h, 0)
  {
  }

  lemma ServiceAnswerable(p: Peer, j: nat, h: Host, r: ServiceRef)
    requires Answerable(p, j, h, 0) && r in p.wire.connected
    ensures Answerable(OnServiceConnected(p, r), j, h, 0)
  {
  }

  lemma ArrivalAnswerable(p: Peer, j: nat, h: Host, l: nat)
    requires Answerable(p, j, h, 0) && l in p.wire.connect
    ensures Answerable(p.(wire := p.wire.(connect := p.wire.connect - multiset{l})), j, h,
                       R.Arriving(h, ConnectHandled(j, l), j))
  {
  }

  lemma SameAnswerable(p: Peer, q: Peer, j: nat, h: Host)
    requires Answerable(p, j, h, 0) && q.wire.connect == p.wire.connect && q.wire.connected == p.wire.connected
    requires q.inst.manager == p.inst.manager && q.inst.service == p.inst.service && (q.life.alive ==> p.life.alive)
    requires q.inst.callbacks == p.inst.callbacks
    ensures Answerable(q, j, h, 0)
  {
  }

  lemma OtherActAnswerable(p: Peer, j: nat, h: Host, e: Event)
    requires Answerable(p, j, h, 0) && Possible(p, h, e)
    requires !e.TryConnecting? && !e.ServiceConnected? && !e.ConnectHandled?
    ensures Answerable(Act(p, j, h, e), j, h, 0)
  {
    R.ActKeepsConnection(p, j, h, e);
    ActKeepsAnswer(p, j, h, e);
    hide Act, Possible, Answerable;
    SameAnswerable(p, Act(p, j, h, e), j, h);
  }

  lemma ActAnswerable(p: Peer, j: nat, h: Host, e: Event)
    requires Answerable(p, j, h, 0) && R.Phased(p, h) && R.AnsweredOnce(p, j, h, 0)
    requires Possible(p, h, e) && AboutInstance(e) && e.i == j
    ensures Answerable(Act(p, j, h, e), j, h, R.Arriving(h, e, j))
  {
    hide Answerable, R.Phased, R.AnsweredOnce;
    if e.TryConnecting? {
      TryAnswerable(p, j, h, e.found, e.registered);
    } else if e.ServiceConnected? {
      ServiceAnswerable(p, j, h, e.service);
    } else if e.ConnectHandled? {
      ArrivalAnswerable(p, j, h, e.lifetime);
    } else {
      OtherActAnswerable(p, j, h, e);
      hide Act, Possible;
    }
  }

  lemma ReceiveAnswerable(p: Peer, j: nat, h: Host, e: Event)
    requires Answerable(p, j, h, R.Arriving(h, e, j)) && R.HostOk(h)
    requires e.DaemonStarts? ==> !h.alive
    ensures Answerable(Receive(p, j, h, e), j, HostStep(h, e), 0)
  {
    hide Answerable, Receive, HostStep, R.HostOk, R.Arriving;
    if e.DaemonDies? || e.DaemonStarts? || !h.alive || DaemonEvent(h, e).None? {
      NothingAnswered(p, j, h, e);
    } else {
      PendingAnswered(p, j, h, e);
    }
  }

  lemma NothingAnswered(p: Peer, j: nat, h: Host, e: Event)
    requires Answerable(p, j, h, R.Arriving(h, e, j)) && R.HostOk(h)
    requires e.DaemonStarts? ==> !h.alive
    requires e.DaemonDies? || e.DaemonStarts? || !h.alive || DaemonEvent(h, e).None?
    ensures Answerable(Receive(p, j, h, e), j, HostStep(h, e), 0)
  {
    HostLife(h, e);
    HostStaysOk(h, e);
    hide Receive, HostStep;
    R.ReceiveFrame(p, j, h, e);
    R.ReceiveNoService(p, j, h, e);
  }

  lemma PendingAnswered(p: Peer, j: nat, h: Host, e: Event)
    requires Answerable(p, j, h, R.Arriving(h, e, j)) && R.HostOk(h)
    requires !e.DaemonDies? && !e.DaemonStarts? && h.alive && DaemonEvent(h, e).Some?
    ensures Answerable(Receive(p, j, h, e), j, HostStep(h, e), 0)
  {
    HostLife(h, e);
    ArrivalIsConnect(h, e, j);
    hide Receive, HostStep, Daemon.Step, Sends, DaemonEvent, R.Arriving;
    R.ReceiveFrame(p, j, h, e);
    R.SendsDrainPending(h.m, DaemonEvent(h, e).value, h.lifetime, j);
    R.ReceiveSends(p, j, h, e);
    R.SendsCount(h.lifetime, HostStep(h, e).m.sent, |h.m.sent|, j);
  }

  lemma ArrivalIsConnect(h: Host, e: Event, j: nat)
    requires h.alive && DaemonEvent(h, e).Some?
    ensures R.Arriving(h, e, j) == if DaemonEvent(h, e).value == Daemon.ConnectArrives(j) then 1 else 0
  {
  }

  lemma HostStaysOk(h: Host, e: Event)
    requires R.HostOk(h) && (e.DaemonStarts? ==> !h.alive)
    ensures R.HostOk(HostStep(h, e))
  {
  }

  lemma HostLife(h: Host, e: Event)
    ensures HostStep(h, e).alive == (e.DaemonStarts? || (h.alive && !e.DaemonDies?))
    ensures HostStep(h, e).lifetime == if e.DaemonStarts? then h.lifetime + 1 else h.lifetime
  {
    hide Daemon.Step;
  }

  lemma PeerStepAnswerable(p: Peer, j: nat, h: Host, e: Event)
    requires Answerable(p, j, h, 0) && R.PeerInv(p, j, h) && R.HostOk(h) && (e.DaemonStarts? ==> !h.alive)
    requires AboutInstance(e) && e.i == j ==> Possible(p, h, e)
    ensures Answerable(PeerStep(p, j, h, e), j, HostStep(h, e), 0)
  {
    hide Answerable, Act, Receive, HostStep, Possible, R.Phased, R.AnsweredOnce, R.HostOk;
    if AboutInstance(e) && e.i == j {
      ActAnswerable(p, j, h, e);
      ReceiveAnswerable(Act(p, j, h, e), j, h, e);
    } else {
      ReceiveAnswerable(p, j, h, e);
    }
  }

  predicate AllAnswerable(s: System) {
    forall j :: 0 <= j < |s.peers| ==> Answerable(s.peers[j], j, s.host, 0)
  }

  predicate SystemInv(s: System) {
    R.ConnectionInv(s) && AllAnswerable(s)
  }

  lemma NewAndRetiredAnswerable(p: Peer, j: nat, h: Host, n: nat, subscription: nat)
    ensures Answerable(p, j, h, 0) ==> Answerable(Retired(p, n), j, h, 0)
    ensures n !in h.m.pending ==> Answerable(NewPeer(subscription), n, h, 0)
  {
  }

  lemma PeersAnswerable(s: System, e: Event)
    requires SystemInv(s) && Enabled(s, e)
    ensures forall j :: 0 <= j < |s.peers| ==> Answerable(Peers(s, e)[j], j, HostStep(s.host, e), 0)
    ensures |s.peers| !in HostStep(s.host, e).m.pending
  {
    R.HostStepKeeps(s.host, e, |s.peers|);
    hide HostStep, PeerStep, Possible, Answerable, R.PeerInv, R.OwnershipInv;
    forall j | 0 <= j < |s.peers| ensures Answerable(Peers(s, e)[j], j, HostStep(s.host, e), 0) {
      PeerStepAnswerable(s.peers[j], j, s.host, e);
    }
  }

  lemma ShapeAnswerable(s: System, e: Event, s': System)
    requires Enabled(s, e) && R.Shape(s, e, s') && |s.peers| !in s'.host.m.pending
    requires forall j :: 0 <= j < |s.peers| ==> Answerable(Peers(s, e)[j], j, s'.host, 0)
    ensures AllAnswerable(s')
  {
    hide Answerable, PeerStep, HostStep, Enabled;
    var n := |s.peers|;
    forall j | 0 <= j < |s'.peers| ensures Answerable(s'.peers[j], j, s'.host, 0) {
      NewAndRetiredAnswerable(if j < n then Peers(s, e)[j] else s'.peers[j], j, s'.host, n, s'.peers[j].subscription);
    }
  }

  lemma StepKeeps(s: System, e: Event)
    requires SystemInv(s)
    ensures SystemInv(Step(s, e))
  {
    hide HostStep, PeerStep, Answerable, AllAnswerable, R.ConnectionInv, Possible;
    R.StepKeeps(s, e);
    if Enabled(s, e) {
      PeersAnswerable(s, e);
      R.StepShape(s, e);
      hide Step;
      ShapeAnswerable(s, e, Step(s, e));
    }
  }

  lemma {:induction false} RunKeeps(events: seq<Event>)
    ensures SystemInv(Run(events))
  {
    if events == [] {
    } else {
      RunKeeps(events[..|events| - 1]);
      hide Step, SystemInv;
      StepKeeps(Run(events[..|events| - 1]), events[|events| - 1]);
    }
  }

  // ---- going on from a state ----

  function RunFrom(s: System, more: seq<Event>): System
    decreases |more|
  {
    if more == [] then s else RunFrom(Step(s, more[0]), more[1..])
  }

  lemma {:induction false} RunOn(events: seq<Event>, more: seq<Event>)
    ensures Run(events + more) == RunFrom(Run(events), more)
    decreases |more|
  {
    if more == [] {
      assert events + more == events;
    } else {
      var next := events + [more[0]];
      assert next + more[1..] == events + more && next[..|events|] == events;
      RunOn(next, more[1..]);
      hide Step;
    }
  }

  // Nothing crashes and nobody gives up.
  predicate Harmless(e: Event) {
    !e.DaemonDies? && !e.Unsubscribe? && !e.DeviceStopped?
  }

  predicate Calm(more: seq<Event>) {
    forall e :: e in more ==> Harmless(e)
  }

  lemma CalmStep(s: System, e: Event, rest: seq<Event>, u: nat)
    requires Harmless(e) && Calm(rest) && Restored(RunFrom(Step(s, e), rest), u)
    ensures Calm([e] + rest) && Restored(RunFrom(s, [e] + rest), u)
  {
    var more := [e] + rest;
    assert more[0] == e && more[1..] == rest;
    hide Step, Restored;
  }

  lemma AlreadyThere(s: System, u: nat)
    requires Restored(s, u)
    ensures Calm([]) && Restored(RunFrom(s, []), u)
  {
  }

  // ---- the instance that a subscription owns ----

  predicate Owner(s: System, u: nat, i: nat) {
    && u < |s.subscriptions| && s.subscriptions[u] == Some(i)
    && i < |s.peers| && s.peers[i].life.alive && s.peers[i].subscription == u
  }

  // Its callback has run, and it holds a service of the daemon that is running.
  predicate Restored(s: System, u: nat) {
    && u < |s.subscriptions| && s.subscriptions[u].Some? && s.subscriptions[u].value < |s.peers|
    && var p := s.peers[s.subscriptions[u].value];
    && p.life.alive && p.inst.callbacks == 1 && s.host.alive
    && p.inst.service.Some? && p.inst.service.value.lifetime == s.host.lifetime
  }

  lemma StaysOwner(s: System, e: Event, u: nat, i: nat)
    requires SystemInv(s) && Owner(s, u, i) && Enabled(s, e) && e != Reconnect(i) && e != Unsubscribe(i)
    ensures SystemInv(Step(s, e)) && Owner(Step(s, e), u, i)
    ensures Step(s, e).peers[i] == PeerStep(s.peers[i], i, s.host, e) && Step(s, e).host == HostStep(s.host, e)
  {
    StepKeeps(s, e);
    R.StepPeer(s, e, i);
    R.StepShape(s, e);
    assert AboutInstance(e) && e.i == i ==> Possible(s.peers[i], s.host, e);
    R.PeerStepAlive(s.peers[i], i, s.host, e);
    hide Step, PeerStep, HostStep, Possible, AllAnswerable, R.PeerInv, R.HostInv;
  }

  // One step about instance i, and what does not change at it.
  lemma OwnStep(s: System, e: Event, u: nat, i: nat)
    requires SystemInv(s) && Owner(s, u, i) && Enabled(s, e) && e != Reconnect(i) && e != Unsubscribe(i)
    requires AboutInstance(e) && e.i == i
    ensures var q, a := Step(s, e).peers[i], Act(s.peers[i], i, s.host, e);
            && q.inst == a.inst && q.life.(notice := a.life.notice) == a.life && q.wire.connect == a.wire.connect
            && (!e.DaemonDies? ==> q.life.notice == a.life.notice)
  {
    StaysOwner(s, e, u, i);
    var a := Act(s.peers[i], i, s.host, e);
    R.ReceiveFrame(a, i, s.host, e);
    NoticeStays(a, i, s.host, e);
    hide Step, Receive, Act, HostStep, Possible, SystemInv;
  }

  lemma NoticeStays(p: Peer, j: nat, h: Host, e: Event)
    requires !e.DaemonDies?
    ensures Receive(p, j, h, e).life == p.life
  {
  }

  // A step of the daemon leaves the instance's own state alone.
  lemma DaemonStep(s: System, e: Event, u: nat, i: nat)
    requires SystemInv(s) && Owner(s, u, i) && Enabled(s, e) && (e.DaemonStarts? || e.DeviceCreated?)
    ensures SystemInv(Step(s, e)) && Owner(Step(s, e), u, i)
    ensures var p, q := s.peers[i], Step(s, e).peers[i]; q.inst == p.inst && q.life == p.life
    ensures Step(s, e).host == HostStep(s.host, e)
  {
    StaysOwner(s, e, u, i);
    R.ReceiveFrame(s.peers[i], i, s.host, e);
    NoticeStays(s.peers[i], i, s.host, e);
    hide Step, Receive, HostStep, SystemInv;
  }

  // ---- from a connect to the callback ----

  // The instance has connected to the running daemon, which has a device.
  predicate Asking(s: System, u: nat, i: nat) {
    && SystemInv(s) && Owner(s, u, i) && s.host.alive && s.host.m.device
    && s.peers[i].inst.manager == Some(s.host.lifetime) && s.peers[i].inst.reading.None?
  }

  lemma CalledBack(s: System, u: nat, i: nat)
    requires Asking(s, u, i) && s.peers[i].inst.callbacks > 0
    ensures Restored(s, u)
  {
    assert R.PeerInv(s.peers[i], i, s.host) && Answerable(s.peers[i], i, s.host, 0);
    hide Possible, R.OwnershipInv, R.HostInv;
  }

  lemma ServiceComes(s: System, u: nat, i: nat, r: ServiceRef)
    requires Asking(s, u, i) && r in s.peers[i].wire.connected
    ensures Enabled(s, ServiceConnected(i, r))
    ensures Asking(Step(s, ServiceConnected(i, r)), u, i)
    ensures Step(s, ServiceConnected(i, r)).peers[i].inst.callbacks > 0
  {
    var e := ServiceConnected(i, r);
    StaysOwner(s, e, u, i);
    OwnStep(s, e, u, i);
    HostLife(s.host, e);
    assert HostStep(s.host, e).m.device;
    assert Act(s.peers[i], i, s.host, e) == OnServiceConnected(s.peers[i], r);
    hide Step, SystemInv, Possible, Act, HostStep;
  }

  // With a device nobody waits, so the answer is on its way unless it has come.
  lemma AnswerSomewhere(s: System, u: nat, i: nat)
    requires Asking(s, u, i) && s.peers[i].wire.connect == multiset{}
    ensures s.peers[i].inst.callbacks > 0 || |s.peers[i].wire.connected| > 0
  {
    assert Answerable(s.peers[i], i, s.host, 0) && R.HostOk(s.host);
    assert multiset(s.host.m.pending)[i] == 0;
    hide R.PeerInv, R.OwnershipInv;
  }

  lemma AnswerOnItsWay(s: System, u: nat, i: nat, r: ServiceRef) returns (more: seq<Event>)
    requires Asking(s, u, i) && r in s.peers[i].wire.connected
    ensures Calm(more) && Restored(RunFrom(s, more), u)
  {
    hide Step, RunFrom, Calm, Restored, SystemInv, Enabled;
    var e := ServiceConnected(i, r);
    ServiceComes(s, u, i, r);
    CalledBack(Step(s, e), u, i);
    AlreadyThere(Step(s, e), u);
    CalmStep(s, e, [], u);
    more := [e] + [];
  }

  lemma AnswerArrives(s: System, u: nat, i: nat) returns (more: seq<Event>)
    requires Asking(s, u, i) && s.peers[i].wire.connect == multiset{}
    ensures Calm(more) && Restored(RunFrom(s, more), u)
  {
    AnswerSomewhere(s, u, i);
    hide Step, RunFrom, Calm, Restored, SystemInv, Enabled;
    if s.peers[i].inst.callbacks > 0 {
      CalledBack(s, u, i);
      AlreadyThere(s, u);
      more := [];
    } else {
      var r :| r in s.peers[i].wire.connected;
      more := AnswerOnItsWay(s, u, i, r);
    }
  }

  lemma ConnectTakenIn(s: System, u: nat, i: nat, l: nat)
    requires Asking(s, u, i) && l in s.peers[i].wire.connect
    ensures Enabled(s, ConnectHandled(i, l))
    ensures Asking(Step(s, ConnectHandled(i, l)), u, i)
    ensures Step(s, ConnectHandled(i, l)).peers[i].wire.connect == multiset{}
  {
    var e, p := ConnectHandled(i, l), s.peers[i];
    OneConnect(s, u, i, l);
    StaysOwner(s, e, u, i);
    OwnStep(s, e, u, i);
    HostLife(s.host, e);
    assert HostStep(s.host, e).m.device;
    assert Act(p, i, s.host, e).wire.connect == p.wire.connect - multiset{l} && Act(p, i, s.host, e).inst == p.inst;
    hide Step, SystemInv, Act, Possible, HostStep;
  }

  lemma OneConnect(s: System, u: nat, i: nat, l: nat)
    requires Asking(s, u, i) && l in s.peers[i].wire.connect
    ensures s.peers[i].wire.connect - multiset{l} == multiset{}
  {
    var connect := s.peers[i].wire.connect;
    assert R.PeerInv(s.peers[i], i, s.host);
    assert |connect - multiset{l}| == 0;
    hide Answerable, R.OwnershipInv, R.HostInv, R.Phased, R.OwnService, R.ListensOnce, R.Replaced;
  }

  lemma ConnectIsAnswered(s: System, u: nat, i: nat) returns (more: seq<Event>)
    requires Asking(s, u, i)
    ensures Calm(more) && Restored(RunFrom(s, more), u)
  {
    hide Step, RunFrom, Calm, Restored, SystemInv, Enabled;
    if s.peers[i].wire.connect == multiset{} {
      more := AnswerArrives(s, u, i);
    } else {
      var l :| l in s.peers[i].wire.connect;
      var e := ConnectHandled(i, l);
      ConnectTakenIn(s, u, i, l);
      var rest := AnswerArrives(Step(s, e), u, i);
      CalmStep(s, e, rest, u);
      more := [e] + rest;
    }
  }

  // ---- from any phase to a connect ----

  // The daemon runs and has a device.
  predicate Ready(s: System, u: nat, i: nat) {
    SystemInv(s) && Owner(s, u, i) && s.host.alive && s.host.m.device && s.peers[i].inst.reading.None?
  }

  lemma TryAsks(s: System, u: nat, i: nat)
    requires Ready(s, u, i) && R.Trying(s.peers[i])
    ensures Asking(Step(s, TryConnecting(i, true, true)), u, i)
  {
    var e := TryConnecting(i, true, true);
    StaysOwner(s, e, u, i);
    OwnStep(s, e, u, i);
    assert HostStep(s.host, e) == s.host;
    assert Act(s.peers[i], i, s.host, e).inst == Instance.Connected(s.peers[i].inst, s.host.lifetime);
    hide Step, SystemInv, Act, Possible, HostStep;
  }

  lemma TryingConnects(s: System, u: nat, i: nat) returns (more: seq<Event>)
    requires Ready(s, u, i) && R.Trying(s.peers[i])
    ensures Calm(more) && Restored(RunFrom(s, more), u)
  {
    hide Step, RunFrom, Calm, Restored, SystemInv;
    var e := TryConnecting(i, true, true);
    TryAsks(s, u, i);
    var rest := ConnectIsAnswered(Step(s, e), u, i);
    CalmStep(s, e, rest, u);
    more := [e] + rest;
  }

  lemma ReconnectMakesPeer(s: System, u: nat, i: nat)
    requires Owner(s, u, i) && s.peers[i].life.reconnects > 0 && s.peers[i].inst.reading.None?
    ensures var t := Step(s, Reconnect(i));
            Owner(t, u, |s.peers|) && t.host == s.host && t.peers[|s.peers|] == NewPeer(u)
  {
    R.StructuralFrame(s.peers[i], i, s.host, Reconnect(i));
    hide PeerStep, HostStep;
  }

  lemma ReconnectHandsOver(s: System, u: nat, i: nat)
    requires Ready(s, u, i) && s.peers[i].life.reconnects > 0
    ensures Ready(Step(s, Reconnect(i)), u, |s.peers|) && R.Trying(Step(s, Reconnect(i)).peers[|s.peers|])
  {
    StepKeeps(s, Reconnect(i));
    ReconnectMakesPeer(s, u, i);
    hide Step, SystemInv;
  }

  lemma ReconnectingConnects(s: System, u: nat, i: nat) returns (more: seq<Event>)
    requires Ready(s, u, i) && s.peers[i].life.reconnects > 0
    ensures Calm(more) && Restored(RunFrom(s, more), u)
  {
    ReconnectHandsOver(s, u, i);
    hide Step, RunFrom, Calm, Restored, Ready;
    var e := Reconnect(i);
    var rest := TryingConnects(Step(s, e), u, |s.peers|);
    CalmStep(s, e, rest, u);
    more := [e] + rest;
  }

  lemma NoticeTaken(s: System, u: nat, i: nat)
    requires Ready(s, u, i) && s.peers[i].life.notice
    ensures Ready(Step(s, DeathNotice(i, false)), u, i)
    ensures Step(s, DeathNotice(i, false)).peers[i].life.reconnects > 0
  {
    var e := DeathNotice(i, false);
    StaysOwner(s, e, u, i);
    OwnStep(s, e, u, i);
    assert HostStep(s.host, e) == s.host;
    assert Act(s.peers[i], i, s.host, e).life.reconnects > 0 && Act(s.peers[i], i, s.host, e).inst == s.peers[i].inst;
    hide Step, SystemInv, Act, Possible, HostStep;
  }

  lemma ReadyConnects(s: System, u: nat, i: nat) returns (more: seq<Event>)
    requires Ready(s, u, i)
    ensures Calm(more) && Restored(RunFrom(s, more), u)
  {
    hide Step, RunFrom, Calm, Restored, SystemInv;
    if s.peers[i].life.notice {
      var e := DeathNotice(i, false);
      NoticeTaken(s, u, i);
      hide Ready;
      var rest := ReconnectingConnects(Step(s, e), u, i);
      CalmStep(s, e, rest, u);
      more := [e] + rest;
    } else if R.Trying(s.peers[i]) {
      more := TryingConnects(s, u, i);
    } else if s.peers[i].life.reconnects > 0 {
      more := ReconnectingConnects(s, u, i);
    } else {
      WhichPhase(s, u, i);
      more := ConnectIsAnswered(s, u, i);
    }
  }

  lemma WhichPhase(s: System, u: nat, i: nat)
    requires Ready(s, u, i) && !s.peers[i].life.notice && !R.Trying(s.peers[i]) && s.peers[i].life.reconnects == 0
    ensures Asking(s, u, i)
  {
    assert R.PeerInv(s.peers[i], i, s.host);
    assert R.Watching(s.peers[i], s.host);
    hide Answerable, R.OwnershipInv, R.HostInv, R.AnsweredOnce, R.OwnService, R.ListensOnce, R.Replaced;
  }

  // ---- from any state to a daemon that is ready ----

  lemma DeviceIsThere(h: Host)
    requires h.alive
    ensures HostStep(h, DeviceCreated).m.device
  {
    hide Daemon.EmplaceAll;
  }

  lemma DeviceReady(s: System, u: nat, i: nat)
    requires SystemInv(s) && Owner(s, u, i) && s.host.alive && s.peers[i].inst.reading.None?
    ensures Ready(Step(s, DeviceCreated), u, i)
  {
    DaemonStep(s, DeviceCreated, u, i);
    HostLife(s.host, DeviceCreated);
    DeviceIsThere(s.host);
    hide Step, SystemInv, HostStep;
  }

  lemma DeviceComes(s: System, u: nat, i: nat) returns (more: seq<Event>)
    requires SystemInv(s) && Owner(s, u, i) && s.host.alive && s.peers[i].inst.reading.None?
    ensures Calm(more) && Restored(RunFrom(s, more), u)
  {
    DeviceReady(s, u, i);
    hide Step, RunFrom, Calm, Restored, SystemInv, Ready;
    var rest := ReadyConnects(Step(s, DeviceCreated), u, i);
    CalmStep(s, DeviceCreated, rest, u);
    more := [DeviceCreated] + rest;
  }

  lemma DaemonReady(s: System, u: nat, i: nat)
    requires SystemInv(s) && Owner(s, u, i) && !s.host.alive && s.peers[i].inst.reading.None?
    ensures var t := Step(s, DaemonStarts);
            SystemInv(t) && Owner(t, u, i) && t.host.alive && t.peers[i].inst.reading.None?
  {
    DaemonStep(s, DaemonStarts, u, i);
    HostLife(s.host, DaemonStarts);
    hide Step, SystemInv, HostStep;
  }

  lemma DaemonComes(s: System, u: nat, i: nat) returns (more: seq<Event>)
    requires SystemInv(s) && Owner(s, u, i) && s.peers[i].inst.reading.None?
    ensures Calm(more) && Restored(RunFrom(s, more), u)
  {
    hide Step, RunFrom, Calm, Restored, SystemInv;
    if s.host.alive {
      more := DeviceComes(s, u, i);
    } else {
      DaemonReady(s, u, i);
      var rest := DeviceComes(Step(s, DaemonStarts), u, i);
      CalmStep(s, DaemonStarts, rest, u);
      more := [DaemonStarts] + rest;
    }
  }

  lemma ReadingShrinks(s: System, u: nat, i: nat, e: Event)
    requires SystemInv(s) && Owner(s, u, i) && s.peers[i].inst.reading.Some?
    requires e == if s.peers[i].inst.reading.value.rest == [] then NotificationEnds(i) else FieldRead(i, false)
    ensures SystemInv(Step(s, e)) && Owner(Step(s, e), u, i)
    ensures var q := Step(s, e).peers[i].inst;
            if e.NotificationEnds? then q.reading.None?
            else q.reading.Some? && q.reading.value.rest == s.peers[i].inst.reading.value.rest[1..]
  {
    ReadingIsPossible(s, i, e);
    hide Step, SystemInv, Act, Possible, HostStep, Enabled;
    StaysOwner(s, e, u, i);
    OwnStep(s, e, u, i);
  }

  lemma ReadingIsPossible(s: System, i: nat, e: Event)
    requires i < |s.peers| && s.peers[i].life.alive && s.peers[i].inst.reading.Some?
    requires e == if s.peers[i].inst.reading.value.rest == [] then NotificationEnds(i) else FieldRead(i, false)
    ensures Enabled(s, e)
    ensures Act(s.peers[i], i, s.host, e).inst ==
            if e.NotificationEnds? then EndReading(s.peers[i].inst) else ReadNext(s.peers[i].inst, None)
  {
  }

  // A notification being handled is finished first, even if none of its fetches succeeds.
  lemma {:induction false} ReadingEnds(s: System, u: nat, i: nat) returns (more: seq<Event>)
    requires SystemInv(s) && Owner(s, u, i)
    ensures Calm(more) && Restored(RunFrom(s, more), u)
    decreases if s.peers[i].inst.reading.Some? then |s.peers[i].inst.reading.value.rest| + 1 else 0
  {
    hide Step, RunFrom, Calm, Restored, SystemInv;
    var reading := s.peers[i].inst.reading;
    if reading.None? {
      more := DaemonComes(s, u, i);
    } else {
      var e := if reading.value.rest == [] then NotificationEnds(i) else FieldRead(i, false);
      ReadingShrinks(s, u, i, e);
      var rest := ReadingEnds(Step(s, e), u, i);
      CalmStep(s, e, rest, u);
      more := [e] + rest;
    }
  }

  /**
   From every reachable state, whatever crashed, was lost or is half done: without any further crash the instance
   that an open subscription owns can come to hold a service of the running daemon, its callback run once.
   */
  lemma {:induction false} AlwaysRecoverable(events: seq<Event>, u: nat)
    requires u < |Run(events).subscriptions| && Run(events).subscriptions[u].Some?
    ensures exists more :: Calm(more) && Restored(Run(events + more), u)
  {
    RunKeeps(events);
    var s := Run(events);
    R.OneLiveInstancePerSubscription(events, u);
    assert Owner(s, u, s.subscriptions[u].value);
    hide Run, SystemInv, Calm, Restored;
    var more := ReadingEnds(s, u, s.subscriptions[u].value);
    RunOn(events, more);
    assert Calm(more) && Restored(Run(events + more), u);
  }
}
