/**
 How soon an instance recovers: while the daemon runs with a device, every
 schedule that goes on carrying out what is queued for the instance of a
 subscription leads it to its callback within eight such steps, whatever else
 happens in between.
 */
module Progress {
  import opened Base
  import opened Instance
  import opened Protocol
  import R = Reconnection
  import V = Recovery

  predicate Up(h: Host) {
    h.alive && h.m.device
  }

  // The daemon stays up, so that it is found and watched, and the subscription is kept.
  predicate Smooth(s: System, u: nat, e: Event) {
    && !e.DaemonDies? && !e.DeviceStopped?
    && (e.TryConnecting? ==> e.found && e.registered)
    && (e.DeathNotice? ==> !e.again)
    && (e.Unsubscribe? && u < |s.subscriptions| ==> s.subscriptions[u] != Some(e.i))
  }

  // A task, notice or message on the way to the callback of the instance that the subscription owns.
  predicate Advances(s: System, u: nat, e: Event) {
    && AboutInstance(e) && u < |s.subscriptions| && s.subscriptions[u] == Some(e.i)
    && (e.TryConnecting? || e.DeathNotice? || e.Reconnect? || e.ConnectHandled? || e.ServiceConnected?)
  }

  // ---- how far an instance is from its callback ----

  function ToConnect(p: Peer): nat {
    if p.life.tries > 0 then 3
    else if p.life.reconnects > 0 then if p.life.notice then 5 else 4
    else if p.life.notice then 6
    else 0
  }

  function ToAnswer(p: Peer): nat {
    if |p.wire.connect| > 0 then 2 else if |p.wire.connected| > 0 then 1 else 0
  }

  function Distance(p: Peer): (d: nat)
    ensures d <= 8
  {
    ToConnect(p) + ToAnswer(p)
  }

  // ---- one step of the instance ----

  lemma TryComesCloser(p: Peer, j: nat, h: Host)
    requires R.Phased(p, h) && R.AnsweredOnce(p, j, h, 0) && p.life.alive && p.life.tries > 0
    ensures Distance(OnTryConnecting(p, h, true, true)) < Distance(p)
  {
  }

  lemma NoticeComesCloser(p: Peer, h: Host)
    requires R.Phased(p, h) && p.life.alive && p.life.notice
    ensures Distance(OnDeathNotice(p, false)) < Distance(p)
  {
  }

  lemma ServiceComesCloser(p: Peer, j: nat, h: Host, r: ServiceRef)
    requires R.AnsweredOnce(p, j, h, 0) && r in p.wire.connected
    ensures Distance(OnServiceConnected(p, r)) < Distance(p)
  {
    assert |p.wire.connected| == 1 && |p.wire.connected - multiset{r}| == 0;
  }

  // Taking in a connect may put an answer on its way.
  lemma ArrivalComesCloser(p: Peer, j: nat, h: Host, l: nat)
    requires R.AnsweredOnce(p, j, h, 0) && l in p.wire.connect
    ensures var q := p.(wire := p.wire.(connect := p.wire.connect - multiset{l}));
            Distance(q) + 1 < Distance(p) && q.wire.connect == multiset{} && q.wire.connected == multiset{}
  {
    assert |p.wire.connect| == 1 && |p.wire.connect - multiset{l}| == 0;
  }

  lemma OtherActs(p: Peer, j: nat, h: Host, e: Event)
    requires Possible(p, h, e) && !e.TryConnecting? && !e.DeathNotice? && !e.ServiceConnected? && !e.ConnectHandled?
    requires !e.Unsubscribe? && !e.Reconnect?
    ensures Distance(Act(p, j, h, e)) == Distance(p)
  {
    R.ActKeepsConnection(p, j, h, e);
    ActKeepsLife(p, j, h, e);
    hide Act, Possible;
  }

  lemma ActKeepsLife(p: Peer, j: nat, h: Host, e: Event)
    requires Possible(p, h, e) && !e.TryConnecting? && !e.DeathNotice? && !e.Unsubscribe? && !e.Reconnect?
    ensures Act(p, j, h, e).life == p.life
  {
  }

  // What is received, with a device present, is at most the answer to a connect taken in by this very step.
  lemma ReceivesItsAnswer(p: Peer, j: nat, h: Host, e: Event)
    requires R.HostOk(h) && Up(h) && !e.DaemonDies? && !e.DaemonStarts?
    ensures var q := Receive(p, j, h, e);
            && q.life == p.life && q.wire.connect == p.wire.connect
            && |q.wire.connected| <= |p.wire.connected| + R.Arriving(h, e, j)
  {
    R.ReceiveFrame(p, j, h, e);
    V.NoticeStays(p, j, h, e);
    if DaemonEvent(h, e).None? {
      R.ReceiveNoService(p, j, h, e);
    } else {
      V.ArrivalIsConnect(h, e, j);
      hide Receive, HostStep, Daemon.Step, Sends, DaemonEvent, R.Arriving;
      R.SendsDrainPending(h.m, DaemonEvent(h, e).value, h.lifetime, j);
      R.ReceiveSends(p, j, h, e);
    }
  }

  lemma ReceivesNoCloser(p: Peer, j: nat, h: Host, e: Event)
    requires R.HostOk(h) && Up(h) && !e.DaemonDies? && !e.DaemonStarts?
    ensures Distance(Receive(p, j, h, e)) <= Distance(p) + R.Arriving(h, e, j)
    ensures R.Arriving(h, e, j) == 0 ==> Distance(Receive(p, j, h, e)) <= Distance(p)
  {
    ReceivesItsAnswer(p, j, h, e);
    hide Receive, R.Arriving;
  }

  // An instance's own step, other than giving way to its replacement.
  lemma OwnStepComesCloser(p: Peer, j: nat, h: Host, e: Event)
    requires R.PeerInv(p, j, h) && p.life.alive && Possible(p, h, e) && AboutInstance(e) && e.i == j
    requires !e.Unsubscribe? && !e.Reconnect?
    requires (e.TryConnecting? ==> e.found && e.registered) && (e.DeathNotice? ==> !e.again)
    ensures var advances := e.TryConnecting? || e.DeathNotice? || e.ConnectHandled? || e.ServiceConnected?;
            Distance(Act(p, j, h, e)) + R.Arriving(h, e, j) + (if advances then 1 else 0) <= Distance(p)
  {
    hide Distance, R.Phased, R.AnsweredOnce, R.ListensOnce, R.OwnService, R.Replaced;
    if e.TryConnecting? {
      TryComesCloser(p, j, h);
    } else if e.DeathNotice? {
      NoticeComesCloser(p, h);
    } else if e.ServiceConnected? {
      ServiceComesCloser(p, j, h, e.service);
    } else if e.ConnectHandled? {
      ArrivalComesCloser(p, j, h, e.lifetime);
    } else {
      OtherActs(p, j, h, e);
      hide Act, Possible;
    }
  }

  // ---- one step of the system ----

  lemma StaysUp(h: Host, e: Event)
    requires Up(h) && !e.DaemonDies? && !e.DeviceStopped? && !e.DaemonStarts?
    ensures Up(HostStep(h, e))
  {
    hide Daemon.EmplaceAll;
  }

  predicate Going(s: System, u: nat, i: nat) {
    V.SystemInv(s) && V.Owner(s, u, i) && Up(s.host)
  }

  lemma OthersStep(s: System, u: nat, i: nat, e: Event)
    requires Going(s, u, i) && Enabled(s, e) && Smooth(s, u, e) && !(AboutInstance(e) && e.i == i)
    ensures Going(Step(s, e), u, i) && Distance(Step(s, e).peers[i]) <= Distance(s.peers[i])
  {
    assert R.HostOk(s.host) && !e.DaemonStarts? && R.Arriving(s.host, e, i) == 0;
    hide Step, Possible, Distance, V.SystemInv, R.HostOk, R.Arriving;
    V.StaysOwner(s, e, u, i);
    StaysUp(s.host, e);
    hide HostStep;
    ReceivesNoCloser(s.peers[i], i, s.host, e);
    hide Receive, Enabled;
  }

  lemma OwnStep(s: System, u: nat, i: nat, e: Event)
    requires Going(s, u, i) && Enabled(s, e) && Smooth(s, u, e) && AboutInstance(e) && e.i == i && !e.Reconnect?
    ensures Going(Step(s, e), u, i)
    ensures Distance(Step(s, e).peers[i]) + (if Advances(s, u, e) then 1 else 0) <= Distance(s.peers[i])
  {
    assert R.PeerInv(s.peers[i], i, s.host) && R.HostOk(s.host) && Possible(s.peers[i], s.host, e);
    hide Step, Possible, Distance, V.SystemInv, R.HostOk, R.PeerInv, R.Arriving;
    V.StaysOwner(s, e, u, i);
    StaysUp(s.host, e);
    hide HostStep, Enabled;
    OwnStepComesCloser(s.peers[i], i, s.host, e);
    ReceivesNoCloser(Act(s.peers[i], i, s.host, e), i, s.host, e);
    hide Receive, Act;
  }

  lemma ReplacementComesCloser(p: Peer, j: nat, h: Host, subscription: nat)
    requires R.PeerInv(p, j, h) && p.life.alive && Possible(p, h, Reconnect(j))
    ensures p.life.reconnects > 0 && p.inst.reading.None? && Distance(NewPeer(subscription)) < Distance(p)
  {
    hide R.AnsweredOnce, R.ListensOnce, R.OwnService, R.Replaced;
  }

  lemma ReplacementStep(s: System, u: nat, i: nat)
    requires Going(s, u, i) && Enabled(s, Reconnect(i))
    ensures Going(Step(s, Reconnect(i)), u, |s.peers|)
    ensures Distance(Step(s, Reconnect(i)).peers[|s.peers|]) < Distance(s.peers[i])
  {
    hide Step, Distance, R.PeerInv, R.HostInv, R.OwnershipInv, V.AllAnswerable, Possible;
    ReplacementComesCloser(s.peers[i], i, s.host, u);
    hide V.SystemInv, Enabled;
    V.StepKeeps(s, Reconnect(i));
    V.ReconnectMakesPeer(s, u, i);
  }

  // The instance that the subscription owns in a state.
  function OwnerOf(s: System, u: nat): nat
    requires u < |s.subscriptions| && s.subscriptions[u].Some?
  {
    s.subscriptions[u].value
  }

  ghost predicate Underway(s: System, u: nat) {
    u < |s.subscriptions| && s.subscriptions[u].Some? && Going(s, u, OwnerOf(s, u))
  }

  lemma StepComesCloser(s: System, u: nat, e: Event)
    requires Underway(s, u) && Smooth(s, u, e)
    ensures Underway(Step(s, e), u)
    ensures Distance(Step(s, e).peers[OwnerOf(Step(s, e), u)]) + (if Enabled(s, e) && Advances(s, u, e) then 1 else 0) <=
            Distance(s.peers[OwnerOf(s, u)])
  {
    var i := OwnerOf(s, u);
    if !Enabled(s, e) {
    } else if e == Reconnect(i) {
      ReplacementStep(s, u, i);
    } else if AboutInstance(e) && e.i == i {
      OwnStep(s, u, i, e);
    } else {
      OthersStep(s, u, i, e);
    }
    hide Step, Enabled, Distance, V.SystemInv, Possible;
  }

  // ---- whole schedules ----

  predicate SmoothRun(s: System, u: nat, more: seq<Event>)
    decreases |more|
  {
    more == [] || (Smooth(s, u, more[0]) && SmoothRun(Step(s, more[0]), u, more[1..]))
  }

  // The steps that are carried out on the way to the callback.
  function Advanced(s: System, u: nat, more: seq<Event>): nat
    decreases |more|
  {
    if more == [] then 0
    else (if Enabled(s, more[0]) && Advances(s, u, more[0]) then 1 else 0) + Advanced(Step(s, more[0]), u, more[1..])
  }

  lemma {:induction false} ScheduleComesCloser(s: System, u: nat, more: seq<Event>)
    requires Underway(s, u) && SmoothRun(s, u, more)
    ensures Underway(V.RunFrom(s, more), u)
    ensures Distance(V.RunFrom(s, more).peers[OwnerOf(V.RunFrom(s, more), u)]) + Advanced(s, u, more) <=
            Distance(s.peers[OwnerOf(s, u)])
    decreases |more|
  {
    hide Step, Enabled, Distance, Underway, Smooth, Advances;
    if more == [] {
    } else {
      StepComesCloser(s, u, more[0]);
      ScheduleComesCloser(Step(s, more[0]), u, more[1..]);
    }
  }

  lemma ArrivedIsRestored(s: System, u: nat)
    requires Underway(s, u) && Distance(s.peers[OwnerOf(s, u)]) == 0
    ensures V.Restored(s, u)
  {
    var i := OwnerOf(s, u);
    assert R.PeerInv(s.peers[i], i, s.host) && V.Answerable(s.peers[i], i, s.host, 0) && R.HostOk(s.host);
    assert multiset(s.host.m.pending)[i] == 0;
    hide R.ListensOnce, R.Replaced, R.OwnershipInv, V.AllAnswerable, R.ConnectionInv;
  }

  // The next thing to carry out for an instance; a notification being handled is finished first.
  lemma NextFor(p: Peer, i: nat, h: Host) returns (e: Event)
    requires p.life.alive && h.alive && Distance(p) > 0 && p.inst.reading.None?
    ensures AboutInstance(e) && e.i == i && Possible(p, h, e)
    ensures e == TryConnecting(i, true, true) || e == DeathNotice(i, false) || e == Reconnect(i) || e.ConnectHandled? ||
            e.ServiceConnected?
  {
    if p.life.tries > 0 {
      e := TryConnecting(i, true, true);
    } else if p.life.reconnects > 0 {
      e := Reconnect(i);
    } else if p.life.notice {
      e := DeathNotice(i, false);
    } else if |p.wire.connect| > 0 {
      var l :| l in p.wire.connect;
      e := ConnectHandled(i, l);
    } else {
      var r :| r in p.wire.connected;
      e := ServiceConnected(i, r);
    }
  }

  lemma SomethingQueued(s: System, u: nat) returns (e: Event)
    requires Underway(s, u) && Distance(s.peers[OwnerOf(s, u)]) > 0 && s.peers[OwnerOf(s, u)].inst.reading.None?
    ensures Enabled(s, e) && Smooth(s, u, e) && Advances(s, u, e)
  {
    hide Possible, Distance, V.SystemInv;
    e := NextFor(s.peers[OwnerOf(s, u)], OwnerOf(s, u), s.host);
  }

  /**
   From every reachable state with the daemon and its device up, along every schedule on which they stay up and
   the subscription is kept: at most eight steps are carried out for its instance before the instance it owns has
   run its callback and holds a service of the running daemon; and until then, whenever no notification is being
   handled, there is such a step to carry out.
   */
  lemma {:induction false} EveryScheduleRestores(events: seq<Event>, u: nat, more: seq<Event>)
    requires u < |Run(events).subscriptions| && Run(events).subscriptions[u].Some? && Up(Run(events).host)
    requires SmoothRun(Run(events), u, more)
    ensures var t := Run(events + more);
            && Advanced(Run(events), u, more) <= 8
            && (Advanced(Run(events), u, more) == 8 ==> V.Restored(t, u))
            && u < |t.subscriptions| && t.subscriptions[u].Some? && t.subscriptions[u].value < |t.peers|
            && (!V.Restored(t, u) && t.peers[t.subscriptions[u].value].inst.reading.None? ==>
                  exists e :: Enabled(t, e) && Smooth(t, u, e) && Advances(t, u, e))
  {
    var s := Run(events);
    V.RunKeeps(events);
    R.OneLiveInstancePerSubscription(events, u);
    assert V.Owner(s, u, OwnerOf(s, u));
    V.RunOn(events, more);
    hide Run, V.SystemInv, V.Restored, Smooth, SmoothRun, Advanced, Distance, Enabled, Advances;
    ScheduleComesCloser(s, u, more);
    var t := V.RunFrom(s, more);
    if Distance(t.peers[OwnerOf(t, u)]) == 0 {
      ArrivedIsRestored(t, u);
    } else if t.peers[OwnerOf(t, u)].inst.reading.None? {
      var e := SomethingQueued(t, u);
      assert Enabled(t, e) && Smooth(t, u, e) && Advances(t, u, e);
    }
  }
}
