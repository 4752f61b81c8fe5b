/**
 Command routing over every run of the protocol: a command that the daemon
 sends to a client is never silently lost, because every pair of names the
 daemon was told of has its handler recorded at the client.
 */
module Commands {
  import opened Instance
  import opened Protocol
  import Reconnection

  // Whatever can still lead to a command for the instance has its handler in place.
  predicate HandlersInPlace(p: Peer, j: nat, h: Host) {
    && (forall c :: c in p.wire.handlerCalls ==> c.service.client == j && Handles(p.inst.handlers, c.name))
    && (forall r :: r in h.routes && r.service.client == j ==> Handles(p.inst.handlers, r.name))
    && (forall n :: n in p.wire.commands ==> Handles(p.inst.handlers, n))
  }

  // Every command sent is in flight, was given to one handler, or was aborted.
  predicate CommandsAccounted(p: Peer) {
    && p.log.routed == |p.wire.commands| + |p.log.ran| + p.log.aborted
    && p.log.unexpected == 0
  }

  predicate PeerInv(p: Peer, j: nat, h: Host) {
    HandlersInPlace(p, j, h) && CommandsAccounted(p)
  }

  predicate CommandInv(s: System) {
    && (forall r :: r in s.host.routes ==> r.service.client < |s.peers|)
    && forall j :: 0 <= j < |s.peers| ==> PeerInv(s.peers[j], j, s.host)
  }

  lemma HandlersOnlyGrow(handlers: seq<Handler>, handler: Handler, name: CommandName)
    ensures Handles(handlers, name) || handler.name == name ==> Handles(handlers + [handler], name)
  {
    var more := handlers + [handler];
    assert more[|handlers|] == handler;
    if k :| 0 <= k < |handlers| && handlers[k].name == name { assert more[k].name == name; }
  }

  lemma {:induction false} ActHandlers(p: Peer, j: nat, h: Host, e: Event)
    requires Possible(p, h, e)
    ensures forall n :: Handles(p.inst.handlers, n) ==> Handles(Act(p, j, h, e).inst.handlers, n)
    ensures !e.AddHandler? ==> Act(p, j, h, e).wire.handlerCalls <= p.wire.handlerCalls
    ensures e.CommandArrives? ==>
              Act(p, j, h, e).wire.commands == p.wire.commands + multiset{e.route.name} && e.route in h.routes &&
              e.route.service.client == e.i
    ensures !e.CommandArrives? ==> Act(p, j, h, e).wire.commands <= p.wire.commands
  {
    if e.AddHandler? {
      var name := FullName(e.component, e.traitName, e.command);
      forall n | Handles(p.inst.handlers, n) ensures Handles(Act(p, j, h, e).inst.handlers, n) {
        HandlersOnlyGrow(p.inst.handlers, Handler(name, e.callback), n);
      }
    }
  }

  // The handler is in place as soon as the call that registers it is on its way.
  lemma AddedHandlerFirst(p: Peer, j: nat, h: Host, e: Event)
    requires Possible(p, h, e) && e.AddHandler? && Reconnection.OwnService(p, j)
    ensures var q := Act(p, j, h, e);
            forall c :: c in q.wire.handlerCalls && c !in p.wire.handlerCalls ==>
              c.service.client == j && Handles(q.inst.handlers, c.name)
  {
    var name := FullName(e.component, e.traitName, e.command);
    HandlersOnlyGrow(p.inst.handlers, Handler(name, e.callback), name);
    assert Act(p, j, h, e) == OnAddHandler(p, name, e.callback);
  }

  lemma ActKeepsInPlace(p: Peer, j: nat, h: Host, e: Event)
    requires HandlersInPlace(p, j, h) && Reconnection.OwnService(p, j) && Possible(p, h, e) && AboutInstance(e) && e.i == j
    ensures HandlersInPlace(Act(p, j, h, e), j, h)
  {
    hide Act, Possible, Handles, OnAddHandler;
    ActHandlers(p, j, h, e);
    if e.AddHandler? { AddedHandlerFirst(p, j, h, e); }
    var q := Act(p, j, h, e);
    forall c | c in q.wire.handlerCalls ensures c.service.client == j && Handles(q.inst.handlers, c.name) {
      if c !in p.wire.handlerCalls { assert e.AddHandler?; }
    }
    forall n | n in q.wire.commands ensures Handles(q.inst.handlers, n) {
      if n !in p.wire.commands { assert e.CommandArrives? && e.route.name == n; }
    }
  }

  lemma ActAccounts(p: Peer, j: nat, h: Host, e: Event)
    requires PeerInv(p, j, h) && Possible(p, h, e)
    ensures CommandsAccounted(Act(p, j, h, e))
  {
    if e.CommandDelivered? {
      assert Act(p, j, h, e) == OnCommand(p, e.name);
      assert Handles(p.inst.handlers, e.name);
    } else if !e.CommandArrives? {
      assert Act(p, j, h, e).log == p.log && Act(p, j, h, e).wire.commands == p.wire.commands;
    }
  }

  // A route appears only when the daemon takes in a registerCommandHandler call.
  lemma HostRoutes(h: Host, e: Event)
    ensures forall r :: r in HostStep(h, e).routes ==>
              r in h.routes || (e.HandlerHandled? && r == Route(e.call.service, e.call.name))
  {
  }

  lemma ReceiveKeeps(p: Peer, j: nat, h: Host, e: Event)
    requires PeerInv(p, j, h)
    requires e.HandlerHandled? && e.call.service.client == j ==> Handles(p.inst.handlers, e.call.name)
    ensures PeerInv(Receive(p, j, h, e), j, HostStep(h, e))
  {
    HostRoutes(h, e);
    Reconnection.ReceiveFrame(p, j, h, e);
    hide Receive, HostStep, Handles;
  }

  lemma {:induction false} PeerStepKeeps(p: Peer, j: nat, h: Host, e: Event)
    requires PeerInv(p, j, h) && Reconnection.OwnService(p, j)
    requires AboutInstance(e) && e.i == j ==> Possible(p, h, e)
    requires e.HandlerHandled? ==> e.call.service.client == e.i
    ensures PeerInv(PeerStep(p, j, h, e), j, HostStep(h, e))
  {
    var mine := AboutInstance(e) && e.i == j;
    if mine {
      ActHandlers(p, j, h, e);
      ActKeepsInPlace(p, j, h, e);
      ActAccounts(p, j, h, e);
      assert e.HandlerHandled? ==> e.call in p.wire.handlerCalls;
    }
    hide Act, Receive, HostStep, Possible, Reconnection.OwnService, Handles, CommandsAccounted;
    ReceiveKeeps(if mine then Act(p, j, h, e) else p, j, h, e);
  }

  lemma {:induction false} PeersKeep(s: System, e: Event)
    requires Reconnection.ConnectionInv(s) && CommandInv(s) && Enabled(s, e)
    ensures forall r :: r in HostStep(s.host, e).routes ==> r.service.client < |s.peers|
    ensures forall j :: 0 <= j < |s.peers| ==> PeerInv(Peers(s, e)[j], j, HostStep(s.host, e))
  {
    HostRoutes(s.host, e);
    assert e.HandlerHandled? ==> e.i < |s.peers| && e.call in s.peers[e.i].wire.handlerCalls;
    hide PeerStep, HostStep, Possible, Reconnection.OwnershipInv, Reconnection.HostInv;
    forall j | 0 <= j < |s.peers| ensures PeerInv(Peers(s, e)[j], j, HostStep(s.host, e)) {
      assert Reconnection.PeerInv(s.peers[j], j, s.host);
      PeerStepKeeps(s.peers[j], j, s.host, e);
    }
  }

  lemma NewAndRetiredKeep(p: Peer, j: nat, h: Host, n: nat, subscription: nat)
    ensures PeerInv(p, j, h) ==> PeerInv(Retired(p, n), j, h)
    ensures (forall r :: r in h.routes ==> r.service.client < n) ==> PeerInv(NewPeer(subscription), n, h)
  {
    hide Handles;
  }

  lemma ShapeKeeps(s: System, e: Event, s': System)
    requires Enabled(s, e) && Reconnection.Shape(s, e, s')
    requires forall r :: r in s'.host.routes ==> r.service.client < |s.peers|
    requires forall j :: 0 <= j < |s.peers| ==> PeerInv(Peers(s, e)[j], j, s'.host)
    ensures CommandInv(s')
  {
    hide PeerInv, PeerStep, HostStep, Enabled;
    var n := |s.peers|;
    forall j | 0 <= j < |s'.peers| ensures PeerInv(s'.peers[j], j, s'.host) {
      NewAndRetiredKeep(if j < n then Peers(s, e)[j] else s'.peers[j], j, s'.host, n, s'.peers[j].subscription);
    }
  }

  lemma {:induction false} StepKeeps(s: System, e: Event)
    requires Reconnection.ConnectionInv(s) && CommandInv(s)
    ensures CommandInv(Step(s, e))
  {
    hide HostStep, PeerStep, Reconnection.ConnectionInv, PeerInv, Possible;
    if Enabled(s, e) {
      PeersKeep(s, e);
      Reconnection.StepShape(s, e);
      hide Step, CommandInv;
      ShapeKeeps(s, e, Step(s, e));
    }
  }

  lemma {:induction false} RunKeeps(events: seq<Event>)
    ensures CommandInv(Run(events))
  {
    if events == [] {
    } else {
      Reconnection.RunKeeps(events[..|events| - 1]);
      RunKeeps(events[..|events| - 1]);
      StepKeeps(Run(events[..|events| - 1]), events[|events| - 1]);
    }
  }

  /** Every command addressed to an instance finds its handler registered there, however late it arrives. */
  lemma {:induction false} EveryCommandHasItsHandler(events: seq<Event>, j: nat, name: CommandName)
    requires j < |Run(events).peers| && name in Run(events).peers[j].wire.commands
    ensures FirstMatch(Run(events).peers[j].inst.handlers, name).Some?
  {
    RunKeeps(events);
  }

  /**
   Delivery of a command to a live instance runs exactly one callback, the earliest registered for that name;
   to a dead one it aborts the command. The tail of OnCommand for unexpected commands is never reached.
   */
  lemma {:induction false} DeliveryRunsExactlyOneHandler(events: seq<Event>, j: nat, name: CommandName)
    requires j < |Run(events).peers| && Enabled(Run(events), CommandDelivered(j, name))
    ensures var p, q := Run(events).peers[j], Step(Run(events), CommandDelivered(j, name)).peers[j];
            && q.wire.commands == p.wire.commands - multiset{name} && q.log.unexpected == 0
            && if p.life.alive then
                 && q.log.aborted == p.log.aborted && |q.log.ran| == |p.log.ran| + 1 && p.log.ran <= q.log.ran
                 && var k := q.log.ran[|p.log.ran|];
                    && k < |p.inst.handlers| && p.inst.handlers[k].name == name
                    && (forall i :: 0 <= i < k ==> p.inst.handlers[i].name != name)
               else q.log == p.log.(aborted := p.log.aborted + 1)
  {
    var s, e := Run(events), CommandDelivered(j, name);
    RunKeeps(events);
    EveryCommandHasItsHandler(events, j, name);
    Reconnection.StepPeer(s, e, j);
    Reconnection.ReceiveFrame(OnCommand(s.peers[j], name), j, s.host, e);
    assert Act(s.peers[j], j, s.host, e) == OnCommand(s.peers[j], name);
    hide Step, Receive, HostStep, Possible, Act;
  }

  /** No command is lost: all those sent are in flight, were run once, or were aborted. */
  lemma {:induction false} NoCommandIsLost(events: seq<Event>, j: nat)
    requires j < |Run(events).peers|
    ensures var p := Run(events).peers[j];
            p.log.routed == |p.wire.commands| + |p.log.ran| + p.log.aborted && p.log.unexpected == 0
  {
    RunKeeps(events);
  }

  // ---- from a registration to the handler ----

  // The daemon's and the client's side of the three steps leave everything else of the client alone.
  lemma QuietStep(s: System, e: Event, j: nat)
    requires j < |s.peers| && Enabled(s, e) && (e.HandlerHandled? || e.CommandArrives? || e.CommandDelivered?) && e.i == j
    ensures j < |Step(s, e).peers| && Step(s, e).peers[j] == Act(s.peers[j], j, s.host, e)
    ensures Step(s, e).host == HostStep(s.host, e)
  {
    Reconnection.StepPeer(s, e, j);
    Reconnection.StepShape(s, e);
    assert Receive(Act(s.peers[j], j, s.host, e), j, s.host, e) == Act(s.peers[j], j, s.host, e);
    hide Step, Act, Possible, HostStep, Receive;
  }

  // A registration taken in while a device is present is routed.
  lemma TakenInIsRouted(s: System, j: nat, call: HandlerCall)
    requires j < |s.peers| && call in s.peers[j].wire.handlerCalls
    requires s.host.alive && s.host.m.device && call.service.lifetime == s.host.lifetime
    ensures var e, t := HandlerHandled(j, call), Step(s, HandlerHandled(j, call));
            && j < |t.peers| && Route(call.service, call.name) in t.host.routes && t.host.m == s.host.m
            && t.peers[j].inst == s.peers[j].inst && t.peers[j].life == s.peers[j].life && t.peers[j].log == s.peers[j].log
  {
    QuietStep(s, HandlerHandled(j, call), j);
    hide Step;
  }

  // A command for a route is on its way to the client the route was registered by.
  lemma ArrivedIsSent(s: System, j: nat, route: Route)
    requires j < |s.peers| && route in s.host.routes && route.service.client == j
    requires j in s.host.m.services && s.host.m.services[j] == route.service.number
    ensures var t := Step(s, CommandArrives(j, route));
            && j < |t.peers| && route.name in t.peers[j].wire.commands
            && t.peers[j].inst == s.peers[j].inst && t.peers[j].life == s.peers[j].life
            && t.peers[j].log == s.peers[j].log.(routed := s.peers[j].log.routed + 1)
  {
    QuietStep(s, CommandArrives(j, route), j);
    hide Step, HostStep;
  }

  lemma DeliveredRuns(s: System, j: nat, name: CommandName)
    requires j < |s.peers| && s.peers[j].life.alive && s.peers[j].inst.reading.None? && name in s.peers[j].wire.commands
    requires Handles(s.peers[j].inst.handlers, name)
    ensures var t := Step(s, CommandDelivered(j, name));
            && j < |t.peers|
            && t.peers[j].log.ran == s.peers[j].log.ran + [FirstMatch(s.peers[j].inst.handlers, name).value]
  {
    QuietStep(s, CommandDelivered(j, name), j);
    hide Step, HostStep, Handles;
  }

  /**
   From every reachable state: a registration on its way from a live client that has its service works. Once the
   daemon takes it in, a command for it reaches the client and runs the handler registered first for that name.
   */
  lemma {:induction false} RegisteredCommandRuns(events: seq<Event>, j: nat, call: HandlerCall)
    requires j < |Run(events).peers| && Run(events).peers[j].life.alive && Run(events).peers[j].inst.reading.None?
    requires call in Run(events).peers[j].wire.handlerCalls
    requires Run(events).host.alive && Run(events).host.m.device && call.service.lifetime == Run(events).host.lifetime
    requires j in Run(events).host.m.services && Run(events).host.m.services[j] == call.service.number
    ensures var p := Run(events).peers[j];
            var t := Run(((events + [HandlerHandled(j, call)]) + [CommandArrives(j, Route(call.service, call.name))]) +
                         [CommandDelivered(j, call.name)]);
            && Handles(p.inst.handlers, call.name) && j < |t.peers|
            && t.peers[j].log.ran == p.log.ran + [FirstMatch(p.inst.handlers, call.name).value]
  {
    RunKeeps(events);
    var s, route := Run(events), Route(call.service, call.name);
    assert HandlersInPlace(s.peers[j], j, s.host);
    var one := events + [HandlerHandled(j, call)];
    var two := one + [CommandArrives(j, route)];
    RunNext(events, HandlerHandled(j, call));
    RunNext(one, CommandArrives(j, route));
    RunNext(two, CommandDelivered(j, call.name));
    hide Run, Step, Handles, CommandInv;
    TakenInIsRouted(s, j, call);
    ArrivedIsSent(Run(one), j, route);
    DeliveredRuns(Run(two), j, call.name);
  }

  lemma RunNext(events: seq<Event>, e: Event)
    ensures Run(events + [e]) == Step(Run(events), e)
  {
    assert (events + [e])[..|events|] == events;
    hide Step;
  }

  // Without its device the daemon routes nothing.
  lemma StopDropsRoutes(h: Host)
    requires h.alive
    ensures HostStep(h, DeviceStopped).routes == {} && !HostStep(h, DeviceStopped).m.device
  {
  }

  // The deaths of clients and of listeners reach the daemon's books.
  lemma DeathsReachTheBooks(h: Host, j: nat)
    requires h.alive
    ensures HostStep(h, ClientGone(j)).m.services == h.m.services - {j}
    ensures HostStep(h, ListenerGone(j)).m.listeners == h.m.listeners - {j}
  {
    assert j !in h.m.services ==> h.m.services - {j} == h.m.services;
  }
}
