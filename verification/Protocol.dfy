/**
 Clients and daemon together: any number of ServiceImpl instances, one weaved
 daemon that may die and restart, and the one-way messages, delayed tasks and
 death notices between them. Messages and tasks are bags, so every order of
 delivery is covered; an event that is not possible in a state changes nothing.
 */
module Protocol {
  import opened Base
  import opened Fields
  import opened Instance
  import Daemon

  datatype HandlerCall = HandlerCall(service: ServiceRef, name: CommandName)

  // What is in flight to and from one instance's binder objects.
  datatype Wire = Wire(
    connect: multiset<nat>,                 // connect, by addressed daemon lifetime
    register: multiset<nat>,                // registerNotificationListener
    handlerCalls: multiset<HandlerCall>,    // registerCommandHandler
    connected: multiset<ServiceRef>,        // onServiceConnected
    commands: multiset<CommandName>,        // onCommand
    notes: multiset<seq<int>>               // notifyServiceManagerChange
  )

  const QUIET := Wire(multiset{}, multiset{}, multiset{}, multiset{}, multiset{}, multiset{})

  // The tasks weakly bound to an instance, its death watch and its fate.
  datatype Life = Life(
    alive: bool,
    tries: nat,           // queued TryConnecting tasks
    reconnects: nat,      // queued ReconnectOnServiceDisconnection tasks
    watch: Option<nat>,   // daemon lifetime whose death is watched
    notice: bool,         // a death notice is undelivered
    // history
    asked: nat,           // reconnect tasks ever posted
    replacedBy: seq<nat>, // instances created to replace this one
    closed: bool          // the subscription was dropped while owning it
  )

  // What became of the commands sent to an instance (history).
  datatype CommandLog = CommandLog(
    routed: nat,          // commands ever sent to it
    ran: seq<nat>,        // positions of the handlers run, in order
    aborted: nat,
    unexpected: nat       // commands that found no handler
  )

  // How an instance follows the daemon's fields (history).
  datatype Sync = Sync(
    registered: bool,     // its listener reached the daemon
    fromEmpty: bool,      // ... while the exposed triple was empty
    changed: set<int>,    // fields changed since then
    failed: set<int>      // fields whose last fetch failed
  )

  // A ServiceImpl together with everything in flight for it.
  datatype Peer = Peer(subscription: nat, life: Life, inst: Instance.State, wire: Wire, log: CommandLog, sync: Sync)

  function NewPeer(subscription: nat): Peer {
    Peer(subscription, Life(true, 1, 0, None, false, 0, [], false), Instance.FRESH, QUIET,
         CommandLog(0, [], 0, 0), Sync(false, false, {}, {}))
  }

  datatype Route = Route(service: ServiceRef, name: CommandName)

  datatype Host = Host(alive: bool, lifetime: nat, m: Daemon.State, routes: set<Route>)

  // subscriptions[u] is the instance the subscription owns, None once dropped.
  datatype System = System(peers: seq<Peer>, subscriptions: seq<Option<nat>>, host: Host)

  const INITIAL := System([], [], Host(false, 0, Daemon.FRESH, {}))

  datatype Event =
    // in the client process of instance i
    | TryConnecting(i: nat, found: bool, registered: bool)
    | DeathNotice(i: nat, again: bool)
    | ServiceConnected(i: nat, service: ServiceRef)
    | AddHandler(i: nat, component: string, traitName: string, command: string, callback: nat)
    | CommandDelivered(i: nat, name: CommandName)
    | NotificationBegins(i: nat, ids: seq<int>)
    | FieldRead(i: nat, ok: bool)
    | NotificationEnds(i: nat)
    | PairingListenerSet(i: nat, some: bool)
    // in the daemon, about instance i
    | ConnectHandled(i: nat, lifetime: nat)
    | ListenerHandled(i: nat, lifetime: nat)
    | HandlerHandled(i: nat, call: HandlerCall)
    | ClientGone(i: nat)
    | ListenerGone(i: nat)
    | CommandArrives(i: nat, route: Route)
    // in the daemon
    | DaemonStarts
    | DaemonDies
    | DeviceCreated
    | DeviceStopped
    | SettingsChanged(settings: Settings)
    | PairingChanged(event: PairingEvent)
    | OtherChanged(ids: seq<int>)
    // creation and destruction of instances
    | Subscribe
    | Unsubscribe(i: nat)
    | Reconnect(i: nat)

  // ---- when an event is possible ----

  predicate Possible(p: Peer, h: Host, e: Event) {
    match e
    case TryConnecting(_, found, registered) => p.life.tries > 0 && p.inst.reading.None? && (found && registered ==> h.alive)
    case DeathNotice(_, _) => p.life.notice
    case ServiceConnected(_, service) => service in p.wire.connected && p.inst.reading.None?
    case AddHandler(_, component, _, command, _) =>
      p.life.alive && p.inst.service.Some? && p.inst.reading.None? && component != "" && command != ""
    case CommandDelivered(_, name) => name in p.wire.commands && p.inst.reading.None?
    case NotificationBegins(_, ids) => ids in p.wire.notes && p.inst.reading.None?
    case FieldRead(_, ok) =>
      && p.life.alive && p.inst.reading.Some? && p.inst.reading.value.rest != []
      && (ok ==> h.alive && p.inst.manager == Some(h.lifetime))
    case NotificationEnds(_) => p.life.alive && p.inst.reading.Some? && p.inst.reading.value.rest == []
    case PairingListenerSet(_, _) => p.life.alive && p.inst.reading.None?
    case ConnectHandled(_, lifetime) => lifetime in p.wire.connect
    case ListenerHandled(_, lifetime) => lifetime in p.wire.register
    case HandlerHandled(_, call) => call in p.wire.handlerCalls
    case ClientGone(i) => i in h.m.services
    case ListenerGone(i) => i in h.m.listeners
    case CommandArrives(i, route) =>
      && route in h.routes && route.service.client == i
      && i in h.m.services && h.m.services[i] == route.service.number
    case Unsubscribe(_) => p.life.alive
    case Reconnect(_) => p.life.reconnects > 0 && p.inst.reading.None?
    case _ => true
  }

  predicate AboutInstance(e: Event) {
    !(e.DaemonStarts? || e.DaemonDies? || e.DeviceCreated? || e.DeviceStopped? ||
      e.SettingsChanged? || e.PairingChanged? || e.OtherChanged? || e.Subscribe?)
  }

  predicate Enabled(s: System, e: Event) {
    && (AboutInstance(e) ==> e.i < |s.peers| && Possible(s.peers[e.i], s.host, e))
    && (e.DaemonStarts? ==> !s.host.alive)
    && (e.OtherChanged? ==> forall id :: id in e.ids ==> !IsPairing(id))
  }

  // ---- what the daemon does ----

  function DaemonEvent(h: Host, e: Event): Option<Daemon.Event> {
    match e
    case ConnectHandled(i, lifetime) => if lifetime == h.lifetime then Some(Daemon.ConnectArrives(i)) else None
    case ListenerHandled(i, lifetime) => if lifetime == h.lifetime then Some(Daemon.ListenerArrives(i)) else None
    case ClientGone(i) => Some(Daemon.ClientDied(i))
    case ListenerGone(i) => Some(Daemon.ListenerDied(i))
    case DeviceCreated => Some(Daemon.DeviceCreated)
    case DeviceStopped => Some(Daemon.Stopped)
    case SettingsChanged(settings) => Some(Daemon.FieldsSet(ConfigUpdates(settings)))
    case PairingChanged(event) => Some(Daemon.PairingChanged(event))
    case _ => None
  }

  function HostStep(h: Host, e: Event): Host {
    if e.DaemonStarts? then Host(true, h.lifetime + 1, Daemon.FRESH, {})
    else if e.DaemonDies? then h.(alive := false, m := Daemon.FRESH, routes := {})
    else if !h.alive then h
    else if e.HandlerHandled? then
      if e.call.service.lifetime == h.lifetime && h.m.device
      then h.(routes := h.routes + {Route(e.call.service, e.call.name)}) else h
    else
      var d := DaemonEvent(h, e);
      if d.None? then h
      else h.(m := Daemon.Step(h.m, d.value), routes := if e.DeviceStopped? then {} else h.routes)
  }

  // The ids of the notification that the event sends to every listener.
  function NoteOf(h: Host, e: Event): seq<int> {
    if !h.alive then []
    else match e
      case SettingsChanged(settings) => ChangedIds(h.m.values, ConfigUpdates(settings))
      case PairingChanged(event) => PairingNote(h.m.values, event)
      case OtherChanged(ids) => ids
      case _ => []
  }

  // onServiceConnected messages sent to client j for the services numbered from first on.
  function Sends(lifetime: nat, sent: seq<nat>, first: nat, j: nat): multiset<ServiceRef>
    requires first <= |sent|
    decreases |sent| - first
  {
    if first == |sent| then multiset{}
    else (if sent[first] == j then multiset{ServiceRef(lifetime, j, first)} else multiset{}) +
         Sends(lifetime, sent, first + 1, j)
  }

  // ---- what happens to instance j ----

  function ReceiveNote(p: Peer, note: seq<int>): Peer {
    p.(wire := p.wire.(notes := p.wire.notes + multiset{note}),
       sync := p.sync.(changed := p.sync.changed + set id | id in note))
  }

  function ReceiveServices(p: Peer, services: multiset<ServiceRef>): Peer {
    p.(wire := p.wire.(connected := p.wire.connected + services))
  }

  // Death of the daemon, onServiceConnected and notifications may concern every instance.
  function Receive(p: Peer, j: nat, h: Host, e: Event): Peer {
    if e.DaemonDies? then p.(life := p.life.(notice := p.life.notice || p.life.watch == Some(h.lifetime)))
    else if NoteOf(h, e) != [] then
      if j in h.m.listeners then ReceiveNote(p, NoteOf(h, e)) else p
    else if h.alive && DaemonEvent(h, e).Some? && |h.m.sent| <= |HostStep(h, e).m.sent| then
      ReceiveServices(p, Sends(h.lifetime, HostStep(h, e).m.sent, |h.m.sent|, j))
    else p
  }

  function OnTryConnecting(p: Peer, h: Host, found: bool, registered: bool): Peer
    requires p.life.tries > 0
  {
    var life := p.life.(tries := p.life.tries - 1);
    if !p.life.alive then p.(life := life)
    else if !found then p  // posted again, delayed
    else if !registered then p.(life := life.(reconnects := p.life.reconnects + 1, asked := p.life.asked + 1))
    else Peer(p.subscription, life.(watch := Some(h.lifetime)), Connected(p.inst, h.lifetime),
              p.wire.(connect := p.wire.connect + multiset{h.lifetime},
                      register := p.wire.register + multiset{h.lifetime}), p.log, p.sync)
  }

  function OnDeathNotice(p: Peer, again: bool): Peer {
    if p.life.alive
    then p.(life := p.life.(watch := None, reconnects := p.life.reconnects + 1, asked := p.life.asked + 1,
                            notice := again))
    else p.(life := p.life.(notice := again))
  }

  function OnServiceConnected(p: Peer, service: ServiceRef): Peer {
    p.(wire := p.wire.(connected := p.wire.connected - multiset{service}),
       inst := if p.life.alive then ServiceReady(p.inst, service) else p.inst)
  }

  function OnAddHandler(p: Peer, name: CommandName, callback: nat): Peer
    requires p.inst.service.Some?
  {
    p.(inst := WithHandler(p.inst, Handler(name, callback)),
       wire := p.wire.(handlerCalls := p.wire.handlerCalls + multiset{HandlerCall(p.inst.service.value, name)}))
  }

  function OnCommand(p: Peer, name: CommandName): Peer {
    p.(wire := p.wire.(commands := p.wire.commands - multiset{name}),
       log := if !p.life.alive then p.log.(aborted := p.log.aborted + 1)
              else match FirstMatch(p.inst.handlers, name)
                case Some(k) => p.log.(ran := p.log.ran + [k])
                case None => p.log.(unexpected := p.log.unexpected + 1))
  }

  function OnNotificationBegins(p: Peer, ids: seq<int>): Peer {
    p.(wire := p.wire.(notes := p.wire.notes - multiset{ids}),
       inst := if p.life.alive then BeginReading(p.inst, ids) else p.inst)
  }

  function OnFieldRead(p: Peer, h: Host, ok: bool): Peer
    requires p.inst.reading.Some? && p.inst.reading.value.rest != []
  {
    var id := p.inst.reading.value.rest[0];
    p.(inst := ReadNext(p.inst, if ok then Some(Get(h.m.values, id)) else None),
       sync := p.sync.(failed := if ok then p.sync.failed - {id} else p.sync.failed + {id}))
  }

  function OnListenerHandled(p: Peer, j: nat, h: Host, lifetime: nat): Peer {
    p.(wire := p.wire.(register := p.wire.register - multiset{lifetime}),
       sync := if !h.alive || lifetime != h.lifetime || j in h.m.listeners then p.sync
               else p.sync.(registered := true, fromEmpty := Exposed(h.m.values) == NO_PAIRING, changed := {}))
  }

  // The event's own effect on the instance it is about.
  function Act(p: Peer, j: nat, h: Host, e: Event): Peer
    requires Possible(p, h, e)
  {
    match e
    case TryConnecting(_, found, registered) => OnTryConnecting(p, h, found, registered)
    case DeathNotice(_, again) => OnDeathNotice(p, again)
    case ServiceConnected(_, service) => OnServiceConnected(p, service)
    case AddHandler(_, component, traitName, command, callback) =>
      OnAddHandler(p, FullName(component, traitName, command), callback)
    case CommandDelivered(_, name) => OnCommand(p, name)
    case NotificationBegins(_, ids) => OnNotificationBegins(p, ids)
    case FieldRead(_, ok) => OnFieldRead(p, h, ok)
    case NotificationEnds(_) => p.(inst := EndReading(p.inst))
    case PairingListenerSet(_, some) => p.(inst := SetListener(p.inst, some))
    case ConnectHandled(_, lifetime) => p.(wire := p.wire.(connect := p.wire.connect - multiset{lifetime}))
    case ListenerHandled(_, lifetime) => OnListenerHandled(p, j, h, lifetime)
    case HandlerHandled(_, call) => p.(wire := p.wire.(handlerCalls := p.wire.handlerCalls - multiset{call}))
    case CommandArrives(_, route) =>
      p.(wire := p.wire.(commands := p.wire.commands + multiset{route.name}), log := p.log.(routed := p.log.routed + 1))
    case Unsubscribe(_) => p.(life := p.life.(alive := false, closed := true), inst := p.inst.(reading := None))
    case Reconnect(_) => p.(life := p.life.(reconnects := p.life.reconnects - 1))
    case _ => p
  }

  function PeerStep(p: Peer, j: nat, h: Host, e: Event): Peer
    requires AboutInstance(e) && e.i == j ==> Possible(p, h, e)
  {
    Receive(if AboutInstance(e) && e.i == j then Act(p, j, h, e) else p, j, h, e)
  }

  function Peers(s: System, e: Event): (r: seq<Peer>)
    requires Enabled(s, e)
    ensures |r| == |s.peers|
    ensures forall j :: 0 <= j < |r| ==> r[j] == PeerStep(s.peers[j], j, s.host, e)
  {
    seq(|s.peers|, j requires 0 <= j < |s.peers| => PeerStep(s.peers[j], j, s.host, e))
  }

  // The instance after handing its subscription over to instance n.
  function Retired(p: Peer, n: nat): Peer {
    p.(life := p.life.(alive := false, replacedBy := p.life.replacedBy + [n]), inst := p.inst.(service := None))
  }

  // ReconnectOnServiceDisconnection: a new instance takes the subscription over.
  function Replace(s: System, i: nat): System
    requires i < |s.peers| && s.peers[i].subscription < |s.subscriptions|
  {
    var u, n := s.peers[i].subscription, |s.peers|;
    s.(peers := s.peers[i := Retired(s.peers[i], n)] + [NewPeer(u)], subscriptions := s.subscriptions[u := Some(n)])
  }

  function Step(s: System, e: Event): System {
    if !Enabled(s, e) then s
    else
      var s' := s.(peers := Peers(s, e), host := HostStep(s.host, e));
      match e
      case Subscribe =>
        System(s'.peers + [NewPeer(|s.subscriptions|)], s'.subscriptions + [Some(|s.peers|)], s'.host)
      case Unsubscribe(i) =>
        if s.peers[i].subscription < |s.subscriptions|
        then s'.(subscriptions := s.subscriptions[s.peers[i].subscription := None]) else s'
      case Reconnect(i) =>
        if s.peers[i].life.alive && s.peers[i].subscription < |s.subscriptions| then Replace(s', i) else s'
      case _ => s'
  }

  function Run(events: seq<Event>): System {
    if events == [] then INITIAL else Step(Run(events[..|events| - 1]), events[|events| - 1])
  }
}
