/**
 The weaved daemon's bookkeeping (buffet::Manager): clients waiting for a
 device, the services handed out, notification listeners and exposed fields,
 within one daemon lifetime. A client is known by the identity of its callback
 binder object, a service by its position in the order of hand-outs.
 */
module Daemon {
  import opened Fields

  datatype State = State(
    device: bool,
    pending: seq<nat>,
    services: map<nat, nat>,  // client -> number of the service created for it
    listeners: set<nat>,
    values: Values,
    // history
    connects: seq<nat>,       // clients, in the order their connect arrived
    sent: seq<nat>,           // sent[k] is the client that was sent service k
    gone: set<nat>            // served clients whose death was reported
  )

  const FRESH := State(false, [], map[], {}, map[], [], [], {})

  // std::map::emplace: an existing entry stays.
  function Emplace(services: map<nat, nat>, client: nat, service: nat): map<nat, nat> {
    if client in services then services else services[client := service]
  }

  function EmplaceAll(services: map<nat, nat>, clients: seq<nat>, first: nat): map<nat, nat>
    decreases |clients|
  {
    if clients == [] then services
    else EmplaceAll(Emplace(services, clients[0], first), clients[1..], first + 1)
  }

  function CreateServices(m: State): State {
    m.(services := EmplaceAll(m.services, m.pending, |m.sent|), sent := m.sent + m.pending, pending := [])
  }

  function Connect(m: State, client: nat): State {
    var m' := m.(pending := m.pending + [client], connects := m.connects + [client]);
    if m.device then CreateServices(m') else m'
  }

  function CreateDevice(m: State): State {
    if m.device then m else CreateServices(m.(device := true))
  }

  function Stop(m: State): State {
    m.(device := false)
  }

  // Death is watched only for clients that were given a service.
  function ClientDisconnected(m: State, client: nat): State {
    if client in m.services then m.(services := m.services - {client}, gone := m.gone + {client}) else m
  }

  function AddListener(m: State, listener: nat): State {
    m.(listeners := m.listeners + {listener})
  }

  function RemoveListener(m: State, listener: nat): State {
    m.(listeners := m.listeners - {listener})
  }

  datatype Event =
    | ConnectArrives(client: nat)
    | DeviceCreated
    | Stopped
    | ClientDied(client: nat)
    | ListenerArrives(listener: nat)
    | ListenerDied(listener: nat)
    | FieldsSet(updates: seq<Update>)
    | PairingChanged(event: PairingEvent)

  function Step(m: State, event: Event): State {
    match event
    case ConnectArrives(client) => Connect(m, client)
    case DeviceCreated => CreateDevice(m)
    case Stopped => Stop(m)
    case ClientDied(client) => ClientDisconnected(m, client)
    case ListenerArrives(listener) => AddListener(m, listener)
    case ListenerDied(listener) => RemoveListener(m, listener)
    case FieldsSet(updates) => m.(values := Apply(m.values, updates))
    case PairingChanged(e) => m.(values := AfterPairing(m.values, e))
  }

  function Run(events: seq<Event>): State {
    if events == [] then FRESH else Step(Run(events[..|events| - 1]), events[|events| - 1])
  }

  ghost predicate NoRepeats(s: seq<nat>) {
    forall j, k :: 0 <= j < k < |s| ==> s[j] != s[k]
  }

  // services_ holds the served, still connected clients, each with the service it was sent.
  ghost predicate ServicesExact(services: map<nat, nat>, sent: seq<nat>, gone: set<nat>) {
    && (forall c :: c in services <==> c in sent && c !in gone)
    && (forall c :: c in services ==> services[c] < |sent| && sent[services[c]] == c)
    && (forall c :: c in gone ==> c in sent)
  }

  ghost predicate Conserved(m: State) {
    && m.connects == m.sent + m.pending
    && (m.device ==> m.pending == [])
    && (NoRepeats(m.connects) ==> ServicesExact(m.services, m.sent, m.gone))
  }

  lemma {:induction false} EmplaceAllAdds(services: map<nat, nat>, clients: seq<nat>, first: nat)
    requires NoRepeats(clients) && forall c :: c in clients ==> c !in services
    ensures forall c :: c in EmplaceAll(services, clients, first) <==> c in services || c in clients
    ensures forall c :: c in services ==> EmplaceAll(services, clients, first)[c] == services[c]
    ensures forall k :: 0 <= k < |clients| ==> clients[k] in EmplaceAll(services, clients, first) &&
                                               EmplaceAll(services, clients, first)[clients[k]] == first + k
    decreases |clients|
  {
    if clients == [] {
    } else {
      var rest, next := clients[1..], Emplace(services, clients[0], first);
      EmplaceAllAdds(next, rest, first + 1);
      forall k | 0 <= k < |clients|
        ensures clients[k] in EmplaceAll(services, clients, first)
        ensures EmplaceAll(services, clients, first)[clients[k]] == first + k
      {
        if k > 0 { assert clients[k] == rest[k - 1]; }
      }
      forall c ensures c in EmplaceAll(services, clients, first) <==> c in services || c in clients {
        assert c in clients <==> c == clients[0] || c in rest;
      }
    }
  }

  lemma ServingKeepsExact(services: map<nat, nat>, sent: seq<nat>, gone: set<nat>, pending: seq<nat>)
    requires NoRepeats(sent + pending) && ServicesExact(services, sent, gone)
    ensures ServicesExact(EmplaceAll(services, pending, |sent|), sent + pending, gone)
  {
    var all := sent + pending;
    forall j, k | 0 <= j < |sent| && 0 <= k < |pending| ensures sent[j] != pending[k] {
      assert all[j] == sent[j] && all[|sent| + k] == pending[k];
    }
    assert NoRepeats(pending) by {
      forall j, k | 0 <= j < k < |pending| ensures pending[j] != pending[k] {
        assert all[|sent| + j] == pending[j] && all[|sent| + k] == pending[k];
      }
    }
    EmplaceAllAdds(services, pending, |sent|);
    var services' := EmplaceAll(services, pending, |sent|);
    forall c ensures c in services' <==> c in all && c !in gone {
      assert c in all <==> c in sent || c in pending;
    }
    forall c | c in services' ensures services'[c] < |all| && all[services'[c]] == c {
      if c in pending {
        var k :| 0 <= k < |pending| && pending[k] == c;
      }
    }
  }

  lemma StepConserves(m: State, event: Event)
    requires Conserved(m)
    ensures Conserved(Step(m, event))
  {
    match event
    case ConnectArrives(client) =>
      var m' := Step(m, event);
      assert m'.connects == m'.sent + m'.pending;
      if NoRepeats(m'.connects) {
        assert forall k :: 0 <= k < |m.connects| ==> m.connects[k] == m'.connects[k];
        if m.device {
          assert m.pending + [client] == [client] && m'.connects == m.sent + [client];
          ServingKeepsExact(m.services, m.sent, m.gone, [client]);
        }
      }
    case DeviceCreated =>
      if !m.device && NoRepeats(m.connects) { ServingKeepsExact(m.services, m.sent, m.gone, m.pending); }
    case _ =>
  }

  /**
   Client conservation: over every run, connects are answered in order, each once or still pending
   (position k of the connects is position k of the services sent); nobody waits while a device is present;
   and when every connect brings its own client object, services_ is exact.
   */
  lemma {:induction false} ClientConservation(events: seq<Event>)
    ensures Conserved(Run(events))
  {
    if events == [] {
    } else {
      ClientConservation(events[..|events| - 1]);
      StepConserves(Run(events[..|events| - 1]), events[|events| - 1]);
    }
  }

  // A service is sent only by a step that ends with a device present, and sent services are never recalled.
  lemma ServedOnlyWithDevice(m: State, event: Event)
    ensures m.sent <= Step(m, event).sent
    ensures Step(m, event).sent != m.sent ==> Step(m, event).device
  {
  }

  // Whoever leaves the waiting list is sent a service, in order, and nobody else is.
  lemma StepServesPending(m: State, event: Event)
    requires m.device ==> m.pending == []
    ensures Step(m, event).device ==> Step(m, event).pending == []
    ensures m.sent <= Step(m, event).sent
    ensures Step(m, event).sent[|m.sent|..] + Step(m, event).pending ==
            m.pending + if event.ConnectArrives? then [event.client] else []
  {
    var m' := Step(m, event);
    assert m'.sent[|m.sent|..] + m'.pending == m.pending + if event.ConnectArrives? then [event.client] else [];
  }

  lemma StepConnects(m: State, event: Event)
    ensures Step(m, event).connects == m.connects + if event.ConnectArrives? then [event.client] else []
  {
  }

  lemma CountedOnce(s: seq<nat>)
    requires forall c :: c in s ==> multiset(s)[c] <= 1
    ensures NoRepeats(s)
  {
    forall a, b | 0 <= a < b < |s| ensures s[a] != s[b] {
      var front, back := s[..b], s[b..];
      assert s == front + back && front[a] == s[a] && back[0] == s[b];
      assert multiset(s) == multiset(front) + multiset(back);
      assert s[a] in front && s[b] in back && s[a] in s;
    }
  }

  // A client is handed at most one service over a run in which it connects at most once.
  lemma ServedAtMostOnce(events: seq<Event>, j: nat, k: nat)
    requires j < k < |Run(events).sent| && Run(events).sent[j] == Run(events).sent[k]
    ensures !NoRepeats(Run(events).connects)
  {
    ClientConservation(events);
    assert Run(events).connects[j] == Run(events).connects[k];
  }

  // ---- the books as functions of history ----

  // Event k made the device, and it was not stopped since.
  predicate CreatedAt(events: seq<Event>, k: int) {
    0 <= k < |events| && events[k].DeviceCreated? && forall j :: k < j < |events| ==> !events[j].Stopped?
  }

  lemma DeviceStep(m: State, event: Event)
    ensures Step(m, event).device == (event.DeviceCreated? || (m.device && !event.Stopped?))
  {
    hide EmplaceAll, Apply, AfterPairing;
  }

  lemma CreatedAtLast(events: seq<Event>, n: nat)
    requires |events| == n + 1
    ensures (exists k :: CreatedAt(events, k)) <==>
            events[n].DeviceCreated? || (!events[n].Stopped? && exists k :: CreatedAt(events[..n], k))
  {
    if events[n].DeviceCreated? { assert CreatedAt(events, n); }
    if k :| CreatedAt(events, k) {
      if k < n { assert CreatedAt(events[..n], k); }
    }
    if k :| CreatedAt(events[..n], k) && !events[n].Stopped? { assert CreatedAt(events, k); }
  }

  /** A device is present exactly when one was created after the last Stop. */
  lemma {:induction false} DeviceMatchesHistory(events: seq<Event>)
    ensures Run(events).device <==> exists k :: CreatedAt(events, k)
  {
    if events == [] {
    } else {
      var n := |events| - 1;
      DeviceMatchesHistory(events[..n]);
      DeviceStep(Run(events[..n]), events[n]);
      CreatedAtLast(events, n);
      hide Step, CreatedAt;
    }
  }

  // Event k brought the listener, and its death was not reported since.
  predicate ListensSince(events: seq<Event>, l: nat, k: int) {
    0 <= k < |events| && events[k] == ListenerArrives(l) && forall j :: k < j < |events| ==> events[j] != ListenerDied(l)
  }

  /** The listeners are exactly those that registered and whose death was not reported after that. */
  lemma {:induction false} ListenersMatchHistory(events: seq<Event>, l: nat)
    ensures l in Run(events).listeners <==> exists k :: ListensSince(events, l, k)
  {
    if events == [] {
    } else {
      var n := |events| - 1;
      ListenersMatchHistory(events[..n], l);
      assert events[n] == ListenerArrives(l) ==> ListensSince(events, l, n);
      forall k | 0 <= k < n
        ensures ListensSince(events, l, k) <==> ListensSince(events[..n], l, k) && events[n] != ListenerDied(l)
      {
        assert ListensSince(events, l, k) ==> events[n] != ListenerDied(l);
      }
      hide EmplaceAll, Apply, AfterPairing;
    }
  }

  // Event k reported the death of a client that had its service.
  predicate GoneAt(events: seq<Event>, c: nat, k: int) {
    0 <= k < |events| && events[k] == ClientDied(c) && c in Run(events[..k]).services
  }

  /** A client counts as gone exactly when its death was reported while it had a service. */
  lemma {:induction false} GoneMatchesHistory(events: seq<Event>, c: nat)
    ensures c in Run(events).gone <==> exists k :: GoneAt(events, c, k)
  {
    if events == [] {
    } else {
      var n := |events| - 1;
      GoneMatchesHistory(events[..n], c);
      forall k | 0 <= k < n ensures GoneAt(events, c, k) <==> GoneAt(events[..n], c, k) {
        assert events[..n][..k] == events[..k];
      }
      assert GoneAt(events, c, n) <==> events[n] == ClientDied(c) && c in Run(events[..n]).services;
      hide EmplaceAll, Apply, AfterPairing;
    }
  }

  // From then on it has no service, unless it connects anew.
  lemma DeathRemoves(m: State, c: nat)
    ensures c !in Step(m, ClientDied(c)).services
    ensures forall d :: d in m.services && d != c ==>
              d in Step(m, ClientDied(c)).services && Step(m, ClientDied(c)).services[d] == m.services[d]
  {
  }
}
