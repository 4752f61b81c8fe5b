/**
 The daemon's objects: Manager with its fields, listeners and clients, and the
 BinderWeaveService handed to each client. Every method is tied to the
 functions of Daemon and Fields that the protocol is built from.
 */
module Weaved {
  import opened Fields
  import opened Instance
  import D = Daemon
  import P = Protocol

  // libweave's device, as far as weaved registers command handlers with it.
  class Device {
    // Each handler is a service together with the names bound when it was registered.
    var handlers: set<(BinderWeaveService, CommandName)>

    constructor ()
      ensures handlers == {}
    {
      handlers := {};
    }

    // The routes of the protocol that the handlers stand for.
    ghost function Routes(lifetime: nat): set<P.Route>
      reads this
    {
      set h | h in handlers :: P.Route(h.0.Ref(lifetime), h.1)
    }

    method AddCommandHandler(service: BinderWeaveService, name: CommandName)
      modifies this
      ensures handlers == old(handlers) + {(service, name)}
      ensures forall l :: Routes(l) == old(Routes(l)) + {P.Route(service.Ref(l), name)}
    {
      handlers := handlers + {(service, name)};
    }

    // A command for a registered handler arrives from the cloud or a local client.
    method Dispatch(service: BinderWeaveService, name: CommandName)
      requires (service, name) in handlers
      modifies service
      ensures service.sentCommands == old(service.sentCommands) + [name]
      ensures forall l :: P.Route(service.Ref(l), name) in Routes(l)
    {
      service.OnCommand(name.component, name.command);
    }
  }

  class BinderWeaveService {
    const device: Device
    const client: nat
    ghost const number: nat
    var sentCommands: seq<CommandName>  // onCommand calls made on the client

    constructor (device: Device, client: nat, ghost number: nat)
      ensures this.device == device && this.client == client && this.number == number && sentCommands == []
    {
      this.device, this.client, this.number := device, client, number;
      sentCommands := [];
    }

    // The name of this service in the protocol.
    ghost function Ref(lifetime: nat): ServiceRef {
      ServiceRef(lifetime, client, number)
    }

    // h is the daemon's state in the protocol.
    method RegisterCommandHandler(component: string, command: string, ghost h: P.Host)
      requires h.alive && h.m.device && h.routes == device.Routes(h.lifetime)
      modifies device
      ensures device.handlers == old(device.handlers) + {(this, CommandName(component, command))}
      ensures var call := P.HandlerCall(Ref(h.lifetime), CommandName(component, command));
              device.Routes(h.lifetime) == P.HostStep(h, P.HandlerHandled(client, call)).routes
    {
      device.AddCommandHandler(this, CommandName(component, command));
    }

    // The device calls back with the names bound at registration; the client is told the same names.
    method OnCommand(component: string, command: string)
      modifies this
      ensures sentCommands == old(sentCommands) + [CommandName(component, command)]
    {
      sentCommands := sentCommands + [CommandName(component, command)];
    }
  }

  lemma {:induction false} EmplaceAllOneMore(services: map<nat, nat>, clients: seq<nat>, client: nat, first: nat)
    ensures D.EmplaceAll(services, clients + [client], first) ==
            D.Emplace(D.EmplaceAll(services, clients, first), client, first + |clients|)
    decreases |clients|
  {
    var more := clients + [client];
    if clients == [] {
      assert more[1..] == [];
    } else {
      assert more[0] == clients[0] && more[1..] == clients[1..] + [client];
      EmplaceAllOneMore(D.Emplace(services, clients[0], first), clients[1..], client, first + 1);
    }
  }

  function NotesTo(listeners: set<nat>, ids: seq<int>): multiset<(nat, seq<int>)> {
    if ids == [] then multiset{} else multiset(set l | l in listeners :: (l, ids))
  }

  // One notification for each listener, with exactly these ids; none when there are no ids.
  lemma NotesCounted(listeners: set<nat>, ids: seq<int>, l: nat, x: seq<int>)
    ensures NotesTo(listeners, ids)[(l, x)] == if ids != [] && l in listeners && x == ids then 1 else 0
  {
    if ids != [] {
      var notes := set m | m in listeners :: (m, ids);
      assert (l, x) in notes <==> l in listeners && x == ids;
    }
  }

  // What the protocol adds to a client's wire is what the client's listener is sent.
  lemma NotesReachTheirWire(p: P.Peer, j: nat, h: P.Host, e: P.Event, x: seq<int>)
    requires !e.DaemonDies?
    ensures P.Receive(p, j, h, e).wire.notes[x] == p.wire.notes[x] + NotesTo(h.m.listeners, P.NoteOf(h, e))[(j, x)]
  {
    NotesCounted(h.m.listeners, P.NoteOf(h, e), j, x);
    hide P.NoteOf, NotesTo, P.HostStep, P.Sends;
  }

  function IdIf(changed: bool, id: int): seq<int> {
    if changed then [id] else []
  }

  // The first k updates of a batch are written: the values now, and the ids collected for them.
  ghost predicate Written(before: Values, batch: seq<Update>, k: nat, values: Values, ids: seq<int>) {
    && k <= |batch|
    && Apply(values, batch[k..]) == Apply(before, batch)
    && ids + ChangedIds(values, batch[k..]) == ChangedIds(before, batch)
  }

  lemma NothingWritten(before: Values, batch: seq<Update>)
    ensures Written(before, batch, 0, before, [])
  {
    assert batch[0..] == batch && [] + ChangedIds(before, batch) == ChangedIds(before, batch);
  }

  lemma OneMoreWritten(before: Values, batch: seq<Update>, k: nat, values: Values, ids: seq<int>)
    requires Written(before, batch, k, values, ids) && k < |batch|
    ensures Written(before, batch, k + 1, values[batch[k].id := batch[k].value],
                    ids + IdIf(Get(values, batch[k].id) != batch[k].value, batch[k].id))
  {
    var u, rest := batch[k], batch[k + 1..];
    assert batch[k..] == [u] + rest && ([u] + rest)[1..] == rest;
    assert ids + (IdIf(Get(values, u.id) != u.value, u.id) + ChangedIds(values[u.id := u.value], rest)) ==
           ids + IdIf(Get(values, u.id) != u.value, u.id) + ChangedIds(values[u.id := u.value], rest);
  }

  lemma AllWritten(before: Values, batch: seq<Update>, values: Values, ids: seq<int>)
    requires Written(before, batch, |batch|, values, ids)
    ensures values == Apply(before, batch) && ids == ChangedIds(before, batch)
  {
    assert batch[|batch|..] == [];
  }

  lemma ConfigBatch(s: Settings)
    ensures var u := ConfigUpdates(s);
            && |u| == 8
            && u[0] == Update(CLOUD_ID, s.cloudId) && u[1] == Update(DEVICE_ID, s.deviceId)
            && u[2] == Update(DEVICE_NAME, s.name) && u[3] == Update(DEVICE_DESCRIPTION, s.description)
            && u[4] == Update(DEVICE_LOCATION, s.location) && u[5] == Update(OEM_NAME, s.oemName)
            && u[6] == Update(MODEL_ID, s.modelId) && u[7] == Update(MODEL_NAME, s.modelName)
  {
  }

  // Each setting is in the field whose notification id belongs to it.
  predicate Holds(fields: Values, s: Settings) {
    && Get(fields, CLOUD_ID) == s.cloudId && Get(fields, DEVICE_ID) == s.deviceId
    && Get(fields, DEVICE_NAME) == s.name && Get(fields, DEVICE_DESCRIPTION) == s.description
    && Get(fields, DEVICE_LOCATION) == s.location && Get(fields, OEM_NAME) == s.oemName
    && Get(fields, MODEL_ID) == s.modelId && Get(fields, MODEL_NAME) == s.modelName
  }

  lemma ConfigApplied(values: Values, s: Settings)
    ensures Holds(Apply(values, ConfigUpdates(s)), s)
    ensures Exposed(Apply(values, ConfigUpdates(s))) == Exposed(values)
  {
    var u := ConfigUpdates(s);
    ConfigBatch(s);
    hide ConfigUpdates, Apply;
    forall id ensures forall k :: 0 <= k < 8 && u[k].id == id ==> Get(Apply(values, u), id) == u[k].value {
      ApplyAssigns(values, u, id);
      assert forall k :: 0 <= k < 8 ==> u[k] in u;
    }
    assert u[0].id == CLOUD_ID && u[1].id == DEVICE_ID && u[2].id == DEVICE_NAME && u[3].id == DEVICE_DESCRIPTION;
    assert u[4].id == DEVICE_LOCATION && u[5].id == OEM_NAME && u[6].id == MODEL_ID && u[7].id == MODEL_NAME;
    ApplyAssigns(values, u, PAIRING_SESSION_ID);
    ApplyAssigns(values, u, PAIRING_MODE);
    ApplyAssigns(values, u, PAIRING_CODE);
  }

  // The string members of Manager, selected as UpdateValue selects them.
  predicate AllFields(fields: Values) {
    forall id :: CLOUD_ID <= id <= PAIRING_CODE ==> id in fields
  }

  class Manager {
    var device: Device?
    var pendingClients: seq<nat>
    var services: map<nat, BinderWeaveService>
    var notificationListeners: set<nat>
    var fields: Values
    var state: string

    // One-way calls made so far: onServiceConnected in order, notifications as a bag.
    var connected: seq<(nat, BinderWeaveService)>
    var notified: multiset<(nat, seq<int>)>

    ghost var connects: seq<nat>
    ghost var sent: seq<nat>
    ghost var gone: set<nat>

    ghost function Numbers(): map<nat, nat>
      reads this
    {
      map c | c in services :: services[c].number
    }

    ghost function View(): D.State
      reads this
    {
      D.State(device != null, pendingClients, Numbers(), notificationListeners, fields, connects, sent, gone)
    }

    // The calls made to clients are those of the history, each with its own service.
    ghost predicate SentAsRecorded()
      reads this
    {
      |connected| == |sent| &&
      forall k :: 0 <= k < |sent| ==>
        connected[k].0 == sent[k] && connected[k].1.client == sent[k] && connected[k].1.number == k
    }

    constructor ()
      ensures View().(values := map[]) == D.FRESH && SentAsRecorded() && notified == multiset{}
      ensures AllFields(fields) && forall id :: Get(fields, id) == ""
    {
      device := null;
      pendingClients, services, notificationListeners := [], map[], {};
      fields := map[CLOUD_ID := "", DEVICE_ID := "", DEVICE_NAME := "", DEVICE_DESCRIPTION := "", DEVICE_LOCATION := "",
                    OEM_NAME := "", MODEL_NAME := "", MODEL_ID := "",
                    PAIRING_SESSION_ID := "", PAIRING_MODE := "", PAIRING_CODE := ""];
      state := "";
      connected, notified := [], multiset{};
      connects, sent, gone := [], [], {};
    }

    // One round of the loop of CreateServicesForClients.
    method ServeClient(client: nat)
      requires device != null && SentAsRecorded()
      modifies this`services, this`connected, this`sent
      ensures sent == old(sent) + [client] && SentAsRecorded()
      ensures Numbers() == D.Emplace(old(Numbers()), client, |old(sent)|)
      ensures client in old(services) ==> services == old(services)
      ensures client in services
      ensures |connected| == |old(connected)| + 1 && old(connected) <= connected
      ensures connected[|old(connected)|].1.device == device
    {
      var service := new BinderWeaveService(device, client, |sent|);
      if client !in services { services := services[client := service]; }
      connected := connected + [(client, service)];
      sent := sent + [client];
    }

    method CreateServicesForClients()
      requires device != null && SentAsRecorded()
      modifies this`pendingClients, this`services, this`connected, this`sent
      ensures View() == D.CreateServices(old(View())) && SentAsRecorded()
      ensures old(connected) <= connected
      ensures forall k :: |old(connected)| <= k < |connected| ==> connected[k].1.device == device
    {
      var copy := pendingClients;
      pendingClients := [];
      hide SentAsRecorded, D.Emplace;
      for i := 0 to |copy|
        invariant pendingClients == [] && sent == old(sent) + copy[..i] && SentAsRecorded()
        invariant Numbers() == D.EmplaceAll(old(Numbers()), copy[..i], |old(sent)|)
        invariant old(connected) <= connected
        invariant forall k :: |old(connected)| <= k < |connected| ==> connected[k].1.device == device
      {
        EmplaceAllOneMore(old(Numbers()), copy[..i], copy[i], |old(sent)|);
        assert copy[..i + 1] == copy[..i] + [copy[i]];
        ServeClient(copy[i]);
      }
      assert copy[..|copy|] == copy;
      assert Numbers() == D.EmplaceAll(old(Numbers()), old(pendingClients), |old(sent)|);
      assert sent == old(sent) + old(pendingClients);
    }

    method Connect(client: nat)
      requires SentAsRecorded()
      modifies this`pendingClients, this`services, this`connected, this`sent, this`connects
      ensures View() == D.Connect(old(View()), client) && SentAsRecorded()
      ensures old(connected) <= connected
    {
      pendingClients := pendingClients + [client];
      connects := connects + [client];
      if device != null {
        CreateServicesForClients();
      }
    }

    method CreateDevice()
      requires SentAsRecorded()
      modifies this`device, this`pendingClients, this`services, this`connected, this`sent
      ensures View() == D.CreateDevice(old(View())) && SentAsRecorded()
      ensures old(connected) <= connected && (old(device) != null ==> device == old(device))
      ensures old(device) == null ==> device != null && fresh(device) && device.handlers == {}
    {
      if device != null { return; }
      device := new Device();
      CreateServicesForClients();
    }

    method Stop()
      modifies this`device
      ensures View() == D.Stop(old(View())) && device == null
    {
      device := null;
    }

    method OnClientDisconnected(client: nat)
      modifies this`services, this`gone
      ensures View() == D.ClientDisconnected(old(View()), client) && services == old(services) - {client}
    {
      if client in services { gone := gone + {client}; }
      services := services - {client};
      assert Numbers() == old(Numbers()) - {client};
    }

    method RegisterNotificationListener(listener: nat)
      modifies this`notificationListeners
      ensures View() == D.AddListener(old(View()), listener)
      ensures notificationListeners == old(notificationListeners) + {listener}
    {
      notificationListeners := notificationListeners + {listener};
    }

    method OnNotificationListenerDestroyed(listener: nat)
      modifies this`notificationListeners
      ensures View() == D.RemoveListener(old(View()), listener)
      ensures notificationListeners == old(notificationListeners) - {listener}
    {
      notificationListeners := notificationListeners - {listener};
    }

    method NotifyServiceManagerChange(ids: seq<int>)
      modifies this`notified
      ensures notified == old(notified) + NotesTo(notificationListeners, ids)
      ensures forall l, x :: notified[(l, x)] ==
                             old(notified)[(l, x)] + if ids != [] && l in notificationListeners && x == ids then 1 else 0
    {
      forall l, x { NotesCounted(notificationListeners, ids, l, x); }
      if ids == [] { return; }
      var rest := notificationListeners;
      while rest != {}
        invariant rest <= notificationListeners
        invariant notified == old(notified) + multiset(set l | l in notificationListeners - rest :: (l, ids))
        decreases rest
      {
        var listener :| listener in rest;
        ghost var done := set l | l in notificationListeners - rest :: (l, ids);
        notified := notified + multiset{(listener, ids)};
        rest := rest - {listener};
        assert (set l | l in notificationListeners - rest :: (l, ids)) == done + {(listener, ids)};
        assert (listener, ids) !in done;
      }
      assert notificationListeners - {} == notificationListeners;
    }

    // Writes one member if its value differs; the ghost arguments say which update of which batch this is.
    method UpdateValue(id: int, newValue: string, ids: seq<int>, ghost before: Values, ghost batch: seq<Update>,
                       ghost k: nat)
      returns (newIds: seq<int>)
      requires AllFields(fields) && CLOUD_ID <= id <= PAIRING_CODE
      requires k < |batch| && batch[k] == Update(id, newValue) && Written(before, batch, k, fields, ids)
      modifies this`fields
      ensures fields == old(fields)[id := newValue] && AllFields(fields)
      ensures newIds == ids + if Get(old(fields), id) != newValue then [id] else []
      ensures Written(before, batch, k + 1, fields, newIds)
    {
      newIds := ids;
      OneMoreWritten(before, batch, k, fields, ids);
      hide Written;
      if fields[id] != newValue {
        fields := fields[id := newValue];
        newIds := newIds + [id];
      } else {
        assert fields[id := newValue] == fields && ids + [] == ids;
      }
    }

    method OnPairingStart(sessionId: string, mode: string, code: string)
      requires AllFields(fields)
      modifies this`fields, this`notified
      ensures AllFields(fields)
      ensures View() == old(View()).(values := AfterPairing(old(fields), Start(Pairing(sessionId, mode, code))))
      ensures Exposed(fields) == Pairing(sessionId, mode, code)
      ensures notified == old(notified) +
                          NotesTo(notificationListeners, PairingNote(old(fields), Start(Pairing(sessionId, mode, code))))
    {
      ghost var before, batch := fields, PairingUpdates(Pairing(sessionId, mode, code));
      PairingStep(before, Start(Pairing(sessionId, mode, code)));
      NothingWritten(before, batch);
      hide Written, Apply, ChangedIds, NotesTo;
      var ids := UpdateValue(PAIRING_SESSION_ID, sessionId, [], before, batch, 0);
      ids := UpdateValue(PAIRING_MODE, mode, ids, before, batch, 1);
      ids := UpdateValue(PAIRING_CODE, code, ids, before, batch, 2);
      AllWritten(before, batch, fields, ids);
      NotifyServiceManagerChange(ids);
    }

    method OnPairingEnd(sessionId: string)
      requires AllFields(fields)
      modifies this`fields, this`notified
      ensures AllFields(fields)
      ensures View() == old(View()).(values := AfterPairing(old(fields), End(sessionId)))
      ensures Exposed(fields) ==
              if old(Exposed(fields)).sessionId == sessionId then Pairing("", "", "") else old(Exposed(fields))
      ensures notified == old(notified) + NotesTo(notificationListeners, PairingNote(old(fields), End(sessionId)))
    {
      hide Written, Apply, ChangedIds;
      PairingStep(fields, End(sessionId));
      assert fields[PAIRING_SESSION_ID] == Exposed(fields).sessionId;
      hide Exposed, AfterPairing, NotesTo;
      if fields[PAIRING_SESSION_ID] != sessionId { return; }
      ghost var before, batch := fields, PairingUpdates(NO_PAIRING);
      NothingWritten(before, batch);
      var ids := UpdateValue(PAIRING_SESSION_ID, "", [], before, batch, 0);
      ids := UpdateValue(PAIRING_MODE, "", ids, before, batch, 1);
      ids := UpdateValue(PAIRING_CODE, "", ids, before, batch, 2);
      AllWritten(before, batch, fields, ids);
      NotifyServiceManagerChange(ids);
    }

    method OnConfigChanged(settings: Settings)
      requires AllFields(fields)
      modifies this`fields, this`notified
      ensures AllFields(fields)
      ensures View() == old(View()).(values := Apply(old(fields), ConfigUpdates(settings)))
      ensures Holds(fields, settings) && Exposed(fields) == old(Exposed(fields))
      ensures notified == old(notified) +
                          NotesTo(notificationListeners, ChangedIds(old(fields), ConfigUpdates(settings)))
    {
      ghost var before, batch := fields, ConfigUpdates(settings);
      NothingWritten(before, batch);
      ConfigBatch(settings);
      ConfigApplied(before, settings);
      hide Written, Apply, ChangedIds, NotesTo, ConfigUpdates, Get, AllFields, Holds, Exposed;
      var ids := UpdateValue(CLOUD_ID, settings.cloudId, [], before, batch, 0);
      ids := UpdateValue(DEVICE_ID, settings.deviceId, ids, before, batch, 1);
      ids := UpdateValue(DEVICE_NAME, settings.name, ids, before, batch, 2);
      ids := UpdateValue(DEVICE_DESCRIPTION, settings.description, ids, before, batch, 3);
      ids := UpdateValue(DEVICE_LOCATION, settings.location, ids, before, batch, 4);
      ids := UpdateValue(OEM_NAME, settings.oemName, ids, before, batch, 5);
      ids := UpdateValue(MODEL_ID, settings.modelId, ids, before, batch, 6);
      ids := UpdateValue(MODEL_NAME, settings.modelName, ids, before, batch, 7);
      AllWritten(before, batch, fields, ids);
      NotifyServiceManagerChange(ids);
    }

    // Trait definitions and the component tree are announced without being cached here.
    method OnTraitDefsChanged()
      modifies this`notified
      ensures notified == old(notified) + NotesTo(notificationListeners, [TRAITS])
    {
      NotifyServiceManagerChange([TRAITS]);
    }

    method OnComponentTreeChanged()
      modifies this`notified
      ensures notified == old(notified) + NotesTo(notificationListeners, [COMPONENTS])
    {
      NotifyServiceManagerChange([COMPONENTS]);
    }

    method OnGcdStateChanged(newState: string)
      modifies this`state, this`notified
      ensures state == newState && notified == old(notified) + NotesTo(notificationListeners, [STATE])
    {
      state := newState;
      NotifyServiceManagerChange([STATE]);
    }
  }
}
