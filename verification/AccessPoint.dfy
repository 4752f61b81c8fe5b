/**
 ApManagerClient together with the apmanager daemon whose object manager it
 watches: which access-point services exist, which this client created, and
 the signals still queued for it.
 */
module AccessPoint {
  import opened Base

  // ---- the client ----

  // Object managers are numbered; a manager proxy belongs to the object manager that reported it.
  datatype Client = Client(
    servicePath: Option<string>,   // None: not a valid path
    serviceProxy: Option<string>,
    managerProxy: Option<nat>,
    objectManager: Option<nat>,
    ssid: string
  )

  const IDLE := Client(None, None, None, None, "")

  function Started(c: Client, ssid: string, number: nat): Client {
    if c.servicePath.Some? then c else c.(ssid := ssid, objectManager := Some(number))
  }

  // The service that Stop asks apmanager to remove, if any.
  function StopRemoves(c: Client): Option<string> {
    if c.managerProxy.Some? then c.servicePath else None
  }

  function Stopped(c: Client): Client {
    IDLE
  }

  function CreatesService(c: Client): bool {
    c.servicePath.None?
  }

  // created is what CreateService returned, None when it failed or was not called.
  function ManagerAdded(c: Client, number: nat, created: Option<string>): Client {
    c.(managerProxy := Some(number), servicePath := if c.servicePath.None? then created else c.servicePath)
  }

  function AddedRemoves(c: Client, path: string): Option<string> {
    if c.servicePath == Some(path) then None else Some(path)
  }

  function ServiceAdded(c: Client, path: string): Client {
    if c.servicePath == Some(path) then c.(serviceProxy := Some(path)) else c
  }

  function ServiceRemoved(c: Client, path: string): Client {
    if c.servicePath == Some(path) then c.(servicePath := None, serviceProxy := None) else c
  }

  // ---- the daemon and its signals ----

  datatype Signal = ManagerCame | ServiceCame(path: string) | ServiceWent(path: string) | ManagerWent

  datatype System = System(
    client: Client,
    present: bool,           // the apmanager manager object exists
    existing: set<string>,   // services in apmanager
    queue: seq<Signal>,      // signals to the current object manager, in order
    // history
    used: set<string>,       // service paths ever used
    created: set<string>,    // those created for this client
    numbers: nat,            // object managers made
    removalFailed: bool,     // some RemoveService call failed
    crossed: bool            // a service was created although the manager's departure was already queued
  )

  const INITIAL := System(IDLE, false, {}, [], {}, {}, 0, false, false)

  function Signalled(s: System, signals: seq<Signal>): System {
    if s.client.objectManager.Some? then s.(queue := s.queue + signals) else s
  }

  function Remove(s: System, path: Option<string>, ok: bool): System {
    if path.None? then s
    else if !ok then s.(removalFailed := true)
    else if path.value !in s.existing then s
    else Signalled(s.(existing := s.existing - {path.value}), [ServiceWent(path.value)])
  }

  datatype Event =
    | Start(ssid: string, order: seq<string>)        // order in which existing services are reported
    | Stop(ok: bool)
    | Deliver(created: Option<string>, ok: bool)     // the first queued signal; replies of the calls it causes
    | ManagerAppears
    | ManagerGoes(order: seq<string>)
    | ForeignService(path: string)
    | ServiceVanishes(path: string)

  predicate ListsExactly(order: seq<string>, paths: set<string>) {
    (forall p :: p in order ==> p in paths) && (forall p :: p in paths ==> p in order)
  }

  predicate Enabled(s: System, e: Event) {
    match e
    case Start(_, order) => ListsExactly(order, s.existing)
    case Stop(_) => true
    case Deliver(created, _) =>
      s.queue != [] && (created.Some? ==> s.present && s.queue[0].ManagerCame? && CreatesService(s.client) &&
                                          created.value !in s.used)
    case ManagerAppears => !s.present
    case ManagerGoes(order) => s.present && ListsExactly(order, s.existing)
    case ForeignService(path) => s.present && path !in s.used
    case ServiceVanishes(path) => path in s.existing
  }

  function Came(order: seq<string>): seq<Signal> {
    seq(|order|, i requires 0 <= i < |order| => ServiceCame(order[i]))
  }

  function Went(order: seq<string>): seq<Signal> {
    seq(|order|, i requires 0 <= i < |order| => ServiceWent(order[i]))
  }

  // A new object manager reports what is there: the manager first, then its services.
  function OnStart(s: System, ssid: string, order: seq<string>): System {
    if s.client.servicePath.Some? then s
    else s.(client := Started(s.client, ssid, s.numbers), numbers := s.numbers + 1,
            queue := if s.present then [ManagerCame] + Came(order) else [])
  }

  function OnStop(s: System, ok: bool): System {
    Remove(s, StopRemoves(s.client), ok).(client := Stopped(s.client), queue := [])
  }

  function OnManagerCame(s: System, created: Option<string>): System {
    var s1 := s.(client := ManagerAdded(s.client, if s.client.objectManager.Some? then s.client.objectManager.value else 0,
                                        created));
    if created.None? then s1
    else Signalled(s1.(existing := s.existing + {created.value}, used := s.used + {created.value},
                       created := s.created + {created.value}, crossed := s.crossed || ManagerWent in s.queue),
                   [ServiceCame(created.value)])
  }

  function OnDeliver(s: System, created: Option<string>, ok: bool): System
    requires s.queue != []
  {
    var s1 := s.(queue := s.queue[1..]);
    match s.queue[0]
    case ManagerCame => OnManagerCame(s1, created)
    case ServiceCame(path) =>
      Remove(s1.(client := ServiceAdded(s.client, path)), AddedRemoves(s.client, path), ok)
    case ServiceWent(path) => s1.(client := ServiceRemoved(s.client, path))
    case ManagerWent => OnStop(s1.(client := s.client.(managerProxy := None)), true)
  }

  function Step(s: System, e: Event): System {
    if !Enabled(s, e) then s
    else match e
      case Start(ssid, order) => OnStart(s, ssid, order)
      case Stop(ok) => OnStop(s, ok)
      case Deliver(created, ok) => OnDeliver(s, created, ok)
      case ManagerAppears => Signalled(s.(present := true), [ManagerCame])
      case ManagerGoes(order) => Signalled(s.(present := false, existing := {}), Went(order) + [ManagerWent])
      case ForeignService(path) =>
        Signalled(s.(existing := s.existing + {path}, used := s.used + {path}), [ServiceCame(path)])
      case ServiceVanishes(path) => Signalled(s.(existing := s.existing - {path}), [ServiceWent(path)])
  }

  function Run(events: seq<Event>): System {
    if events == [] then INITIAL else Step(Run(events[..|events| - 1]), events[|events| - 1])
  }

  // ---- invariants ----

  ghost predicate ClientOk(s: System) {
    && (s.client.servicePath.Some? ==> s.client.managerProxy.Some? && s.client.managerProxy == s.client.objectManager)
    && (s.client.serviceProxy.Some? ==> s.client.serviceProxy == s.client.servicePath)
    && (s.client.objectManager.None? ==> s.queue == [])
  }

  predicate Reported(s: System) {
    s.client.managerProxy.Some? && s.client.managerProxy == s.client.objectManager
  }

  // Until the current object manager has reported the manager, that report is the next signal, if any.
  predicate ManagerFirst(s: System) {
    s.client.objectManager.Some? && !Reported(s) ==>
      if s.queue == [] then !s.present else s.queue[0].ManagerCame?
  }

  ghost predicate PathsOk(s: System) {
    && s.existing <= s.used && s.created <= s.used && (!s.present ==> s.existing == {})
    && (s.client.servicePath.Some? ==> s.client.servicePath.value in s.used)
    && (forall p :: ServiceWent(p) in s.queue ==> p in s.used && p !in s.existing)
  }

  // Every service that is not the client's own is still to be reported to it.
  ghost predicate StrangersReported(s: System) {
    s.client.objectManager.Some? && !s.removalFailed ==>
      forall p :: p in s.existing ==> s.client.servicePath == Some(p) || ServiceCame(p) in s.queue
  }

  ghost predicate OwnedOk(s: System) {
    !s.removalFailed && !s.crossed ==>
      && (forall p :: p in s.created && p in s.existing ==> s.client.servicePath == Some(p))
      && (ManagerWent in s.queue ==> s.created !! s.existing)
  }

  ghost predicate ApInv(s: System) {
    ClientOk(s) && ManagerFirst(s) && PathsOk(s) && StrangersReported(s) && OwnedOk(s)
  }

  lemma StartKeeps(s: System, ssid: string, order: seq<string>)
    requires ApInv(s) && ListsExactly(order, s.existing)
    ensures ApInv(OnStart(s, ssid, order))
  {
    var t := OnStart(s, ssid, order);
    if s.client.servicePath.None? {
      forall p | p in s.existing ensures ServiceCame(p) in t.queue {
        var i :| 0 <= i < |order| && order[i] == p;
        assert t.queue[i + 1] == ServiceCame(p);
      }
      assert forall x :: x in t.queue ==> x.ManagerCame? || x.ServiceCame?;
    }
  }

  lemma StopKeeps(s: System, ok: bool)
    requires ApInv(s)
    ensures ApInv(OnStop(s, ok))
  {
  }

  lemma ManagerCameKeeps(s: System, created: Option<string>)
    requires ApInv(s) && Enabled(s, Deliver(created, true)) && s.queue[0].ManagerCame?
    ensures ApInv(OnDeliver(s, created, true))
  {
    var t := OnDeliver(s, created, true);
    assert s.queue == [s.queue[0]] + s.queue[1..];
    assert forall x :: x in s.queue && !x.ManagerCame? ==> x in s.queue[1..];
    assert forall x :: x in t.queue ==> x in s.queue[1..] || (created.Some? && x == ServiceCame(created.value));
  }

  lemma ServiceCameKeeps(s: System, ok: bool)
    requires ApInv(s) && s.queue != [] && s.queue[0].ServiceCame?
    ensures ApInv(OnDeliver(s, None, ok))
  {
    ServiceCameStays(s, ok);
    ServiceCameReports(s, ok);
    hide OnDeliver, ClientOk, ManagerFirst, PathsOk, StrangersReported, OwnedOk;
  }

  lemma ServiceCameStays(s: System, ok: bool)
    requires ApInv(s) && s.queue != [] && s.queue[0].ServiceCame?
    ensures var t := OnDeliver(s, None, ok); ClientOk(t) && ManagerFirst(t) && PathsOk(t)
  {
    hide StrangersReported, OwnedOk;
    var t, path := OnDeliver(s, None, ok), s.queue[0].path;
    assert s.queue == [s.queue[0]] + s.queue[1..];
    assert forall x :: x in t.queue ==> x in s.queue[1..] || x == ServiceWent(path);
    assert forall x :: x in s.queue[1..] ==> x in s.queue;
  }

  lemma ServiceCameReports(s: System, ok: bool)
    requires ApInv(s) && s.queue != [] && s.queue[0].ServiceCame?
    ensures StrangersReported(OnDeliver(s, None, ok)) && OwnedOk(OnDeliver(s, None, ok))
  {
    hide ManagerFirst;
    var t, path := OnDeliver(s, None, ok), s.queue[0].path;
    assert s.queue == [s.queue[0]] + s.queue[1..];
    assert forall x :: x in s.queue && x != ServiceCame(path) ==> x in s.queue[1..];
    assert forall x :: x in t.queue ==> x in s.queue[1..] || x == ServiceWent(path);
    assert forall x :: x in s.queue[1..] ==> x in t.queue;
  }

  lemma ServiceWentKeeps(s: System)
    requires ApInv(s) && s.queue != [] && s.queue[0].ServiceWent?
    ensures ApInv(OnDeliver(s, None, true))
  {
    var t, path := OnDeliver(s, None, true), s.queue[0].path;
    assert s.queue == [s.queue[0]] + s.queue[1..];
    assert path !in s.existing;
    assert forall x :: x in s.queue && x != ServiceWent(path) ==> x in s.queue[1..];
  }

  lemma ManagerWentKeeps(s: System)
    requires ApInv(s) && s.queue != [] && s.queue[0].ManagerWent?
    ensures ApInv(OnDeliver(s, None, true))
  {
    assert ManagerWent in s.queue;
  }

  lemma AppearsKeeps(s: System)
    requires ApInv(s) && !s.present
    ensures ApInv(Step(s, ManagerAppears))
  {
    var t := Step(s, ManagerAppears);
    assert forall x :: x in t.queue ==> x in s.queue || x == ManagerCame;
    assert forall x :: x in s.queue ==> x in t.queue;
  }

  lemma GoesKeeps(s: System, order: seq<string>)
    requires ApInv(s) && Enabled(s, ManagerGoes(order))
    ensures ApInv(Step(s, ManagerGoes(order)))
  {
    var t := Step(s, ManagerGoes(order));
    forall x | x in Went(order) ensures x.ServiceWent? && x.path in s.existing {
      var i :| 0 <= i < |Went(order)| && Went(order)[i] == x;
      assert x.path == order[i];
    }
    assert forall x :: x in t.queue ==> x in s.queue || x in Went(order) || x == ManagerWent;
  }

  lemma ForeignKeeps(s: System, path: string)
    requires ApInv(s) && Enabled(s, ForeignService(path))
    ensures ApInv(Step(s, ForeignService(path)))
  {
    var t := Step(s, ForeignService(path));
    assert s.client.objectManager.Some? ==> t.queue[|s.queue|] == ServiceCame(path);
    assert forall x :: x in t.queue ==> x in s.queue || x == ServiceCame(path);
    assert forall x :: x in s.queue ==> x in t.queue;
  }

  lemma VanishesKeeps(s: System, path: string)
    requires ApInv(s) && path in s.existing
    ensures ApInv(Step(s, ServiceVanishes(path)))
  {
    var t := Step(s, ServiceVanishes(path));
    assert forall x :: x in t.queue ==> x in s.queue || x == ServiceWent(path);
    assert forall x :: x in s.queue ==> x in t.queue;
  }

  lemma {:induction false} StepKeeps(s: System, e: Event)
    requires ApInv(s)
    ensures ApInv(Step(s, e))
  {
    hide ApInv, OnStart, OnStop, OnDeliver, Signalled;
    if Enabled(s, e) {
      match e
      case Start(ssid, order) => StartKeeps(s, ssid, order);
      case Stop(ok) => StopKeeps(s, ok);
      case Deliver(created, ok) => DeliverKeeps(s, created, ok);
      case ManagerAppears => AppearsKeeps(s);
      case ManagerGoes(order) => GoesKeeps(s, order);
      case ForeignService(path) => ForeignKeeps(s, path);
      case ServiceVanishes(path) => VanishesKeeps(s, path);
    }
  }

  lemma {:induction false} DeliverKeeps(s: System, created: Option<string>, ok: bool)
    requires ApInv(s) && Enabled(s, Deliver(created, ok))
    ensures ApInv(OnDeliver(s, created, ok))
  {
    match s.queue[0]
    case ManagerCame => ManagerCameKeeps(s, created);
    case ServiceCame(path) => ServiceCameKeeps(s, ok);
    case ServiceWent(path) => ServiceWentKeeps(s);
    case ManagerWent => ManagerWentKeeps(s);
  }

  lemma {:induction false} RunKeeps(events: seq<Event>)
    ensures ApInv(Run(events))
  {
    if events == [] {
    } else {
      RunKeeps(events[..|events| - 1]);
      StepKeeps(Run(events[..|events| - 1]), events[|events| - 1]);
    }
  }

  /**
   At most one access point: if no removal failed, and apmanager was not replaced while a call to it was on its
   way, every service that exists and was created for this client is its service_path_.
   */
  lemma AtMostOneAccessPoint(events: seq<Event>, p: string, q: string)
    requires !Run(events).removalFailed && !Run(events).crossed
    requires p in Run(events).created && p in Run(events).existing
    requires q in Run(events).created && q in Run(events).existing
    ensures p == q && Run(events).client.servicePath == Some(p)
  {
    RunKeeps(events);
  }

  /**
   A valid service path comes with the proxy of the manager that the current object manager reported; a service
   proxy is always the one for that path.
   */
  lemma {:induction false} ProxiesBelongTogether(events: seq<Event>)
    ensures var c := Run(events).client;
            && (c.servicePath.Some? ==> c.managerProxy.Some? && c.managerProxy == c.objectManager)
            && (c.serviceProxy.Some? ==> c.serviceProxy == c.servicePath)
  {
    RunKeeps(events);
  }

  /** A service is reported only when the manager proxy is set, so removing a stranger never lacks a manager. */
  lemma ManagerKnownBeforeServices(events: seq<Event>)
    requires Run(events).queue != [] && Run(events).queue[0].ServiceCame?
    ensures Run(events).client.managerProxy.Some? && Run(events).client.managerProxy == Run(events).client.objectManager
  {
    RunKeeps(events);
  }

  /** Once every service-added signal is processed and no removal failed, no service but the client's own remains. */
  lemma OnlyOwnServiceRemains(events: seq<Event>, p: string)
    requires Run(events).client.objectManager.Some? && !Run(events).removalFailed
    requires forall q :: ServiceCame(q) !in Run(events).queue
    requires p in Run(events).existing
    ensures Run(events).client.servicePath == Some(p)
  {
    RunKeeps(events);
  }

  /**
   Why: the client forgets its service when the manager goes, without removing it; so a service of its own is
   left without an owner by that signal exactly when it still exists in apmanager at that moment.
   */
  lemma DepartureForgetsService(events: seq<Event>)
    requires Run(events).queue != [] && Run(events).queue[0].ManagerWent?
    ensures var s, t := Run(events), Step(Run(events), Deliver(None, true));
            && t.client == IDLE && t.existing == s.existing && t.created == s.created
            && (!s.removalFailed && !s.crossed ==> s.created !! s.existing)
  {
    RunKeeps(events);
    assert ManagerWent in Run(events).queue;
  }

  // ---- when exactly a service is left without an owner ----

  ghost predicate Owned(s: System) {
    forall p :: p in s.created && p in s.existing ==> s.client.servicePath == Some(p)
  }

  // A failed removal, or the departure of the manager, while a service of this client exists.
  predicate Abandons(s: System, e: Event) {
    && s.created * s.existing != {} && Enabled(s, e)
    && ((e.Stop? && !e.ok) || (e.Deliver? && s.queue[0].ManagerWent?))
  }

  lemma DeliverOwned(s: System, e: Event)
    requires ApInv(s) && Owned(s) && !Abandons(s, e) && e.Deliver? && Enabled(s, e)
    ensures Owned(OnDeliver(s, e.created, e.ok))
  {
    hide StrangersReported, ManagerFirst, OwnedOk;
    if p :| p in s.created && p in s.existing { assert p in s.created * s.existing; }
    assert s.queue[0] in s.queue;
  }

  lemma StepOwned(s: System, e: Event)
    requires ApInv(s) && Owned(s) && !Abandons(s, e)
    ensures Owned(Step(s, e))
  {
    if Enabled(s, e) && e.Deliver? { DeliverOwned(s, e); }
    hide OnDeliver, StrangersReported, ManagerFirst, OwnedOk, ListsExactly, Came, Went;
    if p :| p in s.created && p in s.existing { assert p in s.created * s.existing; }
  }

  lemma StepAbandons(s: System, e: Event)
    requires Abandons(s, e)
    ensures !Owned(Step(s, e))
  {
    var p :| p in s.created * s.existing;
    var t := Step(s, e);
    assert p in t.created && p in t.existing && t.client == IDLE;
  }

  /** Every step keeps the client's services owned, with exactly these exceptions. */
  lemma {:induction false} OwnershipLostExactly(events: seq<Event>, e: Event)
    requires Owned(Run(events))
    ensures Owned(Step(Run(events), e)) <==> !Abandons(Run(events), e)
  {
    RunKeeps(events);
    hide Run, Step, Owned, Abandons, ApInv;
    if Abandons(Run(events), e) { StepAbandons(Run(events), e); } else { StepOwned(Run(events), e); }
  }

  // After the first k events of a run.
  ghost predicate OwnedAt(events: seq<Event>, k: nat)
    requires k <= |events|
  {
    Owned(Run(events[..k]))
  }

  predicate AbandonsAt(events: seq<Event>, k: nat)
    requires k < |events|
  {
    Abandons(Run(events[..k]), events[k])
  }

  lemma NextOwnedExactly(events: seq<Event>, k: nat)
    requires k < |events| && OwnedAt(events, k)
    ensures OwnedAt(events, k + 1) <==> !AbandonsAt(events, k)
  {
    hide Run, Step, Owned, Abandons;
    NextState(events, k);
    OwnershipLostExactly(events[..k], events[k]);
  }

  lemma NextState(events: seq<Event>, k: nat)
    requires k < |events|
    ensures Run(events[..k + 1]) == Step(Run(events[..k]), events[k])
  {
    assert events[..k + 1][..k] == events[..k];
    hide Step;
  }

  lemma FirstState(events: seq<Event>)
    ensures Run(events[..0]) == INITIAL
  {
    assert events[..0] == [];
  }

  /** Over every run: the client's services are owned throughout if and only if no step abandons one. */
  lemma {:induction false} OwnedExactly(events: seq<Event>, n: nat)
    requires n <= |events|
    ensures (forall k :: 0 <= k <= n ==> OwnedAt(events, k)) <==> (forall k :: 0 <= k < n ==> !AbandonsAt(events, k))
    decreases n
  {
    if n == 0 {
      FirstState(events);
    } else {
      OwnedExactly(events, n - 1);
      hide OwnedAt, AbandonsAt;
      if OwnedAt(events, n - 1) { NextOwnedExactly(events, n - 1); }
    }
  }

  /** So over every run without such a step every service of the client that exists is service_path_. */
  lemma {:induction false} OwnedUnlessAbandoned(events: seq<Event>)
    requires forall k :: 0 <= k < |events| ==> !Abandons(Run(events[..k]), events[k])
    ensures Owned(Run(events))
  {
    assert forall k :: 0 <= k < |events| ==> !AbandonsAt(events, k);
    OwnedExactly(events, |events|);
    assert OwnedAt(events, |events|);
    assert events[..|events|] == events;
  }

  // ---- when exactly there are two access points ----

  ghost predicate AtMostOne(s: System) {
    forall p, q :: p in s.created * s.existing && q in s.created * s.existing ==> p == q
  }

  // apmanager creates a service for the client while another one of its own exists.
  predicate CreatesSecond(s: System, e: Event) {
    e.Deliver? && Enabled(s, e) && e.created.Some? && s.created * s.existing != {}
  }

  // A step that creates nothing gives the client no further service.
  lemma NothingCreated(s: System, e: Event)
    requires ApInv(s) && !(e.Deliver? && e.created.Some?)
    ensures Step(s, e).created * Step(s, e).existing <= s.created * s.existing
  {
    hide StrangersReported, ManagerFirst, OwnedOk, ClientOk, ListsExactly, Came, Went;
  }

  lemma OneCreated(s: System, e: Event)
    requires ApInv(s) && e.Deliver? && Enabled(s, e) && e.created.Some?
    ensures Step(s, e).created * Step(s, e).existing == s.created * s.existing + {e.created.value}
    ensures e.created.value !in s.created
  {
    hide StrangersReported, ManagerFirst, OwnedOk, ClientOk, ListsExactly, Came, Went;
  }

  /** A step keeps it at one if and only if it does not create a second service. */
  lemma {:induction false} StepKeepsOneExactly(events: seq<Event>, e: Event)
    requires AtMostOne(Run(events))
    ensures AtMostOne(Step(Run(events), e)) <==> !CreatesSecond(Run(events), e)
  {
    RunKeeps(events);
    var s := Run(events);
    hide Run, Step, ApInv, Enabled;
    if e.Deliver? && e.created.Some? && Enabled(s, e) {
      OneCreated(s, e);
      var own := s.created * s.existing;
      assert e.created.value in own + {e.created.value};
      if own != {} {
        var p :| p in own;
        assert p in own + {e.created.value};
      }
    } else if Enabled(s, e) {
      NothingCreated(s, e);
    } else {
      DisabledStep(s, e);
    }
  }

  lemma DisabledStep(s: System, e: Event)
    requires !Enabled(s, e)
    ensures Step(s, e) == s
  {
  }

  ghost predicate AtMostOneAt(events: seq<Event>, k: nat)
    requires k <= |events|
  {
    AtMostOne(Run(events[..k]))
  }

  predicate CreatesSecondAt(events: seq<Event>, k: nat)
    requires k < |events|
  {
    CreatesSecond(Run(events[..k]), events[k])
  }

  lemma NextAtMostOneExactly(events: seq<Event>, k: nat)
    requires k < |events| && AtMostOneAt(events, k)
    ensures AtMostOneAt(events, k + 1) <==> !CreatesSecondAt(events, k)
  {
    hide Run, Step, AtMostOne, CreatesSecond;
    NextState(events, k);
    StepKeepsOneExactly(events[..k], events[k]);
  }

  /**
   Over every run: there is at most one access point throughout if and only if apmanager never creates one for
   the client while another one of its own still exists.
   */
  lemma {:induction false} AtMostOneExactly(events: seq<Event>, n: nat)
    requires n <= |events|
    ensures (forall k :: 0 <= k <= n ==> AtMostOneAt(events, k)) <==>
            (forall k :: 0 <= k < n ==> !CreatesSecondAt(events, k))
    decreases n
  {
    if n == 0 {
      FirstState(events);
    } else {
      AtMostOneExactly(events, n - 1);
      hide AtMostOneAt, CreatesSecondAt;
      if AtMostOneAt(events, n - 1) { NextAtMostOneExactly(events, n - 1); }
    }
  }

  // ---- a run with two access points ----

  // The manager is replaced under a pending call; the second service is created before the first is reported.
  const REPLACED := [Start("ap", []), ManagerAppears, ManagerGoes([]), ManagerAppears,
                     Deliver(Some("/a"), true), Deliver(None, true), Start("ap", ["/a"]), Deliver(Some("/b"), true)]

  // The object manager is set up, and apmanager starts, stops and starts again before any signal is handled.
  const WATCHING := System(Client(None, None, None, Some(0), "ap"), false, {}, [], {}, {}, 1, false, false)

  const RESTARTED := WATCHING.(present := true, queue := [ManagerCame, ManagerWent, ManagerCame])

  const FIRST_CREATED := System(Client(Some("/a"), None, Some(0), Some(0), "ap"), true, {"/a"},
                                [ManagerWent, ManagerCame, ServiceCame("/a")], {"/a"}, {"/a"}, 1, false, true)

  const BOTH_CREATED := System(Client(Some("/b"), None, Some(1), Some(1), "ap"), true, {"/a", "/b"},
                               [ServiceCame("/a"), ServiceCame("/b")], {"/a", "/b"}, {"/a", "/b"}, 2, false, true)

  lemma ManagerRestarts()
    ensures Run(REPLACED[..4]) == RESTARTED
  {
    var e := REPLACED;
    FirstState(e);
    hide Run;
    NextState(e, 0);
    assert Step(INITIAL, e[0]) == WATCHING;
    NextState(e, 1);
    NextState(e, 2);
    NextState(e, 3);
    var s2, s3 := WATCHING.(present := true, queue := [ManagerCame]), WATCHING.(queue := [ManagerCame, ManagerWent]);
    assert Step(WATCHING, e[1]) == s2 && Step(s2, e[2]) == s3 && Step(s3, e[3]) == RESTARTED;
  }

  lemma FirstService()
    ensures Run(REPLACED[..5]) == FIRST_CREATED
  {
    ManagerRestarts();
    hide Run;
    NextState(REPLACED, 4);
    assert Step(RESTARTED, REPLACED[4]) == FIRST_CREATED;
  }

  lemma SecondService()
    ensures Run(REPLACED) == BOTH_CREATED
  {
    var e := REPLACED;
    FirstService();
    hide Run;
    NextState(e, 5);
    NextState(e, 6);
    NextState(e, 7);
    var s6 := FIRST_CREATED.(client := IDLE, queue := []);
    var s7 := FIRST_CREATED.(client := Client(None, None, None, Some(1), "ap"),
                             queue := [ManagerCame, ServiceCame("/a")], numbers := 2);
    assert Step(FIRST_CREATED, e[5]) == s6 && Step(s6, e[6]) == s7;
    CreatesB(s7);
    assert e[..8] == e;
  }

  lemma CreatesB(s7: System)
    requires s7 == FIRST_CREATED.(client := Client(None, None, None, Some(1), "ap"),
                                  queue := [ManagerCame, ServiceCame("/a")], numbers := 2)
    ensures Step(s7, Deliver(Some("/b"), true)) == BOTH_CREATED
  {
  }

  lemma ReplacedManagerLeavesTwo()
    ensures Run(REPLACED).created * Run(REPLACED).existing == {"/a", "/b"}
    ensures !Run(REPLACED).removalFailed && Run(REPLACED).crossed
  {
    SecondService();
    hide Run;
  }

  /** The report of the first service is still queued; handling it, with a removal that works, leaves the second. */
  lemma TwoUntilReported()
    ensures var s := Run(REPLACED + [Deliver(None, true)]);
            s.created * s.existing == {"/b"} && s.client.servicePath == Some("/b")
  {
    var e := REPLACED + [Deliver(None, true)];
    SecondService();
    assert e[..8] == REPLACED && e[..9] == e;
    hide Run;
    NextState(e, 8);
  }

  // ---- the client's own service is taken up and given up ----

  // It is known by its proxy, or its report is on its way.
  predicate OwnReported(s: System) {
    s.client.servicePath.Some? ==>
      s.client.serviceProxy == s.client.servicePath || ServiceCame(s.client.servicePath.value) in s.queue
  }

  // It exists, or the report that it went is on its way.
  predicate OwnExists(s: System) {
    s.client.servicePath.Some? ==>
      s.client.servicePath.value in s.existing || ServiceWent(s.client.servicePath.value) in s.queue
  }

  lemma ManagerCameKeepsOwn(s: System, created: Option<string>)
    requires ApInv(s) && OwnReported(s) && OwnExists(s)
    requires Enabled(s, Deliver(created, true)) && s.queue[0].ManagerCame?
    ensures OwnReported(OnDeliver(s, created, true)) && OwnExists(OnDeliver(s, created, true))
  {
    hide ManagerFirst, StrangersReported, OwnedOk;
    assert s.queue == [s.queue[0]] + s.queue[1..];
    var t := OnDeliver(s, created, true);
    assert t.queue == s.queue[1..] + if created.Some? then [ServiceCame(created.value)] else [];
    if created.Some? { assert t.queue[|t.queue| - 1] == ServiceCame(created.value); }
    hide PathsOk;
  }

  lemma ServiceCameKeepsOwn(s: System, ok: bool)
    requires ApInv(s) && OwnReported(s) && OwnExists(s) && s.queue != [] && s.queue[0].ServiceCame?
    ensures OwnReported(OnDeliver(s, None, ok)) && OwnExists(OnDeliver(s, None, ok))
  {
    hide ManagerFirst, StrangersReported, OwnedOk, PathsOk;
    assert s.queue == [s.queue[0]] + s.queue[1..];
    var t := OnDeliver(s, None, ok);
    assert forall x :: x in s.queue && x != s.queue[0] ==> x in s.queue[1..];
    assert forall x :: x in s.queue[1..] ==> x in t.queue;
  }

  lemma WentKeepsOwn(s: System, ok: bool)
    requires ApInv(s) && OwnReported(s) && OwnExists(s) && s.queue != []
    requires s.queue[0].ServiceWent? || s.queue[0].ManagerWent?
    ensures OwnReported(OnDeliver(s, None, ok)) && OwnExists(OnDeliver(s, None, ok))
  {
    hide ManagerFirst, StrangersReported, OwnedOk, PathsOk;
    assert s.queue == [s.queue[0]] + s.queue[1..];
    assert forall x :: x in s.queue && x != s.queue[0] ==> x in s.queue[1..];
  }

  lemma DeliverKeepsOwn(s: System, created: Option<string>, ok: bool)
    requires ApInv(s) && OwnReported(s) && OwnExists(s) && Enabled(s, Deliver(created, ok))
    ensures OwnReported(OnDeliver(s, created, ok)) && OwnExists(OnDeliver(s, created, ok))
  {
    hide OwnReported, OwnExists, ApInv;
    match s.queue[0]
    case ManagerCame => ManagerCameKeepsOwn(s, created);
    case ServiceCame(_) => ServiceCameKeepsOwn(s, ok);
    case ServiceWent(_) => WentKeepsOwn(s, ok);
    case ManagerWent => WentKeepsOwn(s, ok);
  }

  lemma GoingKeepsOwn(s: System, order: seq<string>)
    requires ApInv(s) && OwnReported(s) && OwnExists(s) && Enabled(s, ManagerGoes(order))
    ensures OwnReported(Step(s, ManagerGoes(order))) && OwnExists(Step(s, ManagerGoes(order)))
  {
    hide ManagerFirst, StrangersReported, OwnedOk;
    var t := Step(s, ManagerGoes(order));
    assert s.client.objectManager.Some? ==> forall x :: x in s.queue ==> x in t.queue;
    if s.client.servicePath.Some? && s.client.servicePath.value in s.existing {
      var i :| 0 <= i < |order| && order[i] == s.client.servicePath.value;
      assert Went(order)[i] == ServiceWent(order[i]);
      assert ServiceWent(order[i]) in Went(order) && ServiceWent(order[i]) in t.queue;
    }
  }

  lemma StepKeepsOwn(s: System, e: Event)
    requires ApInv(s) && OwnReported(s) && OwnExists(s)
    ensures OwnReported(Step(s, e)) && OwnExists(Step(s, e))
  {
    if Enabled(s, e) {
      if e.Deliver? {
        DeliverKeepsOwn(s, e.created, e.ok);
        hide OnDeliver, OwnReported, OwnExists;
      } else if e.ManagerGoes? {
        GoingKeepsOwn(s, e.order);
        hide OwnReported, OwnExists;
      } else {
        assert forall x :: x in s.queue && Step(s, e).client.servicePath.Some? ==> x in Step(s, e).queue;
      }
      hide ManagerFirst, StrangersReported, OwnedOk, PathsOk;
    }
  }

  /**
   Over every run: the client has the proxy of its own service unless its report is still queued, and its service
   exists unless the report that it went is still queued.
   */
  lemma {:induction false} OwnServiceFollowed(events: seq<Event>)
    ensures OwnReported(Run(events)) && OwnExists(Run(events))
  {
    if events == [] {
    } else {
      var n := |events| - 1;
      RunKeeps(events[..n]);
      OwnServiceFollowed(events[..n]);
      hide OwnReported, OwnExists, ApInv, Step;
      StepKeepsOwn(Run(events[..n]), events[n]);
    }
  }
}
