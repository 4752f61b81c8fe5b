/**
 The device table of ShillClient over every run: each cached service state is
 the last one observed since the device selected that service, and the table
 follows the device lists that shill sends.
 */
module ShillDevices {
  import opened Base
  import opened Shill
  import C = ShillConnectivity

  // ---- what the history says about a device ----

  // The service the device has selected, according to the observations.
  function SelectedBy(log: seq<Observation>, device: string): Option<string> {
    if log == [] then None
    else
      var earlier := log[..|log| - 1];
      match log[|log| - 1]
      case Selected(d, choice) => if d == device then choice else SelectedBy(earlier, device)
      case Kept(ds) => if device in ds then SelectedBy(earlier, device) else None
      case Seen(_, _) => SelectedBy(earlier, device)
  }

  // The last state observed for that service since then, Offline if none.
  function LastSeen(log: seq<Observation>, device: string): NetState {
    if log == [] then Offline
    else
      var earlier := log[..|log| - 1];
      match log[|log| - 1]
      case Selected(d, _) => if d == device then Offline else LastSeen(earlier, device)
      case Kept(ds) => if device in ds then LastSeen(earlier, device) else Offline
      case Seen(service, state) =>
        if SelectedBy(earlier, device) == Some(service) then state else LastSeen(earlier, device)
  }

  // Entry k makes or ends the device's selection.
  predicate Decides(log: seq<Observation>, device: string, k: int) {
    && 0 <= k < |log|
    && ((log[k].Selected? && log[k].device == device) || (log[k].Kept? && device !in log[k].devices))
  }

  ghost predicate SelectionAt(log: seq<Observation>, device: string, k: int, service: string) {
    && Decides(log, device, k) && log[k] == Selected(device, Some(service))
    && forall m :: k < m < |log| ==> !Decides(log, device, m)
  }

  // Entry m is an observation of the service; there is none after it.
  predicate Observes(log: seq<Observation>, service: string, m: int) {
    0 <= m < |log| && log[m].Seen? && log[m].service == service
  }

  predicate UnseenAfter(log: seq<Observation>, service: string, m: int) {
    forall i :: m < i < |log| ==> !Observes(log, service, i)
  }

  lemma SelectionEarlier(log: seq<Observation>, device: string, k: nat, service: string)
    requires SelectionAt(log, device, k, service) && k < |log| - 1
    ensures SelectionAt(log[..|log| - 1], device, k, service)
    ensures !Decides(log, device, |log| - 1)
  {
    var earlier := log[..|log| - 1];
    forall m | k < m < |earlier| ensures !Decides(earlier, device, m) { assert !Decides(log, device, m); }
  }

  lemma {:induction false} SelectionInForce(log: seq<Observation>, device: string, k: nat, service: string)
    requires SelectionAt(log, device, k, service)
    ensures SelectedBy(log, device) == Some(service)
    decreases |log|
  {
    if k < |log| - 1 {
      SelectionEarlier(log, device, k, service);
      SelectionInForce(log[..|log| - 1], device, k, service);
    }
  }

  /**
   LastSeen read off the whole history: with the selection in force made at k, it is the state of the last
   observation m of that service, and Offline if there is none since (m is k itself).
   */
  lemma {:induction false} LastSeenMeaning(log: seq<Observation>, device: string, k: nat, service: string, m: nat)
    requires SelectionAt(log, device, k, service)
    requires m == k || (k < m && Observes(log, service, m))
    requires UnseenAfter(log, service, m)
    ensures LastSeen(log, device) == if m == k then Offline else log[m].state
    decreases |log|
  {
    var n := |log| - 1;
    if k < n {
      var earlier := log[..n];
      SelectionEarlier(log, device, k, service);
      SelectionInForce(earlier, device, k, service);
      hide SelectionAt, SelectedBy;
      if m < n {
        assert !Observes(log, service, n);
        forall i | m < i < n ensures !Observes(earlier, service, i) { assert !Observes(log, service, i); }
        LastSeenMeaning(earlier, device, k, service, m);
      }
    }
  }

  // ---- the table agrees with the history ----

  function SelectionOf(devices: Devices, d: string): Option<string> {
    if d in devices && devices[d].selected.Some? then Some(devices[d].selected.value.path) else None
  }

  function StateOf(devices: Devices, d: string): NetState {
    if d in devices then devices[d].state else Offline
  }

  ghost predicate NoSharing(devices: Devices) {
    forall d, e | d in devices && e in devices && SelectionOf(devices, d).Some? ::
      SelectionOf(devices, d) == SelectionOf(devices, e) ==> d == e
  }

  ghost predicate SelectionsRight(s: State) {
    forall d :: SelectedBy(s.log, d) == SelectionOf(s.devices, d)
  }

  ghost predicate CacheRight(s: State) {
    forall d :: LastSeen(s.log, d) == StateOf(s.devices, d)
  }

  ghost predicate TableInv(s: State) {
    SelectionsRight(s) && CacheRight(s)
  }

  lemma OneMore(log: seq<Observation>, o: Observation)
    ensures (log + [o])[..|log|] == log && (log + [o])[|log|] == o && log + [o] != []
  {
  }

  // ---- what one observation does to the table ----

  // An event tells the state of a service, which is cached for one device that selected it.
  datatype Sighting = Sighting(service: string, state: NetState, holder: Option<string>)

  ghost function SignalSighting(s: State, path: string, state: string): Sighting {
    Sighting(path, MapState(state), if AnySelects(s.devices, path) then Some(FirstSelecting(s.devices, path)) else None)
  }

  // A device takes over the connecting proxy, whose state is read.
  predicate TakesOver(s: State, device: string, path: string, read: Option<string>) {
    && device in s.devices && IsValidPath(path) && !Selects(s.devices[device], path)
    && path != "/" && IsConnecting(s, path) && read.Some? && read.value != ""
  }

  ghost function Tells(s: State, e: Event): Option<Sighting> {
    match e
    case ServiceSignal(path, property, _) =>
      if property.StateProperty? && property.state != "" then Some(SignalSighting(s, path, property.state)) else None
    case ServiceWatched(path, success, properties, _) =>
      if C.ReadsState(s, path, success, properties)
      then Some(SignalSighting(s, path, properties.value.state.value)) else None
    case ServiceSelected(device, path, read) =>
      if TakesOver(s, device, path, read) then Some(Sighting(path, MapState(read.value), Some(device))) else None
    case _ => None
  }

  // All other devices that selected the service have that state already.
  ghost predicate OthersAgree(devices: Devices, x: Sighting) {
    forall d :: d in devices && Selects(devices[d], x.service) && x.holder != Some(d) ==> devices[d].state == x.state
  }

  ghost predicate MissesNobody(s: State, e: Event) {
    Tells(s, e).Some? ==> OthersAgree(s.devices, Tells(s, e).value)
  }

  lemma StateChangeHistory(s: State, path: string, state: string, d: string)
    requires TableInv(s)
    ensures var t := SelectedStateChanged(s, path, state);
            && SelectedBy(t.log, d) == SelectedBy(s.log, d) == SelectionOf(t.devices, d)
            && LastSeen(t.log, d) == if d in s.devices && Selects(s.devices[d], path) then MapState(state)
                                     else StateOf(s.devices, d)
  {
    hide MapState, Aggregate, Leq;
    OneMore(s.log, Seen(path, MapState(state)));
    assert SelectedBy(s.log, d) == SelectionOf(s.devices, d);
    assert LastSeen(s.log, d) == StateOf(s.devices, d);
  }

  lemma StateChangeCachedExactly(s: State, path: string, state: string)
    requires TableInv(s)
    ensures TableInv(SelectedStateChanged(s, path, state)) <==> OthersAgree(s.devices, SignalSighting(s, path, state))
  {
    var t, x := SelectedStateChanged(s, path, state), SignalSighting(s, path, state);
    hide MapState, Aggregate, Leq, LastSeen, SelectedBy;
    forall d
      ensures SelectedBy(t.log, d) == SelectionOf(t.devices, d)
      ensures LastSeen(t.log, d) == StateOf(t.devices, d) <==>
              (d in s.devices && Selects(s.devices[d], path) && x.holder != Some(d) ==> s.devices[d].state == x.state)
    {
      StateChangeHistory(s, path, state, d);
      assert d in s.devices && Selects(s.devices[d], path) ==> AnySelects(s.devices, path);
    }
  }

  lemma SelectionLogged(s: State, device: string, path: string, read: Option<string>)
    requires device in s.devices && IsValidPath(path) && !Selects(s.devices[device], path)
    requires C.IdleIsOffline(s.devices)
    ensures var t, over := DeviceSelected(s, device, path, read), TakesOver(s, device, path, read);
            && t.devices.Keys == s.devices.Keys
            && (forall d :: d in s.devices && d != device ==> t.devices[d] == s.devices[d])
            && SelectionOf(t.devices, device) == (if path == "/" then None else Some(path))
            && t.devices[device].state == (if over then MapState(read.value) else Offline)
            && t.log == s.log + [Selected(device, SelectionOf(t.devices, device))] +
                        (if over then [Seen(path, MapState(read.value))] else [])
  {
    hide MapState, Aggregate;
  }

  lemma SelectionHistory(s: State, device: string, path: string, read: Option<string>, d: string)
    requires TableInv(s) && C.IdleIsOffline(s.devices)
    requires device in s.devices && IsValidPath(path) && !Selects(s.devices[device], path)
    ensures var t := DeviceSelected(s, device, path, read);
            && SelectedBy(t.log, d) == SelectionOf(t.devices, d)
            && LastSeen(t.log, d) == if TakesOver(s, device, path, read) && SelectionOf(t.devices, d) == Some(path)
                                     then MapState(read.value) else if d == device then Offline else StateOf(s.devices, d)
  {
    SelectionLogged(s, device, path, read);
    var t := DeviceSelected(s, device, path, read);
    hide DeviceSelected, IsValidPath, MapState;
    var chosen := Selected(device, SelectionOf(t.devices, device));
    OneMore(s.log, chosen);
    if TakesOver(s, device, path, read) {
      OneMore(s.log + [chosen], Seen(path, MapState(read.value)));
    } else {
      assert t.log == s.log + [chosen];
    }
    assert SelectedBy(s.log, d) == SelectionOf(s.devices, d);
    assert LastSeen(s.log, d) == StateOf(s.devices, d);
  }

  lemma SelectionCachedExactly(s: State, e: Event)
    requires TableInv(s) && C.IdleIsOffline(s.devices) && e.ServiceSelected?
    ensures TableInv(DeviceSelected(s, e.device, e.path, e.read)) <==> MissesNobody(s, e)
  {
    var t := DeviceSelected(s, e.device, e.path, e.read);
    if e.device in s.devices && IsValidPath(e.path) && !Selects(s.devices[e.device], e.path) {
      SelectionLogged(s, e.device, e.path, e.read);
      hide DeviceSelected, IsValidPath, MapState, LastSeen, SelectedBy;
      forall d
        ensures SelectedBy(t.log, d) == SelectionOf(t.devices, d)
        ensures LastSeen(t.log, d) == StateOf(t.devices, d) <==>
                (TakesOver(s, e.device, e.path, e.read) && d in s.devices && Selects(s.devices[d], e.path) && d != e.device ==>
                   s.devices[d].state == MapState(e.read.value))
      {
        SelectionHistory(s, e.device, e.path, e.read, d);
      }
    }
  }

  lemma KeptKeeps(s: State, t: State, kept: set<string>)
    requires TableInv(s) && t.log == s.log + [Kept(kept)]
    requires forall d :: d in t.devices ==> d in kept
    requires forall d :: d in kept ==> SelectionOf(t.devices, d) == SelectionOf(s.devices, d)
    requires forall d :: d in kept ==> StateOf(t.devices, d) == StateOf(s.devices, d)
    ensures TableInv(t)
  {
    OneMore(s.log, Kept(kept));
    forall d ensures SelectedBy(t.log, d) == SelectionOf(t.devices, d) && LastSeen(t.log, d) == StateOf(t.devices, d) {
      assert SelectedBy(s.log, d) == SelectionOf(s.devices, d);
      assert LastSeen(s.log, d) == StateOf(s.devices, d);
    }
  }

  lemma AddingLooksSame(devices: Devices, whitelist: set<string>, list: seq<Listed>, d: string)
    ensures SelectionOf(WithNewDevices(devices, whitelist, list), d) == SelectionOf(devices, d)
    ensures StateOf(WithNewDevices(devices, whitelist, list), d) == StateOf(devices, d)
  {
  }

  lemma ListKeeps(s: State, whitelist: set<string>, list: seq<Listed>)
    requires TableInv(s)
    ensures TableInv(DeviceListChanged(s, whitelist, list))
  {
    var n := ValidPrefix(list);
    var t, added := DeviceListChanged(s, whitelist, list), WithNewDevices(s.devices, whitelist, list[..n]);
    forall d
      ensures SelectionOf(added, d) == SelectionOf(s.devices, d) && StateOf(added, d) == StateOf(s.devices, d)
    {
      AddingLooksSame(s.devices, whitelist, list[..n], d);
    }
    hide WithNewDevices;
    if n == |list| {
      KeptKeeps(s, t, Paths(list));
    } else {
      forall d ensures SelectedBy(t.log, d) == SelectionOf(t.devices, d) && LastSeen(t.log, d) == StateOf(t.devices, d) {
        assert SelectedBy(s.log, d) == SelectionOf(s.devices, d);
        assert LastSeen(s.log, d) == StateOf(s.devices, d);
      }
    }
  }

  lemma ForgetKeeps(s: State)
    requires TableInv(s)
    ensures TableInv(Forget(s))
  {
    KeptKeeps(s, Forget(s), {});
  }

  lemma SameTable(s: State, t: State)
    requires C.SameReport(s, t)
    ensures TableInv(t) <==> TableInv(s)
  {
    assert t.log == s.log && t.devices == s.devices;
  }

  predicate TouchesDevices(e: Event) {
    e.OwnerLost? || e.OwnerChanged? || e.DevicesListed? || e.ServiceSelected? || e.ServiceSignal? || e.ServiceWatched?
  }

  lemma OtherStepsReport(s: State, whitelist: set<string>, e: Event)
    requires !TouchesDevices(e)
    ensures Step(s, whitelist, e).devices == s.devices && Step(s, whitelist, e).log == s.log
  {
    if Enabled(s, e) {
      match e
      case TimerFires(proxy, again) =>
        C.ErrorReports(s.(tasks := s.tasks - multiset{Timeout(proxy)}), Some(proxy), again);
      case AnswerRuns(call, error, again) =>
        C.ConnectAllReports(s.(tasks := s.tasks - multiset{Answer(call, error)}), again);
      case ListenersRun(online, again) =>
        C.ConnectAllReports(NotifyListeners(s.(tasks := s.tasks - multiset{Notify(online)})), again);
      case _ =>
    }
  }

  lemma SignalCachedExactly(s: State, e: Event)
    requires TableInv(s) && e.ServiceSignal?
    ensures TableInv(ServicePropertyChanged(s, e.path, e.property, e.again)) <==> MissesNobody(s, e)
  {
    C.PropertyReports(s, e.path, e.property, e.again);
    hide TableInv, C.SameReport, ServicePropertyChanged, SelectedStateChanged, OthersAgree, MapState;
    var t := ServicePropertyChanged(s, e.path, e.property, e.again);
    if e.property.StateProperty? && e.property.state != "" {
      StateChangeCachedExactly(s, e.path, e.property.state);
      SameTable(SelectedStateChanged(s, e.path, e.property.state), t);
    } else {
      SameTable(s, t);
    }
  }

  lemma WatchedCachedExactly(s: State, e: Event)
    requires TableInv(s) && e.ServiceWatched?
    ensures TableInv(ServiceRegistered(s, e.path, e.success, e.properties, e.again)) <==> MissesNobody(s, e)
  {
    C.RegisteredReports(s, e.path, e.success, e.properties, e.again);
    hide TableInv, C.SameReport, ServiceRegistered, SelectedStateChanged, OthersAgree, MapState;
    var t := ServiceRegistered(s, e.path, e.success, e.properties, e.again);
    if C.ReadsState(s, e.path, e.success, e.properties) {
      StateChangeCachedExactly(s, e.path, e.properties.value.state.value);
      SameTable(SelectedStateChanged(s, e.path, e.properties.value.state.value), t);
    } else {
      SameTable(s, t);
    }
  }

  /** A step keeps the table right exactly when no other device is left behind by the state it tells. */
  lemma StepCachedExactly(s: State, whitelist: set<string>, e: Event)
    requires TableInv(s) && C.ReportInv(s)
    ensures TableInv(Step(s, whitelist, e)) <==> MissesNobody(s, e)
  {
    hide TableInv, OthersAgree, C.ReportInv, ServicePropertyChanged, ServiceRegistered, DeviceListChanged, Forget,
         DeviceSelected;
    match e
    case OwnerLost => ForgetKeeps(s);
    case OwnerChanged(reply) =>
      ForgetKeeps(s);
      if reply.Some? { ListKeeps(Forget(s), whitelist, reply.value); }
    case DevicesListed(list) => ListKeeps(s, whitelist, list);
    case ServiceSelected(_, _, _) =>
      IdleDevices(s);
      SelectionCachedExactly(s, e);
    case ServiceSignal(_, _, _) => SignalCachedExactly(s, e);
    case ServiceWatched(_, _, _, _) => WatchedCachedExactly(s, e);
    case _ =>
      OtherStepsReport(s, whitelist, e);
      SameHistory(s, Step(s, whitelist, e));
  }

  lemma IdleDevices(s: State)
    requires C.ReportInv(s)
    ensures C.IdleIsOffline(s.devices)
  {
  }

  lemma SameHistory(s: State, t: State)
    requires TableInv(s) && t.devices == s.devices && t.log == s.log
    ensures TableInv(t)
  {
  }

  // ---- over every run ----

  ghost predicate RightAt(whitelist: set<string>, events: seq<Event>, k: nat)
    requires k <= |events|
  {
    TableInv(Run(whitelist, events[..k]))
  }

  ghost predicate MissesNobodyAt(whitelist: set<string>, events: seq<Event>, k: nat)
    requires k < |events|
  {
    MissesNobody(Run(whitelist, events[..k]), events[k])
  }

  lemma StartsRight(whitelist: set<string>, events: seq<Event>)
    ensures RightAt(whitelist, events, 0)
  {
    assert events[..0] == [];
  }

  lemma NextRightExactly(whitelist: set<string>, events: seq<Event>, k: nat)
    requires k < |events| && RightAt(whitelist, events, k)
    ensures RightAt(whitelist, events, k + 1) <==> MissesNobodyAt(whitelist, events, k)
  {
    hide TableInv, MissesNobody, Step;
    assert events[..k + 1][..k] == events[..k];
    C.RunKeeps(whitelist, events[..k]);
    StepCachedExactly(Run(whitelist, events[..k]), whitelist, events[k]);
  }

  /** Over every run: the table is right throughout exactly when no step leaves a device behind. */
  lemma {:induction false} TableRightExactly(whitelist: set<string>, events: seq<Event>, n: nat)
    requires n <= |events|
    ensures (forall k :: 0 <= k <= n ==> RightAt(whitelist, events, k)) <==>
            (forall k :: 0 <= k < n ==> MissesNobodyAt(whitelist, events, k))
    decreases n
  {
    hide RightAt, MissesNobodyAt;
    if n == 0 {
      StartsRight(whitelist, events);
    } else {
      TableRightExactly(whitelist, events, n - 1);
      if RightAt(whitelist, events, n - 1) { NextRightExactly(whitelist, events, n - 1); }
    }
  }

  // No two devices have the same service selected at any point of the run.
  ghost predicate NeverShared(whitelist: set<string>, events: seq<Event>) {
    forall k :: 0 <= k <= |events| ==> NoSharing(Run(whitelist, events[..k]).devices)
  }

  lemma OnlySelector(devices: Devices, path: string, d: string, e: string)
    requires NoSharing(devices) && d in devices && e in devices
    requires Selects(devices[d], path) && SelectionOf(devices, e) == Some(path)
    ensures d == e
  {
    assert SelectionOf(devices, d) == SelectionOf(devices, e);
  }

  lemma OnlyHolderSelects(devices: Devices, after: Devices, x: Sighting, holder: string)
    requires NoSharing(after) && x.holder == Some(holder)
    requires holder in after && SelectionOf(after, holder) == Some(x.service)
    requires forall d :: d in devices && d != holder ==> d in after && after[d] == devices[d]
    ensures OthersAgree(devices, x)
  {
    forall d | d in after && Selects(after[d], x.service) ensures d == holder {
      OnlySelector(after, x.service, d, holder);
    }
  }

  lemma UnsharedMissesNobody(s: State, whitelist: set<string>, e: Event)
    requires NoSharing(s.devices) && NoSharing(Step(s, whitelist, e).devices) && C.ReportInv(s)
    ensures MissesNobody(s, e)
  {
    if Tells(s, e).Some? {
      var x := Tells(s, e).value;
      if e.ServiceSelected? {
        SelectionLogged(s, e.device, e.path, e.read);
        hide DeviceSelected, MapState, TakesOver, NoSharing;
        var t := DeviceSelected(s, e.device, e.path, e.read);
        OnlyHolderSelects(s.devices, t.devices, x, e.device);
      } else {
        hide Step, MapState;
        forall d | d in s.devices && Selects(s.devices[d], x.service) ensures x.holder == Some(d) {
          assert AnySelects(s.devices, x.service);
          assert SelectionOf(s.devices, d) == SelectionOf(s.devices, FirstSelecting(s.devices, x.service));
        }
      }
    }
  }

  lemma {:induction false} RunKeeps(whitelist: set<string>, events: seq<Event>)
    requires NeverShared(whitelist, events)
    ensures TableInv(Run(whitelist, events))
  {
    forall k | 0 <= k < |events| ensures MissesNobodyAt(whitelist, events, k) {
      hide MissesNobody, Step, NoSharing;
      assert events[..k + 1][..k] == events[..k];
      C.RunKeeps(whitelist, events[..k]);
      assert NoSharing(Run(whitelist, events[..k + 1]).devices);
      UnsharedMissesNobody(Run(whitelist, events[..k]), whitelist, events[k]);
    }
    hide MissesNobodyAt;
    TableRightExactly(whitelist, events, |events|);
    assert RightAt(whitelist, events, |events|);
    assert events[..|events|] == events;
  }

  /**
   Cache correctness: while no two devices share a service, the cached state of a device is the mapping of the
   last valid state observed for its service since it selected it; Offline if none, or without a service.
   */
  lemma DeviceCacheCorrect(whitelist: set<string>, events: seq<Event>, d: string)
    requires NeverShared(whitelist, events) && d in Run(whitelist, events).devices
    ensures var s := Run(whitelist, events);
            && s.devices[d].state == LastSeen(s.log, d)
            && SelectedBy(s.log, d) == SelectionOf(s.devices, d)
            && (s.devices[d].selected.None? ==> s.devices[d].state == Offline)
  {
    RunKeeps(whitelist, events);
    C.RunKeeps(whitelist, events);
    var s := Run(whitelist, events);
    assert LastSeen(s.log, d) == StateOf(s.devices, d);
  }

  // ---- reconciliation ----

  /**
   A valid device list, repeats included, leaves exactly the listed devices that were known or are monitored;
   those that stay keep their service and state.
   */
  lemma ValidListReconciles(s: State, whitelist: set<string>, list: seq<Listed>)
    requires forall k :: 0 <= k < |list| ==> IsValidPath(list[k].path)
    ensures var devices := DeviceListChanged(s, whitelist, list).devices;
            && (forall p :: p in devices <==> Lists(list, p) && (p in s.devices || ListsMonitored(whitelist, list, p)))
            && (forall p :: p in devices ==> devices[p] == if p in s.devices then s.devices[p] else NEW_DEVICE)
  {
    assert ValidPrefix(list) == |list| && list[..|list|] == list;
    hide IsValidPath;
    forall p ensures p in Paths(list) <==> Lists(list, p) {
      if p in Paths(list) {
        var k :| 0 <= k < |list| && list[k].path == p;
      }
    }
    forall p | ListsMonitored(whitelist, list, p) ensures Lists(list, p) {
      var k :| 0 <= k < |list| && list[k].path == p && Monitored(whitelist, list[k]);
    }
  }

  /** An invalid path stops the update: nothing is removed, and only monitored paths before it are added. */
  lemma InvalidListOnlyAdds(s: State, whitelist: set<string>, list: seq<Listed>, n: nat)
    requires n < |list| && !IsValidPath(list[n].path) && forall k :: 0 <= k < n ==> IsValidPath(list[k].path)
    ensures var t := DeviceListChanged(s, whitelist, list);
            && (forall p :: p in t.devices <==> p in s.devices || ListsMonitored(whitelist, list[..n], p))
            && (forall p :: p in t.devices ==> t.devices[p] == if p in s.devices then s.devices[p] else NEW_DEVICE)
            && t.(devices := s.devices) == s
  {
    assert ValidPrefix(list) == n;
    hide IsValidPath;
    forall p | ListsMonitored(whitelist, list[..n], p) ensures p in Paths(list[..n]) {
      var k :| 0 <= k < n && list[..n][k].path == p && Monitored(whitelist, list[..n][k]);
    }
  }
}
