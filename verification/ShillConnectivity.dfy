/**
 What ShillClient reports over every run: the aggregated connectivity, the
 listener rounds that follow its changes, the state cached for each device,
 and the reconciliation of the device list.
 */
module ShillConnectivity {
  import opened Base
  import opened Shill

  // ---- the aggregate is the maximum ----

  ghost predicate IsMaximum(devices: Devices, c: NetState) {
    && (forall d :: d in devices ==> Rank(devices[d].state) <= Rank(c))
    && (c == Offline || exists d :: d in devices && devices[d].state == c)
  }

  lemma AggregateIsMaximum(devices: Devices, c: NetState)
    ensures IsMaximum(devices, Aggregate(devices))
    ensures IsMaximum(devices, c) ==> c == Aggregate(devices)
  {
    assert forall d :: d in devices ==> HasState(devices, devices[d].state);
    if IsMaximum(devices, c) && c != Offline {
      var d :| d in devices && devices[d].state == c;
    }
  }

  // Devices that only come without a service, or go while offline, do not move the aggregate.
  ghost predicate SameBusy(devices: Devices, devices': Devices) {
    && (forall d :: d in devices && devices[d].state != Offline ==> d in devices' && devices'[d].state == devices[d].state)
    && (forall d :: d in devices' && devices'[d].state != Offline ==> d in devices && devices[d].state == devices'[d].state)
  }

  lemma SameAggregate(devices: Devices, devices': Devices)
    requires SameBusy(devices, devices')
    ensures Aggregate(devices) == Aggregate(devices')
  {
    forall st | st != Offline ensures HasState(devices, st) <==> HasState(devices', st) {
      if HasState(devices, st) {
        var d :| d in devices && devices[d].state == st;
        assert devices'[d].state == st;
      }
      if HasState(devices', st) {
        var d :| d in devices' && devices'[d].state == st;
        assert devices[d].state == st;
      }
    }
  }

  ghost predicate IdleIsOffline(devices: Devices) {
    forall d :: d in devices && devices[d].selected.None? ==> devices[d].state == Offline
  }

  predicate Notified(s: State) {
    s.connectivity == s.notifiedAt || Notify(true) in s.tasks || Notify(false) in s.tasks
  }

  ghost predicate ReportInv(s: State) {
    s.connectivity == Aggregate(s.devices) && IdleIsOffline(s.devices) && Notified(s)
  }

  // Steps of the attempt leave devices and connectivity alone and only add tasks.
  ghost predicate SameReport(s: State, t: State) {
    && t.devices == s.devices && t.connectivity == s.connectivity && t.notifiedAt == s.notifiedAt && t.log == s.log
    && (forall b :: Notify(b) in s.tasks ==> Notify(b) in t.tasks)
  }

  lemma {:induction false} ConnectAllReports(s: State, again: seq<Configured>)
    ensures SameReport(s, ConnectAll(s, again))
    ensures ConnectAll(s, again).rounds == s.rounds && ConnectAll(s, again).listeners == s.listeners
    decreases |again|
  {
    if again == [] {
    } else {
      ConnectAllReports(Connect(s, again[0]), again[1..]); }
  }

  lemma CallbackReports(s: State, call: Option<nat>, error: Option<string>, again: seq<Configured>)
    ensures SameReport(s, RunCallback(s, call, error, again))
  {
    if call.Some? { ConnectAllReports(s.(answers := s.answers + [Answered(call.value, error)]), again); }
  }

  lemma ErrorReports(s: State, proxy: Option<Proxy>, again: seq<Configured>)
    ensures SameReport(s, ConnectToServiceError(s, proxy, again))
  {
    var error := if s.attempt.calledConnect then s.attempt.error else OUT_OF_RANGE;
    CallbackReports(Cleanup(s), s.attempt.callback, Some(if error == "" then INTERNAL_ERROR else error), again);
    hide RunCallback;
  }

  lemma PropertyReports(s: State, path: string, property: Property, again: seq<Configured>)
    ensures property.StateProperty? && property.state != "" ==>
              SameReport(SelectedStateChanged(s, path, property.state), ServicePropertyChanged(s, path, property, again))
    ensures !property.StateProperty? || property.state == "" ==>
              SameReport(s, ServicePropertyChanged(s, path, property, again))
  {
    if property.StateProperty? {
      var s1 := SelectedStateChanged(s, path, property.state);
      CallbackReports(Cleanup(s1), s1.attempt.callback, None, again);
      ErrorReports(s1, s1.attempt.connecting, again);
      hide SelectedStateChanged, RunCallback, ConnectToServiceError;
    }
  }

  // A registration reply that leads to a state being read.
  predicate ReadsState(s: State, path: string, success: bool, properties: Option<Properties>) {
    && success && (IsConnecting(s, path) || AnySelects(s.devices, path))
    && properties.Some? && properties.value.state.Some? && properties.value.state.value != ""
  }

  lemma InitialReports(s: State, path: string, ps: Properties, again: seq<Configured>)
    ensures var t := InitialProperties(s, path, ps, again);
            if ps.state.Some? && ps.state.value != ""
            then SameReport(SelectedStateChanged(s, path, ps.state.value), t) else SameReport(s, t)
  {
    hide ServicePropertyChanged, SelectedStateChanged;
    var s1 := if ps.state.None? then s else ServicePropertyChanged(s, path, StateProperty(ps.state.value), again);
    if ps.state.Some? { PropertyReports(s, path, StateProperty(ps.state.value), again); }
    var s2 := if ps.strength.None? then s1
              else ServicePropertyChanged(s1, path, Strength(ps.strength.value), []);
    if ps.strength.Some? { PropertyReports(s1, path, Strength(ps.strength.value), []); }
    if ps.error.Some? { PropertyReports(s2, path, ErrorProperty(ps.error.value), []); }
  }

  // It has the effect of that one state signal on what is reported, and otherwise none.
  lemma RegisteredReports(s: State, path: string, success: bool, properties: Option<Properties>, again: seq<Configured>)
    ensures var t := ServiceRegistered(s, path, success, properties, again);
            if ReadsState(s, path, success, properties)
            then SameReport(SelectedStateChanged(s, path, properties.value.state.value), t) else SameReport(s, t)
  {
    if properties.Some? { InitialReports(s, path, properties.value, again); }
    hide InitialProperties, SelectedStateChanged, AnySelects, IsConnecting;
  }

  lemma SameReportKeeps(s: State, t: State)
    requires ReportInv(s) && SameReport(s, t)
    ensures ReportInv(t)
  {
  }

  lemma StateChangeKeeps(s: State, path: string, state: string)
    requires ReportInv(s)
    ensures ReportInv(SelectedStateChanged(s, path, state))
  {
  }

  // A device that had no service selects one without the state being read: it was and stays offline.
  lemma FreshSelectionIsIdle(devices: Devices, device: string, d: DeviceState)
    requires device in devices && devices[device].selected.None? && IdleIsOffline(devices) && d.state == Offline
    ensures Aggregate(devices[device := d]) == Aggregate(devices)
  {
    assert SameBusy(devices, devices[device := d]);
    SameAggregate(devices, devices[device := d]);
  }

  // A selection changes one device; connectivity is refreshed unless the device was idle and stays so.
  lemma SelectionShape(s: State, device: string, path: string, read: Option<string>)
    ensures var t := DeviceSelected(s, device, path, read);
            || t == s
            || (device in s.devices && device in t.devices && t.devices == s.devices[device := t.devices[device]] &&
                (t.devices[device].selected.None? ==>
                   t.devices[device].state == Offline || t.devices[device] == s.devices[device]) &&
                if t.tasks == s.tasks then
                  && s.devices[device].selected.None? && t.devices[device].state == s.devices[device].state
                  && t.connectivity == s.connectivity && t.notifiedAt == s.notifiedAt
                else
                  && t.connectivity == Aggregate(t.devices)
                  && (Notify(true) in t.tasks || Notify(false) in t.tasks))
  {
    hide Aggregate, MapState, IsValidPath;
  }

  lemma {:induction false} SelectionKeeps(s: State, device: string, path: string, read: Option<string>)
    requires ReportInv(s)
    ensures ReportInv(DeviceSelected(s, device, path, read))
  {
    SelectionShape(s, device, path, read);
    hide DeviceSelected;
    var t := DeviceSelected(s, device, path, read);
    if t != s && t.tasks == s.tasks {
      FreshSelectionIsIdle(s.devices, device, t.devices[device]);
    }
    hide Aggregate;
  }

  lemma AddingKeepsBusy(devices: Devices, whitelist: set<string>, list: seq<Listed>)
    ensures SameBusy(devices, WithNewDevices(devices, whitelist, list))
    ensures IdleIsOffline(devices) ==> IdleIsOffline(WithNewDevices(devices, whitelist, list))
  {
  }

  lemma ListKeeps(s: State, whitelist: set<string>, list: seq<Listed>)
    requires ReportInv(s)
    ensures ReportInv(DeviceListChanged(s, whitelist, list))
  {
    var n := ValidPrefix(list);
    var added := WithNewDevices(s.devices, whitelist, list[..n]);
    AddingKeepsBusy(s.devices, whitelist, list[..n]);
    SameAggregate(s.devices, added);
    hide WithNewDevices, Aggregate;
    var kept := OnlyListed(added, list);
    if n == |list| && kept.Keys == s.devices.Keys {
      ListUnchanged(s.devices, whitelist, list);
    }
  }

  lemma ListUnchanged(devices: Devices, whitelist: set<string>, list: seq<Listed>)
    requires OnlyListed(WithNewDevices(devices, whitelist, list[..|list|]), list).Keys == devices.Keys
    ensures OnlyListed(WithNewDevices(devices, whitelist, list[..|list|]), list) == devices
  {
    assert list[..|list|] == list;
    var kept := OnlyListed(WithNewDevices(devices, whitelist, list), list);
    forall d | d in kept ensures kept[d] == devices[d] {
      assert d in devices;
    }
  }

  lemma ForgetKeeps(s: State)
    ensures ReportInv(Forget(s))
  {
  }

  lemma TaskKeeps(s: State, whitelist: set<string>, e: Event)
    requires ReportInv(s) && Enabled(s, e) && (e.TimerFires? || e.AnswerRuns? || e.ListenersRun?)
    ensures ReportInv(Step(s, whitelist, e))
  {
    hide ReportInv, SameReport, ConnectToServiceError, ConnectAll;
    match e
    case TimerFires(proxy, again) =>
      var t := s.(tasks := s.tasks - multiset{Timeout(proxy)});
      TakeTask(s, Timeout(proxy));
      ErrorReports(t, Some(proxy), again);
      SameReportKeeps(t, ConnectToServiceError(t, Some(proxy), again));
    case AnswerRuns(call, error, again) =>
      var t := s.(tasks := s.tasks - multiset{Answer(call, error)});
      TakeTask(s, Answer(call, error));
      ConnectAllReports(t, again);
      SameReportKeeps(t, ConnectAll(t, again));
    case ListenersRun(online, again) =>
      var t := NotifyListeners(s.(tasks := s.tasks - multiset{Notify(online)}));
      RoundKeeps(s, online);
      ConnectAllReports(t, again);
      SameReportKeeps(t, ConnectAll(t, again));
  }

  lemma StepKeeps(s: State, whitelist: set<string>, e: Event)
    requires ReportInv(s)
    ensures ReportInv(Step(s, whitelist, e))
  {
    hide ReportInv, ServicePropertyChanged, ServiceRegistered, DeviceSelected, DeviceListChanged, Forget, Connect;
    if Enabled(s, e) {
      match e
      case ConnectCalled(configured) => ConnectOnly(s, configured);
      case TimerFires(_, _) => TaskKeeps(s, whitelist, e);
      case AnswerRuns(_, _, _) => TaskKeeps(s, whitelist, e);
      case ListenersRun(_, _) => TaskKeeps(s, whitelist, e);
      case ListenerAdded(listener) => ListenerOnly(s, listener);
      case OwnerLost => ForgetKeeps(s);
      case OwnerChanged(reply) =>
        ForgetKeeps(s);
        if reply.Some? { ListKeeps(Forget(s), whitelist, reply.value); }
      case DevicesListed(list) => ListKeeps(s, whitelist, list);
      case ServiceSelected(device, path, read) => SelectionKeeps(s, device, path, read);
      case ServiceSignal(path, property, again) => SignalKeeps(s, path, property, again);
      case ServiceWatched(path, success, properties, again) => WatchedKeeps(s, path, success, properties, again);
    }
  }

  lemma ConnectOnly(s: State, configured: Configured)
    requires ReportInv(s)
    ensures ReportInv(Connect(s, configured))
  {
  }

  lemma ListenerOnly(s: State, listener: nat)
    requires ReportInv(s)
    ensures ReportInv(s.(listeners := s.listeners + [listener]))
  {
  }

  lemma TakeTask(s: State, task: Task)
    requires ReportInv(s) && !task.Notify?
    ensures ReportInv(s.(tasks := s.tasks - multiset{task}))
  {
  }

  lemma RoundKeeps(s: State, online: bool)
    requires ReportInv(s)
    ensures ReportInv(NotifyListeners(s.(tasks := s.tasks - multiset{Notify(online)})))
  {
  }

  lemma SignalKeeps(s: State, path: string, property: Property, again: seq<Configured>)
    requires ReportInv(s)
    ensures ReportInv(ServicePropertyChanged(s, path, property, again))
  {
    PropertyReports(s, path, property, again);
    hide ReportInv, SameReport, ServicePropertyChanged, SelectedStateChanged;
    var t := ServicePropertyChanged(s, path, property, again);
    if property.StateProperty? && property.state != "" {
      StateChangeKeeps(s, path, property.state);
      SameReportKeeps(SelectedStateChanged(s, path, property.state), t);
    } else {
      SameReportKeeps(s, t);
    }
  }

  lemma WatchedKeeps(s: State, path: string, success: bool, properties: Option<Properties>, again: seq<Configured>)
    requires ReportInv(s)
    ensures ReportInv(ServiceRegistered(s, path, success, properties, again))
  {
    RegisteredReports(s, path, success, properties, again);
    hide ReportInv, SameReport, ServiceRegistered, SelectedStateChanged;
    var t := ServiceRegistered(s, path, success, properties, again);
    if !ReadsState(s, path, success, properties) {
      SameReportKeeps(s, t);
    } else {
      StateChangeKeeps(s, path, properties.value.state.value);
      SameReportKeeps(SelectedStateChanged(s, path, properties.value.state.value), t);
    }
  }

  lemma {:induction false} RunKeeps(whitelist: set<string>, events: seq<Event>)
    ensures ReportInv(Run(whitelist, events))
  {
    if events == [] {
    } else {
      RunKeeps(whitelist, events[..|events| - 1]);
      StepKeeps(Run(whitelist, events[..|events| - 1]), whitelist, events[|events| - 1]);
    }
  }

  /** After every handler the connectivity state is the maximum over the devices, Offline when there is none. */
  lemma ConnectivityIsMaximum(whitelist: set<string>, events: seq<Event>)
    ensures IsMaximum(Run(whitelist, events).devices, Run(whitelist, events).connectivity)
  {
    RunKeeps(whitelist, events);
    AggregateIsMaximum(Run(whitelist, events).devices, Offline);
  }

  /**
   No change goes unannounced: the connectivity state is what it was at the last listener round (Offline since
   the last shill reset), or a round is queued.
   */
  lemma {:induction false} NoMissedConnectivityChange(whitelist: set<string>, events: seq<Event>)
    ensures var s := Run(whitelist, events);
            s.connectivity == s.notifiedAt || Notify(true) in s.tasks || Notify(false) in s.tasks
  {
    RunKeeps(whitelist, events);
  }

  /** A queued round runs every listener registered by then, once and in order, and is consumed. */
  lemma RoundRunsEveryListener(s: State, whitelist: set<string>, online: bool, again: seq<Configured>)
    requires Notify(online) in s.tasks
    ensures var t := Step(s, whitelist, ListenersRun(online, again));
            t.rounds == s.rounds + [s.listeners] && t.notifiedAt == s.connectivity == t.connectivity
  {
    ConnectAllReports(NotifyListeners(s.(tasks := s.tasks - multiset{Notify(online)})), again);
 
    }
}
