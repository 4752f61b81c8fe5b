/**
 The ShillClient object. Each handler is tied to the corresponding function of
 Shill; replies of D-Bus calls are parameters, and so are the Connect calls
 that a connection callback makes when it is run.
 */
module ShillClientObject {
  import opened Base
  import opened Shill
  import opened ShillAnswers
  import C = ShillConnectivity

  lemma PathsOneMore(list: seq<Listed>, i: nat)
    requires i < |list|
    ensures Paths(list[..i + 1]) == Paths(list[..i]) + {list[i].path}
  {
    var more, fewer := list[..i + 1], list[..i];
    assert more == fewer + [list[i]];
    forall p ensures p in Paths(more) <==> p in Paths(fewer) + {list[i].path} {
      if p in Paths(fewer) {
        var k :| 0 <= k < |fewer| && fewer[k].path == p;
        assert more[k].path == p;
      }
      if p == list[i].path { assert more[i].path == p; }
    }
  }

  lemma MonitoredOneMore(whitelist: set<string>, list: seq<Listed>, i: nat, p: string)
    requires i < |list|
    ensures ListsMonitored(whitelist, list[..i + 1], p) <==>
            ListsMonitored(whitelist, list[..i], p) || (list[i].path == p && Monitored(whitelist, list[i]))
  {
    var more, fewer := list[..i + 1], list[..i];
    if ListsMonitored(whitelist, fewer, p) {
      var k :| 0 <= k < |fewer| && fewer[k].path == p && Monitored(whitelist, fewer[k]);
      assert more[k] == fewer[k];
    }
    if ListsMonitored(whitelist, more, p) {
      var k :| 0 <= k < |more| && more[k].path == p && Monitored(whitelist, more[k]);
      if k < i { assert fewer[k] == more[k]; }
    }
    if list[i].path == p && Monitored(whitelist, list[i]) { assert more[i] == list[i]; }
  }

  // One more entry of the list: added if unknown so far and monitored.
  lemma NewDevicesOneMore(devices: Devices, whitelist: set<string>, list: seq<Listed>, i: nat)
    requires i < |list|
    ensures var before := WithNewDevices(devices, whitelist, list[..i]);
            WithNewDevices(devices, whitelist, list[..i + 1]) ==
            if list[i].path !in before && Monitored(whitelist, list[i])
            then before[list[i].path := NEW_DEVICE] else before
  {
    PathsOneMore(list, i);
    forall p
      ensures ListsMonitored(whitelist, list[..i + 1], p) <==>
              ListsMonitored(whitelist, list[..i], p) || (list[i].path == p && Monitored(whitelist, list[i]))
    {
      MonitoredOneMore(whitelist, list, i, p);
    }
    MonitoredIsListed(whitelist, list[..i], list[i].path);
    hide Monitored, ListsMonitored, Paths;
  }

  lemma MonitoredIsListed(whitelist: set<string>, list: seq<Listed>, p: string)
    ensures ListsMonitored(whitelist, list, p) ==> p in Paths(list)
  {
  }

  lemma NoNewDevices(devices: Devices, whitelist: set<string>)
    ensures WithNewDevices(devices, whitelist, []) == devices && Paths([]) == {}
  {
  }

  lemma ValidPrefixIs(list: seq<Listed>, n: nat)
    requires n <= |list| && (forall k :: 0 <= k < n ==> IsValidPath(list[k].path))
    requires n < |list| ==> !IsValidPath(list[n].path)
    ensures ValidPrefix(list) == n
  {
    hide IsValidPath;
  }

  // The Connect calls made by several listeners, one listener after the other.
  function Flat(again: seq<seq<Configured>>): seq<Configured> {
    if again == [] then [] else Flat(again[..|again| - 1]) + again[|again| - 1]
  }

  lemma {:induction false} ConnectAllTwice(s: State, first: seq<Configured>, second: seq<Configured>)
    ensures ConnectAll(s, first + second) == ConnectAll(ConnectAll(s, first), second)
    decreases |first|
  {
    if first == [] {
      assert first + second == second;
    } else {
      assert (first + second)[0] == first[0] && (first + second)[1..] == first[1..] + second;
      ConnectAllTwice(Connect(s, first[0]), first[1..], second);
    }
  }

  lemma NobodyConnects(s: State, again: seq<seq<Configured>>)
    ensures ConnectAll(s, Flat(again[..0])) == s
  {
  }

  lemma FlatOneMore(s: State, again: seq<seq<Configured>>, i: nat)
    requires i < |again|
    ensures ConnectAll(s, Flat(again[..i + 1])) == ConnectAll(ConnectAll(s, Flat(again[..i])), again[i])
  {
    assert again[..i + 1][..i] == again[..i];
    ConnectAllTwice(s, Flat(again[..i]), again[i]);
    hide ConnectAll;
  }

  class ShillClient {
    const whitelist: set<string>
    var devices: Devices
    var connectivityState: NetState
    var connectingService: Option<Proxy>
    var connectingServiceError: string
    var connectDoneCallback: Option<nat>
    var haveCalledConnect: bool
    var connectivityListeners: seq<nat>

    var tasks: multiset<Task>  // posted to the message loop
    var proxies: nat           // numbers the proxy objects created
    var calls: nat             // names the callbacks passed to Connect
    var listenersRun: seq<nat>  // connectivity listeners run
    ghost var answers: seq<Answered>
    ghost var dropped: map<nat, Teardown>
    ghost var notifiedAt: NetState
    ghost var rounds: seq<seq<nat>>
    ghost var log: seq<Observation>
    ghost var errors: seq<ErrorSignal>

    ghost function View(): State
      reads this
    {
      State(devices, connectivityState,
            Attempt(connectingService, connectDoneCallback, haveCalledConnect, connectingServiceError),
            connectivityListeners, tasks, proxies, calls, answers, dropped, notifiedAt, rounds, log, errors)
    }

    constructor (whitelist: set<string>, reply: Option<seq<Listed>>)
      ensures this.whitelist == whitelist
      ensures View() == Init(INITIAL, whitelist, reply)
    {
      this.whitelist := whitelist;
      devices, connectivityState := map[], Offline;
      connectingService, connectingServiceError, connectDoneCallback, haveCalledConnect := None, "", None, false;
      connectivityListeners, listenersRun, tasks, proxies, calls := [], [], multiset{}, 0, 0;
      answers, dropped, notifiedAt, rounds, log, errors := [], map[], Offline, [], [], [];
      new;
      DoInit(reply);
    }

    method CleanupConnectingService()
      modifies this`connectingService, this`connectDoneCallback, this`haveCalledConnect
      ensures View() == Cleanup(old(View()))
    {
      connectingService := None;
      connectDoneCallback := None;
      haveCalledConnect := false;
    }

    // Cleaning up while a call is waiting for its answer loses that call; the reason goes on record.
    method DropAttempt(ghost why: Teardown)
      modifies this`connectingService, this`connectDoneCallback, this`haveCalledConnect, this`dropped
      ensures View() == TearDown(old(View()), why)
    {
      if connectDoneCallback.Some? { dropped := dropped[connectDoneCallback.value := why]; }
      CleanupConnectingService();
    }

    method ForgetAll()
      modifies this`connectingService, this`connectDoneCallback, this`haveCalledConnect, this`dropped,
               this`devices, this`connectivityState, this`notifiedAt, this`log
      ensures View() == Forget(old(View()))
    {
      hide TearDown;
      DropAttempt(ShillReset);
      ghost var torn := View();
      devices := map[];
      connectivityState := Offline;
      notifiedAt, log := Offline, log + [Kept({})];
      assert View() == torn.(devices := map[], connectivity := Offline, notifiedAt := Offline, log := torn.log + [Kept({})]);
    }

    // Init: reply is the device list read from the shill manager, None when the read failed.
    method DoInit(reply: Option<seq<Listed>>)
      modifies this
      ensures View() == Init(old(View()), whitelist, reply)
    {
      ForgetAll();
      hide Forget, DeviceListChanged;
      if reply.Some? {
        OnManagerPropertyChange(reply.value);
      }
    }

    method OnShillServiceOwnerChange(newOwner: string, reply: Option<seq<Listed>>)
      modifies this
      ensures View() == if newOwner == "" then Forget(old(View())) else Init(old(View()), whitelist, reply)
    {
      if newOwner == "" {
        ForgetAll();
      } else {
        DoInit(reply);
      }
    }

    method PostError(call: nat, error: string)
      modifies this`tasks, this`answers
      ensures View() == PostAnswer(old(View()), call, error) && tasks == old(tasks) + multiset{Answer(call, error)}
    {
      tasks := tasks + multiset{Answer(call, error)};
      answers := answers + [Answered(call, Some(error))];
    }

    method BeginAttempt(call: nat, path: string)
      modifies this`proxies, this`connectingService, this`connectDoneCallback, this`tasks
      ensures View() == StartAttempt(old(View()), call, path)
    {
      connectingService := Some(Proxy(proxies, path));
      proxies := proxies + 1;
      connectDoneCallback := Some(call);
      tasks := tasks + multiset{Timeout(connectingService.value)};
    }

    method Connect(configured: Configured) returns (call: nat)
      modifies this`calls, this`proxies, this`connectingService, this`connectDoneCallback, this`haveCalledConnect,
               this`tasks, this`answers
      ensures call == old(calls) && View() == Shill.Connect(old(View()), configured)
      ensures old(connectingService).Some? ==> Answer(call, "busy") in tasks
      ensures old(connectingService).None? && configured.Failed? ==> Answer(call, configured.error) in tasks
    {
      hide PostAnswer, Cleanup, StartAttempt;
      call := calls;
      calls := calls + 1;
      if connectingService.Some? {
        PostError(call, BUSY);
      } else {
        CleanupConnectingService();
        match configured {
          case Failed(error) => PostError(call, error);
          case Path(path) => BeginAttempt(call, path);
        }
      }
    }

    // The Connect calls that a callback makes while it runs.
    method ConnectEach(again: seq<Configured>)
      modifies this`calls, this`proxies, this`connectingService, this`connectDoneCallback, this`haveCalledConnect,
               this`tasks, this`answers
      ensures View() == ConnectAll(old(View()), again)
    {
      ghost var start := View();
      assert again[0..] == again;
      for i := 0 to |again|
        invariant ConnectAll(View(), again[i..]) == ConnectAll(start, again)
        invariant unchanged(this`devices) && unchanged(this`connectivityState) && unchanged(this`connectingServiceError)
        invariant unchanged(this`connectivityListeners) && unchanged(this`dropped) && unchanged(this`notifiedAt)
        invariant unchanged(this`rounds) && unchanged(this`log) && unchanged(this`errors)
      {
        assert again[i..][1..] == again[i + 1..];
        var _ := Connect(again[i]);
      }
    }

    method RunCallback(call: Option<nat>, ghost error: Option<string>, again: seq<Configured>)
      modifies this`calls, this`proxies, this`connectingService, this`connectDoneCallback, this`haveCalledConnect,
               this`tasks, this`answers
      ensures View() == Shill.RunCallback(old(View()), call, error, again)
    {
      if call.None? { return; }
      answers := answers + [Answered(call.value, error)];
      ConnectEach(again);
    }

    method ConnectToServiceError(service: Option<Proxy>, again: seq<Configured>)
      modifies this`calls, this`proxies, this`connectingService, this`connectDoneCallback, this`haveCalledConnect,
               this`tasks, this`answers
      ensures View() == Shill.ConnectToServiceError(old(View()), service, again)
    {
      if service != connectingService || connectDoneCallback.None? { return; }
      var error := if haveCalledConnect then connectingServiceError else OUT_OF_RANGE;
      if error == "" { error := INTERNAL_ERROR; }
      OnErrorChangeForConnectingService(error, again);
    }

    method OnErrorChangeForConnectingService(error: string, again: seq<Configured>)
      modifies this`calls, this`proxies, this`connectingService, this`connectDoneCallback, this`haveCalledConnect,
               this`tasks, this`answers
      ensures View() == AttemptFailed(old(View()), error, again)
    {
      if error == "" { return; }
      var callback := connectDoneCallback;
      CleanupConnectingService();
      RunCallback(callback, Some(error), again);
    }

    method OnStateChangeForConnectingService(state: string, again: seq<Configured>)
      modifies this`calls, this`proxies, this`connectingService, this`connectDoneCallback, this`haveCalledConnect,
               this`tasks, this`answers
      ensures View() == ConnectingStateChanged(old(View()), state, again)
      ensures state in {"ready", "portal", "online"} && old(connectDoneCallback).Some? ==>
                old(answers) + [Answered(old(connectDoneCallback).value, None)] <= answers
    {
      StatesAsMapped(state);
      if connectDoneCallback.Some? { SuccessAnswers(View(), again); }
      match MapState(state) {
        case Online =>
          var callback := connectDoneCallback;
          connectDoneCallback := None;
          CleanupConnectingService();
          RunCallback(callback, None, again);
        case Error =>
          ConnectToServiceError(connectingService, again);
        case Offline =>
        case Connecting =>
      }
    }

    method OnStrengthChangeForConnectingService(strength: nat)
      modifies this`haveCalledConnect
      ensures View() == StrengthChanged(old(View()), strength)
      ensures haveCalledConnect <==> old(haveCalledConnect) || strength > 0
    {
      if strength == 0 || haveCalledConnect { return; }
      haveCalledConnect := true;
    }

    method UpdateConnectivityState()
      modifies this`connectivityState, this`tasks
      ensures View() == UpdateConnectivity(old(View()))
      ensures tasks == old(tasks) + multiset{Notify(connectivityState == Online)}
    {
      var newState, rest := Offline, devices.Keys;
      while rest != {}
        invariant rest <= devices.Keys
        invariant newState == Offline || exists d :: d in devices && devices[d].state == newState
        invariant forall d :: d in devices && d !in rest ==> Rank(devices[d].state) <= Rank(newState)
        decreases rest
      {
        var d :| d in rest;
        if Rank(devices[d].state) > Rank(newState) {
          newState := devices[d].state;
        }
        rest := rest - {d};
      }
      C.AggregateIsMaximum(devices, newState);
      connectivityState := newState;
      tasks := tasks + multiset{Notify(newState == Online)};
    }

    method RunListener(listener: nat, again: seq<Configured>)
      modifies this`listenersRun, this`calls, this`proxies, this`connectingService, this`connectDoneCallback,
               this`haveCalledConnect, this`tasks, this`answers
      ensures View() == ConnectAll(old(View()), again) && listenersRun == old(listenersRun) + [listener]
    {
      listenersRun := listenersRun + [listener];
      ConnectEach(again);
    }

    // again[k] are the Connect calls that the k-th listener makes while it runs.
    method RunListeners(again: seq<seq<Configured>>)
      requires |again| == |connectivityListeners|
      modifies this`listenersRun, this`calls, this`proxies, this`connectingService, this`connectDoneCallback,
               this`haveCalledConnect, this`tasks, this`answers
      ensures View() == ConnectAll(old(View()), Flat(again))
      ensures listenersRun == old(listenersRun) + connectivityListeners
    {
      ghost var start := View();
      NobodyConnects(start, again);
      hide ConnectAll, Flat;
      for i := 0 to |connectivityListeners|
        invariant listenersRun == old(listenersRun) + connectivityListeners[..i]
        invariant View() == ConnectAll(start, Flat(again[..i]))
      {
        FlatOneMore(start, again, i);
        RunListener(connectivityListeners[i], again[i]);
      }
      assert connectivityListeners[..|connectivityListeners|] == connectivityListeners && again[..|again|] == again;
    }

    method NotifyConnectivityListeners(again: seq<seq<Configured>>)
      requires |again| == |connectivityListeners|
      modifies this`notifiedAt, this`rounds, this`listenersRun, this`calls, this`proxies, this`connectingService,
               this`connectDoneCallback, this`haveCalledConnect, this`tasks, this`answers
      ensures View() == ConnectAll(NotifyListeners(old(View())), Flat(again))
      ensures listenersRun == old(listenersRun) + connectivityListeners
    {
      notifiedAt, rounds := connectivityState, rounds + [connectivityListeners];
      hide ConnectAll, Flat;
      RunListeners(again);
    }

    method AddConnectionChangedCallback(listener: nat)
      modifies this`connectivityListeners
      ensures View() == old(View()).(listeners := old(connectivityListeners) + [listener])
    {
      connectivityListeners := connectivityListeners + [listener];
    }

    method OnStateChangeForSelectedService(path: string, state: string)
      modifies this`devices, this`connectivityState, this`tasks, this`log
      ensures View() == SelectedStateChanged(old(View()), path, state)
    {
      log := log + [Seen(path, MapState(state))];
      var rest := devices.Keys;
      while rest != {}
        invariant unchanged(this`devices) && unchanged(this`connectivityState) && unchanged(this`tasks)
        invariant log == old(log) + [Seen(path, MapState(state))]
        invariant rest <= devices.Keys && forall d :: d in devices && d !in rest ==> !Selects(devices[d], path)
        decreases rest
      {
        LeastExists(rest);
        var d :| IsLeast(d, rest);
        if Selects(devices[d], path) {
          FirstSelectingIs(devices, path, d);
          devices := devices[d := devices[d].(state := MapState(state))];
          UpdateConnectivityState();
          return;
        }
        rest := rest - {d};
      }
    }

    method OnServicePropertyChange(path: string, property: Property, again: seq<Configured>)
      modifies this
      ensures View() == ServicePropertyChanged(old(View()), path, property, again)
    {
      var isConnecting := connectingService.Some? && connectingService.value.path == path;
      match property {
        case StateProperty(state) =>
          if state == "" { return; }
          OnStateChangeForSelectedService(path, state);
          if isConnecting { OnStateChangeForConnectingService(state, again); }
        case Strength(strength) =>
          if isConnecting { OnStrengthChangeForConnectingService(strength); }
        case ErrorProperty(error) =>
          if isConnecting {
            connectingServiceError := error;
            errors := errors + [ErrorSignal(connectingService.value, error)];
          }
        case OtherProperty =>
      }
    }

    method OnServicePropertyChangeRegistration(path: string, success: bool, properties: Option<Properties>,
                                               again: seq<Configured>)
      modifies this
      ensures View() == ServiceRegistered(old(View()), path, success, properties, again)
    {
      var found := false;
      if connectingService.Some? && connectingService.value.path == path {
        found := true;
        if !success { DropAttempt(RegistrationFailed); }
      } else {
        found := AnySelects(devices, path);
      }
      if !found || !success || properties.None? { return; }
      if properties.value.state.Some? {
        OnServicePropertyChange(path, StateProperty(properties.value.state.value), again);
      }
      if properties.value.strength.Some? {
        OnServicePropertyChange(path, Strength(properties.value.strength.value), []);
      }
      if properties.value.error.Some? {
        OnServicePropertyChange(path, ErrorProperty(properties.value.error.value), []);
      }
    }

    method OnDevicePropertyChange(device: string, path: string, read: Option<string>)
      modifies this
      ensures View() == DeviceSelected(old(View()), device, path, read)
    {
      hide UpdateConnectivity, MapState, IsValidPath;
      if device !in devices || !IsValidPath(path) { return; }
      var deviceState := devices[device];
      var removedOldService := false;
      if deviceState.selected.Some? {
        if deviceState.selected.value.path == path { return; }
        deviceState := DeviceState(None, Offline);
        removedOldService := true;
      }
      var reuse := path != "/" && connectingService.Some? && connectingService.value.path == path;
      log := log + [Selected(device, if path == "/" then None else Some(path))];
      if reuse {
        deviceState := deviceState.(selected := connectingService);
        if read.Some? && read.value != "" {
          deviceState := deviceState.(state := MapState(read.value));
          log := log + [Seen(path, MapState(read.value))];
        } else {
          assert log + [] == log;
        }
      } else if path != "/" {
        deviceState := deviceState.(selected := Some(Proxy(proxies, path)));
        proxies := proxies + 1;
      }
      devices := devices[device := deviceState];
      if reuse || removedOldService {
        UpdateConnectivityState();
      }
    }

    method OnManagerPropertyChange(list: seq<Listed>)
      modifies this`devices, this`connectivityState, this`tasks, this`log
      ensures View() == DeviceListChanged(old(View()), whitelist, list)
    {
      var update := false;
      var toRemove := devices.Keys;
      ghost var known := devices;
      NoNewDevices(known, whitelist);
      hide WithNewDevices, IsValidPath, Monitored, Paths;
      for i := 0 to |list|
        invariant unchanged(this`connectivityState) && unchanged(this`tasks) && unchanged(this`log)
        invariant devices == WithNewDevices(known, whitelist, list[..i]) && known.Keys <= devices.Keys
        invariant toRemove == known.Keys - Paths(list[..i])
        invariant update <==> devices.Keys != known.Keys
        invariant forall k :: 0 <= k < i ==> IsValidPath(list[k].path)
      {
        var path := list[i].path;
        if !IsValidPath(path) {
          ValidPrefixIs(list, i);
          return;
        }
        NewDevicesOneMore(known, whitelist, list, i);
        PathsOneMore(list, i);
        if path in devices {
          toRemove := toRemove - {path};
          continue;
        }
        if !Monitored(whitelist, list[i]) { continue; }
        devices := devices[path := NEW_DEVICE];
        update := true;
      }
      ValidPrefixIs(list, |list|);
      assert list[..|list|] == list;
      RemovalLeavesListed(known, whitelist, list, toRemove);
      log := log + [Kept(Paths(list))];
      if toRemove != {} {
        devices := devices - toRemove;
        update := true;
      }
      if update {
        UpdateConnectivityState();
      }
    }
  }

  lemma RemovalLeavesListed(known: Devices, whitelist: set<string>, list: seq<Listed>, toRemove: set<string>)
    requires toRemove == known.Keys - Paths(list)
    ensures var added := WithNewDevices(known, whitelist, list);
            && added - toRemove == OnlyListed(added, list)
            && (toRemove == {} ==> OnlyListed(added, list) == added)
            && (toRemove != {} || added.Keys != known.Keys <==> OnlyListed(added, list).Keys != known.Keys)
  {
    var added := WithNewDevices(known, whitelist, list);
    forall p | p in added && p !in known ensures p in Paths(list) {
      MonitoredIsListed(whitelist, list, p);
    }
    assert added - toRemove == OnlyListed(added, list);
    if toRemove != {} {
      var p :| p in toRemove;
      assert p in known && p !in OnlyListed(added, list);
    }
  }
}
