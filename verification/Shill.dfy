/**
 ShillClient as a state machine: the devices with the state of the service
 each has selected, the connectivity derived from them, the one connection
 attempt under way, and the tasks posted to the message loop. What D-Bus calls
 return is part of the event; a connection callback may call Connect again.
 */
module Shill {
  import opened Base

  datatype NetState = Offline | Error | Connecting | Online

  // weave::provider::Network::State is compared by its order.
  function Rank(s: NetState): nat {
    match s
    case Offline => 0
    case Error => 1
    case Connecting => 2
    case Online => 3
  }

  function MapState(state: string): NetState {
    if state == "ready" || state == "portal" || state == "online" then Online
    else if state == "association" || state == "configuration" then Connecting
    else if state == "failure" || state == "activation-failure" then Error
    else Offline
  }

  const OUT_OF_RANGE := "out-of-range"
  const INTERNAL_ERROR := "internal-error"
  const BUSY := "busy"

  // D-Bus object paths: elements of letters, digits and underscores, each led by a slash; or the root.
  predicate IsPathChar(c: char) {
    'A' <= c <= 'Z' || 'a' <= c <= 'z' || '0' <= c <= '9' || c == '_'
  }

  predicate IsValidPath(path: string) {
    && path != "" && path[0] == '/'
    && (forall i :: 0 <= i < |path| ==> IsPathChar(path[i]) || path[i] == '/')
    && (forall i, j :: 0 <= i && j == i + 1 < |path| ==> path[i] != '/' || path[j] != '/')
    && (|path| > 1 ==> path[|path| - 1] != '/')
  }

  // Order of the keys of a std::map.
  predicate Leq(a: string, b: string) {
    a == "" || (b != "" && (a[0] < b[0] || (a[0] == b[0] && Leq(a[1..], b[1..]))))
  }

  // A proxy object; the id tells apart proxies for the same service path.
  datatype Proxy = Proxy(id: nat, path: string)

  datatype DeviceState = DeviceState(selected: Option<Proxy>, state: NetState)

  const NEW_DEVICE := DeviceState(None, Offline)

  type Devices = map<string, DeviceState>

  datatype Attempt = Attempt(connecting: Option<Proxy>, callback: Option<nat>, calledConnect: bool, error: string)

  datatype Task = Answer(call: nat, error: string) | Timeout(proxy: Proxy) | Notify(online: bool)

  datatype Teardown = ShillReset | RegistrationFailed

  // A callback that was run or posted, with its error if any.
  datatype Answered = Answered(call: nat, error: Option<string>)

  // What is known about the services that devices have selected (history).
  datatype Observation =
    | Selected(device: string, choice: Option<string>)
    | Seen(service: string, state: NetState)
    | Kept(devices: set<string>)

  // An error reported for the connecting service, and the attempt it belongs to (history).
  datatype ErrorSignal = ErrorSignal(during: Proxy, text: string)

  datatype State = State(
    devices: Devices,
    connectivity: NetState,
    attempt: Attempt,
    listeners: seq<nat>,
    tasks: multiset<Task>,
    // history
    proxies: nat,                   // proxies created
    calls: nat,                     // Connect calls made
    answers: seq<Answered>,
    dropped: map<nat, Teardown>,    // calls whose callback was discarded
    notifiedAt: NetState,           // connectivity at the last listener round, Offline after a reset
    rounds: seq<seq<nat>>,          // listeners run in each round
    log: seq<Observation>,
    errors: seq<ErrorSignal>
  )

  const INITIAL :=
    State(map[], Offline, Attempt(None, None, false, ""), [], multiset{}, 0, 0, [], map[], Offline, [], [], [])

  // ---- connectivity ----

  predicate HasState(devices: Devices, state: NetState) {
    exists d :: d in devices && devices[d].state == state
  }

  // The state of the most connected selected service.
  function Aggregate(devices: Devices): NetState {
    if HasState(devices, Online) then Online
    else if HasState(devices, Connecting) then Connecting
    else if HasState(devices, Error) then Error
    else Offline
  }

  function UpdateConnectivity(s: State): State {
    var c := Aggregate(s.devices);
    s.(connectivity := c, tasks := s.tasks + multiset{Notify(c == Online)})
  }

  function NotifyListeners(s: State): State {
    s.(notifiedAt := s.connectivity, rounds := s.rounds + [s.listeners])
  }

  // ---- the connection attempt ----

  function Cleanup(s: State): State {
    s.(attempt := s.attempt.(connecting := None, callback := None, calledConnect := false))
  }

  // Clean up without an answer to the call that is waiting for one.
  function TearDown(s: State, why: Teardown): State {
    var s' := Cleanup(s);
    if s.attempt.callback.None? then s' else s'.(dropped := s.dropped[s.attempt.callback.value := why])
  }

  // What configuring the service and starting a scan came to: a service path, or an error.
  datatype Configured = Path(path: string) | Failed(error: string)

  function PostAnswer(s: State, call: nat, error: string): State {
    s.(tasks := s.tasks + multiset{Answer(call, error)}, answers := s.answers + [Answered(call, Some(error))])
  }

  // A new proxy, the callback held for it, and a timer that holds the proxy.
  function StartAttempt(s: State, call: nat, path: string): State {
    var proxy := Proxy(s.proxies, path);
    s.(proxies := s.proxies + 1,
       attempt := s.attempt.(connecting := Some(proxy), callback := Some(call)),
       tasks := s.tasks + multiset{Timeout(proxy)})
  }

  function Connect(s: State, configured: Configured): State {
    var call, s1 := s.calls, s.(calls := s.calls + 1);
    if s.attempt.connecting.Some? then PostAnswer(s1, call, BUSY)
    else match configured
      case Failed(error) => PostAnswer(Cleanup(s1), call, error)
      case Path(path) => StartAttempt(Cleanup(s1), call, path)
  }

  function ConnectAll(s: State, again: seq<Configured>): State
    decreases |again|
  {
    if again == [] then s else ConnectAll(Connect(s, again[0]), again[1..])
  }

  // Runs a connection callback, which may itself call Connect any number of times.
  function RunCallback(s: State, call: Option<nat>, error: Option<string>, again: seq<Configured>): State {
    if call.None? then s else ConnectAll(s.(answers := s.answers + [Answered(call.value, error)]), again)
  }

  function AttemptFailed(s: State, error: string, again: seq<Configured>): State {
    if error == "" then s else RunCallback(Cleanup(s), s.attempt.callback, Some(error), again)
  }

  function ConnectToServiceError(s: State, proxy: Option<Proxy>, again: seq<Configured>): State {
    if proxy != s.attempt.connecting || s.attempt.callback.None? then s
    else
      var error := if s.attempt.calledConnect then s.attempt.error else OUT_OF_RANGE;
      AttemptFailed(s, if error == "" then INTERNAL_ERROR else error, again)
  }

  function ConnectingStateChanged(s: State, state: string, again: seq<Configured>): State {
    match MapState(state)
    case Online => RunCallback(Cleanup(s), s.attempt.callback, None, again)
    case Error => ConnectToServiceError(s, s.attempt.connecting, again)
    case _ => s
  }

  function StrengthChanged(s: State, strength: nat): State {
    if strength == 0 || s.attempt.calledConnect then s else s.(attempt := s.attempt.(calledConnect := true))
  }

  function ErrorChanged(s: State, error: string): State
    requires s.attempt.connecting.Some?
  {
    s.(attempt := s.attempt.(error := error), errors := s.errors + [ErrorSignal(s.attempt.connecting.value, error)])
  }

  // ---- services ----

  predicate Selects(device: DeviceState, path: string) {
    device.selected.Some? && device.selected.value.path == path
  }

  // The device that a search through devices_ in key order finds first.
  predicate IsFirstSelecting(devices: Devices, path: string, d: string) {
    && d in devices && Selects(devices[d], path)
    && forall e :: e in devices && Selects(devices[e], path) ==> Leq(d, e)
  }

  predicate AnySelects(devices: Devices, path: string) {
    exists d :: d in devices && Selects(devices[d], path)
  }

  ghost function FirstSelecting(devices: Devices, path: string): (d: string)
    requires AnySelects(devices, path)
    ensures IsFirstSelecting(devices, path, d)
  {
    var candidates := set d | d in devices && Selects(devices[d], path);
    assert candidates != {} by {
      var d :| d in devices && Selects(devices[d], path);
      assert d in candidates;
    }
    LeastExists(candidates);
    var d :| IsLeast(d, candidates);
    d
  }

  predicate IsLeast(d: string, s: set<string>) {
    d in s && forall e :: e in s ==> Leq(d, e)
  }

  lemma {:induction false} LeqTransitive(a: string, b: string, c: string)
    requires Leq(a, b) && Leq(b, c)
    ensures Leq(a, c)
    decreases |a|
  {
    if a != "" && a[0] == b[0] && b[0] == c[0] { LeqTransitive(a[1..], b[1..], c[1..]); }
  }

  lemma {:induction false} LeqTotal(a: string, b: string)
    ensures Leq(a, b) || Leq(b, a)
    ensures Leq(a, b) && Leq(b, a) ==> a == b
    decreases |a|
  {
    if a != "" && b != "" && a[0] == b[0] {
      LeqTotal(a[1..], b[1..]);
      assert a == [a[0]] + a[1..] && b == [b[0]] + b[1..];
    }
  }

  lemma {:induction false} LeastExists(s: set<string>)
    requires s != {}
    ensures exists d :: IsLeast(d, s)
    decreases |s|
  {
    var x :| x in s;
    var rest := s - {x};
    LeqTotal(x, x);
    if rest == {} {
      assert s == {x} && IsLeast(x, s);
    } else {
      LeastExists(rest);
      var d :| IsLeast(d, rest);
      LeastOfTwo(x, d, rest);
      assert s == rest + {x};
    }
  }

  lemma LeastOfTwo(x: string, d: string, rest: set<string>)
    requires IsLeast(d, rest)
    ensures exists least :: IsLeast(least, rest + {x})
  {
    LeqTotal(x, d);
    LeqTotal(x, x);
    if Leq(x, d) {
      forall e | e in rest ensures Leq(x, e) { LeqTransitive(x, d, e); }
      hide Leq;
      assert IsLeast(x, rest + {x});
    } else {
      hide Leq;
      assert IsLeast(d, rest + {x});
    }
  }

  lemma FirstSelectingIs(devices: Devices, path: string, d: string)
    requires IsFirstSelecting(devices, path, d)
    ensures AnySelects(devices, path) && FirstSelecting(devices, path) == d
  {
    assert AnySelects(devices, path);
    LeqTotal(d, FirstSelecting(devices, path));
  }

  ghost function SelectedStateChanged(s: State, path: string, state: string): State {
    var s1 := s.(log := s.log + [Seen(path, MapState(state))]);
    if !AnySelects(s.devices, path) then s1
    else
      var d := FirstSelecting(s.devices, path);
      UpdateConnectivity(s1.(devices := s.devices[d := s.devices[d].(state := MapState(state))]))
  }

  datatype Property = StateProperty(state: string) | Strength(strength: nat) | ErrorProperty(error: string) | OtherProperty

  predicate IsConnecting(s: State, path: string) {
    s.attempt.connecting.Some? && s.attempt.connecting.value.path == path
  }

  ghost function ServicePropertyChanged(s: State, path: string, property: Property, again: seq<Configured>): State {
    match property
    case StateProperty(state) =>
      if state == "" then s
      else
        var s1 := SelectedStateChanged(s, path, state);
        if IsConnecting(s, path) then ConnectingStateChanged(s1, state, again) else s1
    case Strength(strength) => if IsConnecting(s, path) then StrengthChanged(s, strength) else s
    case ErrorProperty(error) =>
      if IsConnecting(s, path) then ErrorChanged(s, error) else s
    case OtherProperty => s
  }

  // Properties read once the signal handler is registered; each may be missing.
  datatype Properties = Properties(state: Option<string>, strength: Option<nat>, error: Option<string>)

  ghost function InitialProperties(s: State, path: string, properties: Properties, again: seq<Configured>): State {
    var s1 := if properties.state.None? then s
              else ServicePropertyChanged(s, path, StateProperty(properties.state.value), again);
    var s2 := if properties.strength.None? then s1
              else ServicePropertyChanged(s1, path, Strength(properties.strength.value), []);
    if properties.error.None? then s2 else ServicePropertyChanged(s2, path, ErrorProperty(properties.error.value), [])
  }

  ghost function ServiceRegistered(s: State, path: string, success: bool, properties: Option<Properties>,
                                   again: seq<Configured>): State {
    if IsConnecting(s, path) && !success then TearDown(s, RegistrationFailed)
    else if (!IsConnecting(s, path) && !AnySelects(s.devices, path)) || !success || properties.None? then s
    else InitialProperties(s, path, properties.value, again)
  }

  // ---- devices ----

  // A device selected a service; read is the state fetched if the connecting proxy is taken over.
  function DeviceSelected(s: State, device: string, path: string, read: Option<string>): State {
    if device !in s.devices || !IsValidPath(path) || Selects(s.devices[device], path) then s
    else
      var removed := s.devices[device].selected.Some?;
      var d0 := if removed then NEW_DEVICE else s.devices[device];
      if path != "/" && IsConnecting(s, path) then
        var valid := read.Some? && read.value != "";
        var d := DeviceState(s.attempt.connecting, if valid then MapState(read.value) else d0.state);
        UpdateConnectivity(s.(devices := s.devices[device := d],
                              log := s.log + [Selected(device, Some(path))] +
                                     (if valid then [Seen(path, MapState(read.value))] else [])))
      else if path != "/" then
        var s1 := s.(devices := s.devices[device := d0.(selected := Some(Proxy(s.proxies, path)))],
                     proxies := s.proxies + 1, log := s.log + [Selected(device, Some(path))]);
        if removed then UpdateConnectivity(s1) else s1
      else
        var s1 := s.(devices := s.devices[device := d0], log := s.log + [Selected(device, None)]);
        if removed then UpdateConnectivity(s1) else s1
  }

  // One entry of the device list: its path, and the interface name read if the whitelist needs it.
  datatype Listed = Listed(path: string, interface: Option<string>)

  predicate Monitored(whitelist: set<string>, entry: Listed) {
    whitelist == {} || (entry.interface.Some? && entry.interface.value in whitelist)
  }

  // The number of entries before the first invalid path.
  function ValidPrefix(list: seq<Listed>): (n: nat)
    ensures n <= |list|
    ensures forall k :: 0 <= k < n ==> IsValidPath(list[k].path)
    ensures n < |list| ==> !IsValidPath(list[n].path)
  {
    if list == [] || !IsValidPath(list[0].path) then 0
    else
      var n := ValidPrefix(list[1..]);
      assert forall k :: 0 < k < n + 1 ==> list[k] == list[1..][k - 1];
      n + 1
  }

  predicate Lists(list: seq<Listed>, path: string) {
    exists k :: 0 <= k < |list| && list[k].path == path
  }

  predicate ListsMonitored(whitelist: set<string>, list: seq<Listed>, path: string) {
    exists k :: 0 <= k < |list| && list[k].path == path && Monitored(whitelist, list[k])
  }

  function Paths(list: seq<Listed>): set<string> {
    set k | 0 <= k < |list| :: list[k].path
  }

  function WithNewDevices(devices: Devices, whitelist: set<string>, list: seq<Listed>): Devices {
    map p | p in devices.Keys + Paths(list) && (p in devices || ListsMonitored(whitelist, list, p)) ::
      if p in devices then devices[p] else NEW_DEVICE
  }

  function OnlyListed(devices: Devices, list: seq<Listed>): Devices {
    map p | p in devices && p in Paths(list) :: devices[p]
  }

  function DeviceListChanged(s: State, whitelist: set<string>, list: seq<Listed>): State {
    var n := ValidPrefix(list);
    var added := WithNewDevices(s.devices, whitelist, list[..n]);
    if n < |list| then s.(devices := added)
    else
      var s1 := s.(devices := OnlyListed(added, list), log := s.log + [Kept(Paths(list))]);
      if s1.devices.Keys != s.devices.Keys then UpdateConnectivity(s1) else s1
  }

  // ---- shill going away and coming back ----

  function Forget(s: State): State {
    TearDown(s, ShillReset).(devices := map[], connectivity := Offline, notifiedAt := Offline, log := s.log + [Kept({})])
  }

  function Init(s: State, whitelist: set<string>, list: Option<seq<Listed>>): State {
    if list.None? then Forget(s) else DeviceListChanged(Forget(s), whitelist, list.value)
  }

  // ---- runs ----

  datatype Event =
    | ConnectCalled(configured: Configured)
    | TimerFires(proxy: Proxy, again: seq<Configured>)
    | AnswerRuns(call: nat, error: string, again: seq<Configured>)
    | ListenersRun(online: bool, again: seq<Configured>)
    | ListenerAdded(listener: nat)
    | OwnerLost
    | OwnerChanged(reply: Option<seq<Listed>>)
    | DevicesListed(list: seq<Listed>)
    | ServiceSelected(device: string, path: string, read: Option<string>)
    | ServiceSignal(path: string, property: Property, again: seq<Configured>)
    | ServiceWatched(path: string, success: bool, properties: Option<Properties>, again: seq<Configured>)

  predicate Enabled(s: State, e: Event) {
    match e
    case TimerFires(proxy, _) => Timeout(proxy) in s.tasks
    case AnswerRuns(call, error, _) => Answer(call, error) in s.tasks
    case ListenersRun(online, _) => Notify(online) in s.tasks
    case _ => true
  }

  ghost function Step(s: State, whitelist: set<string>, e: Event): State {
    if !Enabled(s, e) then s
    else match e
      case ConnectCalled(configured) => Connect(s, configured)
      case TimerFires(proxy, again) =>
        ConnectToServiceError(s.(tasks := s.tasks - multiset{Timeout(proxy)}), Some(proxy), again)
      case AnswerRuns(call, error, again) => ConnectAll(s.(tasks := s.tasks - multiset{Answer(call, error)}), again)
      case ListenersRun(online, again) =>
        ConnectAll(NotifyListeners(s.(tasks := s.tasks - multiset{Notify(online)})), again)
      case ListenerAdded(listener) => s.(listeners := s.listeners + [listener])
      case OwnerLost => Forget(s)
      case OwnerChanged(reply) => Init(s, whitelist, reply)
      case DevicesListed(list) => DeviceListChanged(s, whitelist, list)
      case ServiceSelected(device, path, read) => DeviceSelected(s, device, path, read)
      case ServiceSignal(path, property, again) => ServicePropertyChanged(s, path, property, again)
      case ServiceWatched(path, success, properties, again) => ServiceRegistered(s, path, success, properties, again)
  }

  ghost function Run(whitelist: set<string>, events: seq<Event>): State {
    if events == [] then INITIAL
    else Step(Run(whitelist, events[..|events| - 1]), whitelist, events[|events| - 1])
  }
}
