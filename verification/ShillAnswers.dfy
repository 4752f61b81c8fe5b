/**
 What ShillClient tells those who call Connect and those who watch it: which
 steps answer a call without an error, what a call that starts no attempt is
 told, and how the states, signals and resets of shill are understood.
 */
module ShillAnswers {
  import opened Base
  import opened Shill
  import A = ShillAttempts
  import C = ShillConnectivity
  import D = ShillDevices
  import E = ShillErrors

  // ---- success ----

  // The service being connected comes online, by a signal or by what is read on registration.
  predicate Succeeds(s: State, e: Event) {
    match e
    case ServiceSignal(path, property, _) =>
      IsConnecting(s, path) && property.StateProperty? && MapState(property.state) == Online
    case ServiceWatched(path, success, properties, _) =>
      && IsConnecting(s, path) && success && properties.Some? && properties.value.state.Some?
      && MapState(properties.value.state.value) == Online
    case _ => false
  }

  // All answers given since s tell of an error.
  predicate OnlyErrors(s: State, t: State) {
    s.answers <= t.answers && forall k :: |s.answers| <= k < |t.answers| ==> t.answers[k].error.Some?
  }

  // The first answer since s is that the held call succeeded; what follows are errors.
  predicate ThenSuccess(s: State, t: State)
    requires s.attempt.callback.Some?
  {
    && s.answers + [Answered(s.attempt.callback.value, None)] <= t.answers
    && forall k :: |s.answers| < k < |t.answers| ==> t.answers[k].error.Some?
  }

  lemma {:induction false} ConnectAllErrs(s: State, again: seq<Configured>)
    ensures OnlyErrors(s, ConnectAll(s, again))
    decreases |again|
  {
    if again == [] {
    } else {
      ConnectAllErrs(Connect(s, again[0]), again[1..]);
    }
  }

  lemma ErrorAnswers(s: State, call: Option<nat>, error: string, again: seq<Configured>)
    ensures OnlyErrors(s, RunCallback(s, call, Some(error), again))
  {
    if call.Some? { ConnectAllErrs(s.(answers := s.answers + [Answered(call.value, Some(error))]), again); }
  }

  lemma ServiceErrorAnswers(s: State, proxy: Option<Proxy>, again: seq<Configured>)
    ensures OnlyErrors(s, ConnectToServiceError(s, proxy, again))
  {
    ErrorAnswers(Cleanup(s), s.attempt.callback, E.FailureText(s), again);
    hide RunCallback;
  }

  lemma SuccessAnswers(s: State, again: seq<Configured>)
    requires s.attempt.callback.Some?
    ensures ThenSuccess(s, RunCallback(Cleanup(s), s.attempt.callback, None, again))
  {
    ConnectAllErrs(Cleanup(s).(answers := s.answers + [Answered(s.attempt.callback.value, None)]), again);
  }

  lemma StateAnswers(s: State, path: string, state: string, again: seq<Configured>)
    requires A.AttemptOk(s)
    ensures var t := ServicePropertyChanged(s, path, StateProperty(state), again);
            if IsConnecting(s, path) && MapState(state) == Online then ThenSuccess(s, t) else OnlyErrors(s, t)
  {
    if state != "" {
      var s1 := SelectedStateChanged(s, path, state);
      assert s1.answers == s.answers && s1.attempt == s.attempt;
      if IsConnecting(s, path) {
        SuccessAnswers(s1, again);
        ServiceErrorAnswers(s1, s1.attempt.connecting, again);
      }
      hide SelectedStateChanged, RunCallback, ConnectToServiceError;
    }
  }

  lemma PropertyAnswersNobody(s: State, path: string, property: Property, again: seq<Configured>)
    requires !property.StateProperty?
    ensures ServicePropertyChanged(s, path, property, again).answers == s.answers
  {
  }

  lemma InitialAnswers(s: State, path: string, ps: Properties, again: seq<Configured>)
    requires A.AttemptOk(s)
    ensures var t := InitialProperties(s, path, ps, again);
            if IsConnecting(s, path) && ps.state.Some? && MapState(ps.state.value) == Online then ThenSuccess(s, t)
            else OnlyErrors(s, t)
  {
    hide ServicePropertyChanged, MapState;
    var s1 := if ps.state.None? then s else ServicePropertyChanged(s, path, StateProperty(ps.state.value), again);
    if ps.state.Some? { StateAnswers(s, path, ps.state.value, again); }
    var s2 := if ps.strength.None? then s1 else ServicePropertyChanged(s1, path, Strength(ps.strength.value), []);
    if ps.strength.Some? { PropertyAnswersNobody(s1, path, Strength(ps.strength.value), []); }
    if ps.error.Some? { PropertyAnswersNobody(s2, path, ErrorProperty(ps.error.value), []); }
  }

  lemma TaskAnswers(s: State, whitelist: set<string>, e: Event)
    requires A.RunsTask(e) && Enabled(s, e)
    ensures OnlyErrors(s, Step(s, whitelist, e))
  {
    hide ConnectAll, ConnectToServiceError;
    match e
    case TimerFires(proxy, again) =>
      ServiceErrorAnswers(s.(tasks := s.tasks - multiset{Timeout(proxy)}), Some(proxy), again);
    case AnswerRuns(call, error, again) =>
      ConnectAllErrs(s.(tasks := s.tasks - multiset{Answer(call, error)}), again);
    case ListenersRun(online, again) =>
      ConnectAllErrs(NotifyListeners(s.(tasks := s.tasks - multiset{Notify(online)})), again);
  }

  lemma OtherAnswers(s: State, whitelist: set<string>, e: Event)
    requires !e.ServiceSignal? && !e.ServiceWatched? && !A.RunsTask(e)
    ensures OnlyErrors(s, Step(s, whitelist, e))
  {
    hide IsValidPath, ValidPrefix, WithNewDevices, OnlyListed, Aggregate, MapState;
  }

  lemma StepAnswers(s: State, whitelist: set<string>, e: Event)
    requires A.AttemptOk(s)
    ensures var t := Step(s, whitelist, e); if Succeeds(s, e) then ThenSuccess(s, t) else OnlyErrors(s, t)
  {
    hide ServicePropertyChanged, MapState, OnlyErrors, ThenSuccess;
    if e.ServiceSignal? {
      if e.property.StateProperty? {
        StateAnswers(s, e.path, e.property.state, e.again);
      } else {
        NothingAnswered(s, e.path, e.property, e.again);
      }
    } else if e.ServiceWatched? {
      WatchedAnswers(s, e.path, e.success, e.properties, e.again);
    } else if A.RunsTask(e) && Enabled(s, e) {
      TaskAnswers(s, whitelist, e);
    } else if A.RunsTask(e) {
      NoAnswers(s);
    } else {
      OtherAnswers(s, whitelist, e);
    }
    hide ServiceRegistered;
  }

  lemma NoAnswers(s: State)
    ensures OnlyErrors(s, s)
  {
  }

  lemma NothingAnswered(s: State, path: string, property: Property, again: seq<Configured>)
    requires !property.StateProperty?
    ensures OnlyErrors(s, ServicePropertyChanged(s, path, property, again))
  {
    PropertyAnswersNobody(s, path, property, again);
  }

  lemma WatchedAnswers(s: State, path: string, success: bool, properties: Option<Properties>, again: seq<Configured>)
    requires A.AttemptOk(s)
    ensures var t := ServiceRegistered(s, path, success, properties, again);
            if Succeeds(s, ServiceWatched(path, success, properties, again)) then ThenSuccess(s, t) else OnlyErrors(s, t)
  {
    if properties.Some? { InitialAnswers(s, path, properties.value, again); }
    hide InitialProperties, MapState, AnySelects;
  }

  /**
   Over every run, a step answers the held call without an error, as its first answer, and ends the attempt if and
   only if the service being connected comes online by it; every other answer of any step tells of an error.
   */
  lemma {:induction false} AnsweredWithoutErrorExactly(whitelist: set<string>, events: seq<Event>, e: Event)
    ensures var s, t := Run(whitelist, events), Step(Run(whitelist, events), whitelist, e);
            if Succeeds(s, e)
            then s.attempt.callback.Some? && ThenSuccess(s, t) && t.attempt.connecting != s.attempt.connecting
            else OnlyErrors(s, t)
  {
    A.RunKeeps(whitelist, events);
    var s := Run(whitelist, events);
    StepAnswers(s, whitelist, e);
    if Succeeds(s, e) {
      A.ProxiesNumbered(whitelist, events);
      SuccessEnds(s, whitelist, e);
    }
    hide Run, Step, MapState, A.Conserved, OnlyErrors, ThenSuccess;
  }

  lemma OnlineEnds(s: State, path: string, state: string, again: seq<Configured>)
    requires A.AttemptOk(s) && IsConnecting(s, path) && MapState(state) == Online
    ensures var t := ServicePropertyChanged(s, path, StateProperty(state), again);
            && s.proxies <= t.proxies
            && (t.attempt.connecting.Some? ==> t.attempt.connecting.value.id >= s.proxies)
  {
    var s1 := SelectedStateChanged(s, path, state);
    assert s1.attempt == s.attempt && s1.proxies == s.proxies;
    A.ConnectAllFrame(Cleanup(s1).(answers := s1.answers + [Answered(s1.attempt.callback.value, None)]), again);
    hide SelectedStateChanged, ConnectAll;
  }

  lemma SuccessEnds(s: State, whitelist: set<string>, e: Event)
    requires A.AttemptOk(s) && Succeeds(s, e) && s.attempt.connecting.value.id < s.proxies
    ensures Step(s, whitelist, e).attempt.connecting != s.attempt.connecting
  {
    if e.ServiceSignal? {
      OnlineEnds(s, e.path, e.property.state, e.again);
      hide ServicePropertyChanged;
    } else {
      var ps := e.properties.value;
      OnlineEnds(s, e.path, ps.state.value, e.again);
      var s1 := ServicePropertyChanged(s, e.path, StateProperty(ps.state.value), e.again);
      var s2 := if ps.strength.None? then s1 else ServicePropertyChanged(s1, e.path, Strength(ps.strength.value), []);
      if ps.strength.Some? { PropertyKeepsProxy(s1, e.path, Strength(ps.strength.value)); }
      if ps.error.Some? { PropertyKeepsProxy(s2, e.path, ErrorProperty(ps.error.value)); }
      hide ServicePropertyChanged, AnySelects, MapState;
    }
  }

  lemma PropertyKeepsProxy(s: State, path: string, property: Property)
    requires !property.StateProperty?
    ensures ServicePropertyChanged(s, path, property, []).attempt.connecting == s.attempt.connecting
  {
  }

  // ---- calls that start no attempt ----

  /** A call during an attempt is told so, one that cannot be configured is told why, any other is held. */
  lemma ConnectAnswers(s: State, whitelist: set<string>, configured: Configured)
    ensures var t := Step(s, whitelist, ConnectCalled(configured));
            && t.calls == s.calls + 1
            && (s.attempt.connecting.Some? ==>
                  && t.answers == s.answers + [Answered(s.calls, Some("busy"))] && t.attempt == s.attempt
                  && t.tasks == s.tasks + multiset{Answer(s.calls, "busy")})
            && (s.attempt.connecting.None? && configured.Failed? ==>
                  && t.answers == s.answers + [Answered(s.calls, Some(configured.error))] && t.attempt.connecting.None?
                  && t.tasks == s.tasks + multiset{Answer(s.calls, configured.error)})
            && (s.attempt.connecting.None? && configured.Path? ==>
                  && t.answers == s.answers && t.attempt.callback == Some(s.calls) && t.attempt.connecting.Some?
                  && t.attempt.connecting.value.path == configured.path && !t.attempt.calledConnect
                  && t.tasks == s.tasks + multiset{Timeout(t.attempt.connecting.value)})
  {
  }

  // ---- what shill says ----

  // The states of a shill service that mean something; any other is as good as offline.
  lemma StatesAsMapped(state: string)
    ensures MapState(state) == Online <==> state in {"ready", "portal", "online"}
    ensures MapState(state) == Connecting <==> state in {"association", "configuration"}
    ensures MapState(state) == Error <==> state in {"failure", "activation-failure"}
  {
  }

  /** An attempt calls Connect on its service at the first signal with strength, and only for its own service. */
  lemma StrengthCallsConnect(s: State, whitelist: set<string>, path: string, strength: nat)
    ensures var t := Step(s, whitelist, ServiceSignal(path, Strength(strength), []));
            && (t.attempt.calledConnect <==> s.attempt.calledConnect || (IsConnecting(s, path) && strength > 0))
            && t == s.(attempt := s.attempt.(calledConnect := t.attempt.calledConnect))
  {
  }

  // A signal with the property, if there is one.
  ghost function Signalled(s: State, path: string, property: Option<Property>, again: seq<Configured>): State {
    if property.None? then s else Step(s, {}, ServiceSignal(path, property.value, again))
  }

  /**
   The reply to a registration of a service that is connected or selected has the effect of the signals it stands
   in for, in the order state, strength, error; for other services it has none.
   */
  lemma RegistrationReplaysSignals(s: State, path: string, ps: Properties, again: seq<Configured>)
    ensures var s1 := Signalled(s, path, if ps.state.None? then None else Some(StateProperty(ps.state.value)), again);
            var s2 := Signalled(s1, path, if ps.strength.None? then None else Some(Strength(ps.strength.value)), []);
            var s3 := Signalled(s2, path, if ps.error.None? then None else Some(ErrorProperty(ps.error.value)), []);
            Step(s, {}, ServiceWatched(path, true, Some(ps), again)) ==
            if IsConnecting(s, path) || AnySelects(s.devices, path) then s3 else s
  {
    hide ServicePropertyChanged, AnySelects;
  }

  /** A registration that fails ends the attempt it was made for, without an answer, and nothing else. */
  lemma FailedRegistrationDrops(s: State, whitelist: set<string>, path: string, properties: Option<Properties>,
                                again: seq<Configured>)
    ensures var t := Step(s, whitelist, ServiceWatched(path, false, properties, again));
            && t.answers == s.answers && t.devices == s.devices && t.tasks == s.tasks
            && (if IsConnecting(s, path)
                then t.attempt.connecting.None? && t.attempt.callback.None? && !t.attempt.calledConnect
                else t == s)
            && (IsConnecting(s, path) && s.attempt.callback.Some? ==>
                  t.dropped == s.dropped[s.attempt.callback.value := RegistrationFailed])
  {
  }

  /** When shill goes nothing of it is kept; a held call is dropped. */
  lemma OwnerLossForgets(s: State, whitelist: set<string>)
    ensures var t := Step(s, whitelist, OwnerLost);
            && t == Forget(s) && t.devices == map[] && t.connectivity == Offline
            && t.attempt.connecting.None? && t.attempt.callback.None?
            && !t.attempt.calledConnect && t.tasks == s.tasks && t.answers == s.answers && t.listeners == s.listeners
            && (s.attempt.callback.Some? ==> t.dropped == s.dropped[s.attempt.callback.value := ShillReset])
  {
  }

  // The whitelist names the interface of the device; an empty one admits every device.
  predicate Admitted(whitelist: set<string>, list: seq<Listed>, p: string) {
    exists k :: 0 <= k < |list| && list[k].path == p &&
      (whitelist == {} || exists name :: name in whitelist && list[k].interface == Some(name))
  }

  lemma AdmittedIsMonitored(whitelist: set<string>, list: seq<Listed>, p: string)
    ensures Admitted(whitelist, list, p) <==> ListsMonitored(whitelist, list, p)
  {
    if Admitted(whitelist, list, p) {
      var k :| 0 <= k < |list| && list[k].path == p &&
               (whitelist == {} || exists name :: name in whitelist && list[k].interface == Some(name));
      assert Monitored(whitelist, list[k]);
    }
    if ListsMonitored(whitelist, list, p) {
      var k :| 0 <= k < |list| && list[k].path == p && Monitored(whitelist, list[k]);
      if whitelist != {} { assert list[k].interface == Some(list[k].interface.value); }
    }
  }

  /**
   A valid device list leaves exactly the listed devices that were known or whose interface the whitelist admits;
   those that stay keep their service and state, new ones have none.
   */
  lemma ListAdmits(s: State, whitelist: set<string>, list: seq<Listed>)
    requires forall k :: 0 <= k < |list| ==> IsValidPath(list[k].path)
    ensures Step(s, whitelist, DevicesListed(list)) == DeviceListChanged(s, whitelist, list)
    ensures var devices := Step(s, whitelist, DevicesListed(list)).devices;
            && (forall p :: p in devices <==> Lists(list, p) && (p in s.devices || Admitted(whitelist, list, p)))
            && (forall p :: p in devices ==>
                  devices[p] == if p in s.devices then s.devices[p] else DeviceState(None, Offline))
  {
    D.ValidListReconciles(s, whitelist, list);
    forall p ensures Admitted(whitelist, list, p) <==> ListsMonitored(whitelist, list, p) {
      AdmittedIsMonitored(whitelist, list, p);
    }
    hide DeviceListChanged, Admitted, ListsMonitored, Lists, IsValidPath;
  }

  /** When shill comes back, all is forgotten and exactly the listed devices that the whitelist admits are known. */
  lemma ResetListsDevices(s: State, whitelist: set<string>, list: seq<Listed>)
    requires forall k :: 0 <= k < |list| ==> IsValidPath(list[k].path)
    ensures var t := Step(s, whitelist, OwnerChanged(Some(list)));
            && (forall p :: p in t.devices <==> Lists(list, p) && Admitted(whitelist, list, p))
            && (forall p :: p in t.devices ==> t.devices[p] == DeviceState(None, Offline))
            && t.attempt.connecting.None? && t.attempt.callback.None? && t.connectivity == Offline
  {
    hide Forget, Lists, Admitted, DeviceListChanged, IsValidPath, Aggregate;
    ListAdmits(Forget(s), whitelist, list);
    C.ForgetKeeps(s);
    C.ListKeeps(Forget(s), whitelist, list);
    OwnerLossForgets(s, whitelist);
    ListKeepsAttempt(Forget(s), whitelist, list);
    NobodyOnline(DeviceListChanged(Forget(s), whitelist, list).devices);
  }

  lemma ListKeepsAttempt(s: State, whitelist: set<string>, list: seq<Listed>)
    ensures DeviceListChanged(s, whitelist, list).attempt == s.attempt
  {
    hide WithNewDevices, OnlyListed, Aggregate, ValidPrefix;
  }

  lemma NobodyOnline(devices: Devices)
    requires forall d :: d in devices ==> devices[d].state == Offline
    ensures Aggregate(devices) == Offline
  {
  }

  /** A device that deselects its service has none and is offline; no other device changes. */
  lemma DeselectionClears(s: State, whitelist: set<string>, device: string, read: Option<string>)
    requires device in s.devices && (s.devices[device].selected.Some? ==> s.devices[device].selected.value.path != "/")
    ensures var t := Step(s, whitelist, ServiceSelected(device, "/", read));
            && t.devices[device].selected.None?
            && (s.devices[device].selected.Some? ==> t.devices[device].state == Offline)
            && t.devices == s.devices[device := t.devices[device]]
  {
    hide Aggregate;
  }

  // ---- calls made by callbacks, and the order of devices ----

  // The Connect calls that a callback makes are carried out, each like one made on its own, in order.
  lemma {:induction false} ReentrantCallsMade(s: State, again: seq<Configured>)
    ensures ConnectAll(s, []) == s && ConnectAll(s, again).calls == s.calls + |again|
    ensures again != [] ==>
              ConnectAll(s, again) == Connect(ConnectAll(s, again[..|again| - 1]), again[|again| - 1])
    decreases |again|
  {
    if again == [] {
    } else {
      var rest := again[1..];
      ReentrantCallsMade(Connect(s, again[0]), rest);
      if |again| == 1 {
        assert again[..0] == [] && rest == [];
      } else {
        var front := again[..|again| - 1];
        assert front[0] == again[0] && front[1..] == rest[..|rest| - 1] && rest[|rest| - 1] == again[|again| - 1];
      }
      hide Connect;
    }
  }

  /** Device paths are ordered like strings: by the first character that differs, or by length. */
  lemma {:induction false} OrderIsLexicographic(a: string, b: string)
    ensures Leq(a, b) <==>
            a <= b || exists k :: 0 <= k < |a| && k < |b| && a[..k] == b[..k] && a[k] < b[k]
    decreases |a|
  {
    if a == "" || b == "" {
    } else if a[0] != b[0] {
      if a[0] < b[0] { assert a[..0] == b[..0]; }
      forall k | 0 < k < |a| && k < |b| ensures a[..k] != b[..k] {
        assert a[..k][0] == a[0] && b[..k][0] == b[0];
      }
    } else {
      var c, d := a[1..], b[1..];
      OrderIsLexicographic(c, d);
      assert a == [a[0]] + c && b == [b[0]] + d;
      assert a <= b <==> c <= d;
      if k :| 0 <= k < |c| && k < |d| && c[..k] == d[..k] && c[k] < d[k] {
        assert a[..k + 1] == [a[0]] + c[..k] && b[..k + 1] == [b[0]] + d[..k];
        assert a[k + 1] < b[k + 1];
      }
      if k :| 0 <= k < |a| && k < |b| && a[..k] == b[..k] && a[k] < b[k] {
        assert k > 0 && c[..k - 1] == a[..k][1..] && d[..k - 1] == b[..k][1..] && c[k - 1] < d[k - 1];
      }
    }
  }
}
