/**
 Connection attempts over every run of ShillClient: no Connect call is
 answered twice or forgotten, and no attempt can block later ones forever.
 */
module ShillAttempts {
  import opened Base
  import opened Shill

  function CountFor(answers: seq<Answered>, call: nat): nat {
    if answers == [] then 0
    else CountFor(answers[..|answers| - 1], call) + if answers[|answers| - 1].call == call then 1 else 0
  }

  function Held(s: State, call: nat): nat {
    if s.attempt.callback == Some(call) then 1 else 0
  }

  function Dropped(s: State, call: nat): nat {
    if call in s.dropped then 1 else 0
  }

  // Each call made so far is in exactly one place: answered once, held, or dropped.
  ghost predicate Conserved(s: State) {
    forall c: nat :: CountFor(s.answers, c) + Held(s, c) + Dropped(s, c) == if c < s.calls then 1 else 0
  }

  // An attempt under way has its callback and its own timer; proxies are numbered.
  ghost predicate AttemptOk(s: State) {
    && (s.attempt.connecting.Some? <==> s.attempt.callback.Some?)
    && (s.attempt.calledConnect ==> s.attempt.connecting.Some?)
    && (s.attempt.connecting.Some? ==> Timeout(s.attempt.connecting.value) in s.tasks)
    && (forall p :: Timeout(p) in s.tasks ==> p.id < s.proxies)
  }

  ghost predicate AttemptInv(s: State) {
    Conserved(s) && AttemptOk(s)
  }

  lemma OneMoreAnswer(answers: seq<Answered>, a: Answered, c: nat)
    ensures CountFor(answers + [a], c) == CountFor(answers, c) + if a.call == c then 1 else 0
  {
    assert (answers + [a])[..|answers|] == answers;
  }

  lemma PostedAnswerKeeps(s: State, error: string)
    requires AttemptInv(s)
    ensures AttemptInv(PostAnswer(s.(calls := s.calls + 1), s.calls, error))
  {
    var s' := PostAnswer(s.(calls := s.calls + 1), s.calls, error);
    forall c: nat
      ensures CountFor(s'.answers, c) + Held(s', c) + Dropped(s', c) == if c < s'.calls then 1 else 0
    {
      assert CountFor(s.answers, c) + Held(s, c) + Dropped(s, c) == if c < s.calls then 1 else 0;
      OneMoreAnswer(s.answers, Answered(s.calls, Some(error)), c);
    }
  }

  lemma StartedAttemptKeeps(s: State, path: string)
    requires AttemptInv(s) && s.attempt.connecting.None?
    ensures AttemptInv(Connect(s, Path(path)))
  {
    var s' := Connect(s, Path(path));
    forall c: nat
      ensures CountFor(s'.answers, c) + Held(s', c) + Dropped(s', c) == if c < s'.calls then 1 else 0
    {
      assert CountFor(s.answers, c) + Held(s, c) + Dropped(s, c) == if c < s.calls then 1 else 0;
    }
  }

  lemma ConnectKeeps(s: State, configured: Configured)
    requires AttemptInv(s)
    ensures AttemptInv(Connect(s, configured))
    ensures s.proxies <= Connect(s, configured).proxies
  {
    if s.attempt.connecting.Some? {
      PostedAnswerKeeps(s, BUSY);
    } else if configured.Failed? {
      assert Cleanup(s.(calls := s.calls + 1)) == s.(calls := s.calls + 1);
      PostedAnswerKeeps(s, configured.error);
    } else {
      StartedAttemptKeeps(s, configured.path);
    }
    hide AttemptInv, PostAnswer;
  }

  lemma {:induction false} ConnectAllKeeps(s: State, again: seq<Configured>)
    requires AttemptInv(s)
    ensures AttemptInv(ConnectAll(s, again))
    ensures s.proxies <= ConnectAll(s, again).proxies
    decreases |again|
  {
    if again == [] {
    } else {
      ConnectKeeps(s, again[0]);
      hide Connect, AttemptInv;
      ConnectAllKeeps(Connect(s, again[0]), again[1..]);
    }
  }

  // Ending the attempt by running the callback that was held for it.
  lemma CallbackKeeps(s: State, error: Option<string>, again: seq<Configured>)
    requires AttemptInv(s)
    ensures AttemptInv(RunCallback(Cleanup(s), s.attempt.callback, error, again))
    ensures s.proxies <= RunCallback(Cleanup(s), s.attempt.callback, error, again).proxies
  {
    if s.attempt.callback.Some? {
      var a := Answered(s.attempt.callback.value, error);
      var s1 := Cleanup(s).(answers := s.answers + [a]);
      forall c: nat
        ensures CountFor(s1.answers, c) + Held(s1, c) + Dropped(s1, c) == if c < s1.calls then 1 else 0
      {
        assert CountFor(s.answers, c) + Held(s, c) + Dropped(s, c) == if c < s.calls then 1 else 0;
        OneMoreAnswer(s.answers, a, c);
      }
      ConnectAllKeeps(s1, again);
    }
  }

  lemma TearDownKeeps(s: State, why: Teardown)
    requires AttemptInv(s)
    ensures AttemptInv(TearDown(s, why))
  {
    var s' := TearDown(s, why);
    forall c: nat
      ensures CountFor(s'.answers, c) + Held(s', c) + Dropped(s', c) == if c < s'.calls then 1 else 0
    {
      assert CountFor(s.answers, c) + Held(s, c) + Dropped(s, c) == if c < s.calls then 1 else 0;
    }
  }

  // Steps that only watch devices leave the attempt alone.
  ghost predicate SameAttempt(s: State, t: State) {
    && t.attempt.(calledConnect := s.attempt.calledConnect, error := s.attempt.error) == s.attempt
    && (t.attempt.calledConnect ==> t.attempt.connecting.Some?)
    && t.calls == s.calls && t.answers == s.answers && t.dropped == s.dropped && s.proxies <= t.proxies
    && (forall p :: Timeout(p) in t.tasks <==> Timeout(p) in s.tasks)
  }

  lemma SameAttemptKeeps(s: State, t: State)
    requires AttemptInv(s) && SameAttempt(s, t)
    ensures AttemptInv(t)
  {
    forall c: nat ensures CountFor(t.answers, c) + Held(t, c) + Dropped(t, c) == if c < t.calls then 1 else 0 {
      assert CountFor(s.answers, c) + Held(s, c) + Dropped(s, c) == if c < s.calls then 1 else 0;
    }
  }

  lemma ErrorKeeps(s: State, proxy: Option<Proxy>, again: seq<Configured>)
    requires AttemptInv(s)
    ensures AttemptInv(ConnectToServiceError(s, proxy, again))
    ensures s.proxies <= ConnectToServiceError(s, proxy, again).proxies
  {
    var error := if s.attempt.calledConnect then s.attempt.error else OUT_OF_RANGE;
    CallbackKeeps(s, Some(if error == "" then INTERNAL_ERROR else error), again);
    hide RunCallback, AttemptInv;
  }

  lemma SelectedStateKeeps(s: State, path: string, state: string)
    requires AttemptInv(s)
    ensures SameAttempt(s, SelectedStateChanged(s, path, state)) && AttemptInv(SelectedStateChanged(s, path, state))
  {
    SameAttemptKeeps(s, SelectedStateChanged(s, path, state));
  }

  lemma PropertyKeeps(s: State, path: string, property: Property, again: seq<Configured>)
    requires AttemptInv(s)
    ensures AttemptInv(ServicePropertyChanged(s, path, property, again))
    ensures s.proxies <= ServicePropertyChanged(s, path, property, again).proxies
  {
    match property
    case StateProperty(state) =>
      var s1 := SelectedStateChanged(s, path, state);
      SelectedStateKeeps(s, path, state);
      CallbackKeeps(s1, None, again);
      ErrorKeeps(s1, s1.attempt.connecting, again);
      hide SelectedStateChanged, RunCallback, ConnectToServiceError, AttemptInv;
    case Strength(strength) =>
      if IsConnecting(s, path) { SameAttemptKeeps(s, StrengthChanged(s, strength)); }
    case ErrorProperty(error) =>
      if IsConnecting(s, path) { SameAttemptKeeps(s, ErrorChanged(s, error)); }
    case OtherProperty =>
  }

  lemma RegisteredKeeps(s: State, path: string, success: bool, properties: Option<Properties>, again: seq<Configured>)
    requires AttemptInv(s)
    ensures AttemptInv(ServiceRegistered(s, path, success, properties, again))
    ensures s.proxies <= ServiceRegistered(s, path, success, properties, again).proxies
  {
    TearDownKeeps(s, RegistrationFailed);
    if properties.Some? {
      var ps := properties.value;
      hide ServicePropertyChanged, AttemptInv;
      var s1 := if ps.state.None? then s else ServicePropertyChanged(s, path, StateProperty(ps.state.value), again);
      if ps.state.Some? { PropertyKeeps(s, path, StateProperty(ps.state.value), again); }
      var s2 := if ps.strength.None? then s1
                else ServicePropertyChanged(s1, path, Strength(ps.strength.value), []);
      if ps.strength.Some? { PropertyKeeps(s1, path, Strength(ps.strength.value), []); }
      if ps.error.Some? { PropertyKeeps(s2, path, ErrorProperty(ps.error.value), []); }
    }
  }

  lemma DevicesKeep(s: State, whitelist: set<string>, list: seq<Listed>)
    requires AttemptInv(s)
    ensures AttemptInv(DeviceListChanged(s, whitelist, list)) && SameAttempt(s, DeviceListChanged(s, whitelist, list))
    ensures s.proxies <= DeviceListChanged(s, whitelist, list).proxies
  {
    SameAttemptKeeps(s, DeviceListChanged(s, whitelist, list));
  }

  lemma ForgetKeeps(s: State)
    requires AttemptInv(s)
    ensures AttemptInv(Forget(s)) && Forget(s).proxies == s.proxies
  {
    TearDownKeeps(s, ShillReset);
    hide AttemptInv;
    SameAttemptKeeps(TearDown(s, ShillReset), Forget(s));
  }

  lemma TakeTask(s: State, task: Task)
    requires AttemptInv(s) && (task.Timeout? ==> s.attempt.connecting != Some(task.proxy))
    ensures AttemptInv(s.(tasks := s.tasks - multiset{task}))
  {
    var t := s.(tasks := s.tasks - multiset{task});
    forall c: nat ensures CountFor(t.answers, c) + Held(t, c) + Dropped(t, c) == if c < t.calls then 1 else 0 {
      assert CountFor(s.answers, c) + Held(s, c) + Dropped(s, c) == if c < s.calls then 1 else 0;
    }
  }

  // The timer of the running attempt ends it, so its task is not missed afterwards.
  lemma TimerEndsAttempt(s: State, p: Proxy, again: seq<Configured>)
    requires AttemptInv(s) && s.attempt.connecting == Some(p)
    ensures AttemptInv(ConnectToServiceError(s.(tasks := s.tasks - multiset{Timeout(p)}), Some(p), again))
    ensures s.proxies <= ConnectToServiceError(s.(tasks := s.tasks - multiset{Timeout(p)}), Some(p), again).proxies
  {
    var t := s.(tasks := s.tasks - multiset{Timeout(p)});
    var error := if s.attempt.calledConnect then s.attempt.error else OUT_OF_RANGE;
    var reported := if error == "" then INTERNAL_ERROR else error;
    var a := Answered(s.attempt.callback.value, Some(reported));
    var s1 := Cleanup(t).(answers := s.answers + [a]);
    forall c: nat
      ensures CountFor(s1.answers, c) + Held(s1, c) + Dropped(s1, c) == if c < s1.calls then 1 else 0
    {
      assert CountFor(s.answers, c) + Held(s, c) + Dropped(s, c) == if c < s.calls then 1 else 0;
      OneMoreAnswer(s.answers, a, c);
    }
    ConnectAllKeeps(s1, again);
    assert ConnectToServiceError(t, Some(p), again) == ConnectAll(s1, again);
  }

  predicate RunsTask(e: Event) {
    e.TimerFires? || e.AnswerRuns? || e.ListenersRun?
  }

  lemma TaskKeeps(s: State, whitelist: set<string>, e: Event)
    requires AttemptInv(s) && RunsTask(e) && Enabled(s, e)
    ensures AttemptInv(Step(s, whitelist, e))
    ensures s.proxies <= Step(s, whitelist, e).proxies
  {
    match e
    case TimerFires(proxy, again) =>
      if s.attempt.connecting == Some(proxy) {
        TimerEndsAttempt(s, proxy, again);
      } else {
        TakeTask(s, Timeout(proxy));
      }
      hide AttemptInv;
    case AnswerRuns(call, error, again) =>
      TakeTask(s, Answer(call, error));
      hide AttemptInv;
      ConnectAllKeeps(s.(tasks := s.tasks - multiset{Answer(call, error)}), again);
    case ListenersRun(online, again) =>
      var t := s.(tasks := s.tasks - multiset{Notify(online)});
      TakeTask(s, Notify(online));
      SameAttemptKeeps(t, NotifyListeners(t));
      hide AttemptInv;
      ConnectAllKeeps(NotifyListeners(t), again);
  }

  lemma StepKeeps(s: State, whitelist: set<string>, e: Event)
    requires AttemptInv(s)
    ensures AttemptInv(Step(s, whitelist, e))
    ensures s.proxies <= Step(s, whitelist, e).proxies
  {
    hide AttemptInv;
    if Enabled(s, e) {
      if RunsTask(e) {
        TaskKeeps(s, whitelist, e);
      } else {
        hide ServicePropertyChanged, ServiceRegistered, DeviceListChanged, DeviceSelected, Connect, Forget, SameAttempt;
        match e
        case ConnectCalled(configured) => ConnectKeeps(s, configured);
        case ListenerAdded(listener) => ListenerKeeps(s, listener);
        case OwnerLost => ForgetKeeps(s);
        case OwnerChanged(reply) =>
          ForgetKeeps(s);
          if reply.Some? { DevicesKeep(Forget(s), whitelist, reply.value); }
        case DevicesListed(list) => DevicesKeep(s, whitelist, list);
        case ServiceSelected(device, path, read) => SelectionKeeps(s, device, path, read);
        case ServiceSignal(path, property, again) => PropertyKeeps(s, path, property, again);
        case ServiceWatched(path, success, properties, again) => RegisteredKeeps(s, path, success, properties, again);
      }
    }
  }

  lemma ListenerKeeps(s: State, listener: nat)
    requires AttemptInv(s)
    ensures AttemptInv(s.(listeners := s.listeners + [listener]))
  {
    SameAttemptKeeps(s, s.(listeners := s.listeners + [listener]));
  }

  lemma SelectionKeeps(s: State, device: string, path: string, read: Option<string>)
    requires AttemptInv(s)
    ensures AttemptInv(DeviceSelected(s, device, path, read)) && s.proxies <= DeviceSelected(s, device, path, read).proxies
  {
    SameAttemptKeeps(s, DeviceSelected(s, device, path, read));
  }

  lemma {:induction false} RunKeeps(whitelist: set<string>, events: seq<Event>)
    ensures AttemptInv(Run(whitelist, events))
  {
    if events == [] {
    } else {
      RunKeeps(whitelist, events[..|events| - 1]);
      StepKeeps(Run(whitelist, events[..|events| - 1]), whitelist, events[|events| - 1]);
    }
  }

  /**
   Conservation: at every event boundary each Connect call made so far is answered exactly once, or held for
   the attempt under way, or was dropped because shill was reset or the signal registration failed.
   */
  lemma EveryCallAccountedFor(whitelist: set<string>, events: seq<Event>, call: nat)
    ensures var s := Run(whitelist, events);
            CountFor(s.answers, call) + Held(s, call) + Dropped(s, call) == if call < s.calls then 1 else 0
  {
    RunKeeps(whitelist, events);
  }

  /** Never busy for good: an attempt under way has its own timer queued. */
  lemma BusyOnlyWithTimer(whitelist: set<string>, events: seq<Event>)
    ensures var s := Run(whitelist, events);
            && (s.attempt.connecting.Some? ==> Timeout(s.attempt.connecting.value) in s.tasks)
            && (s.attempt.connecting.Some? <==> s.attempt.callback.Some?)
  {
    RunKeeps(whitelist, events);
  }

  lemma {:induction false} ConnectAllFrame(s: State, again: seq<Configured>)
    ensures s.answers <= ConnectAll(s, again).answers
    ensures s.proxies <= ConnectAll(s, again).proxies
    ensures ConnectAll(s, again).attempt.connecting == s.attempt.connecting ||
            (ConnectAll(s, again).attempt.connecting.Some? ==> ConnectAll(s, again).attempt.connecting.value.id >= s.proxies)
    decreases |again|
  {
    if again == [] {
    } else {
      ConnectAllFrame(Connect(s, again[0]), again[1..]);
    }
  }

  /** The timer of the running attempt ends it: the held call gets a non-empty error, and the proxy is let go. */
  lemma TimerAnswersWithError(whitelist: set<string>, events: seq<Event>, p: Proxy, again: seq<Configured>)
    requires Run(whitelist, events).attempt.connecting == Some(p)
    ensures Enabled(Run(whitelist, events), TimerFires(p, again))
    ensures var s, s' := Run(whitelist, events), Step(Run(whitelist, events), whitelist, TimerFires(p, again));
            && |s'.answers| > |s.answers| && s.answers <= s'.answers
            && s.attempt.callback.Some? && s'.answers[|s.answers|].call == s.attempt.callback.value
            && s'.answers[|s.answers|].error.Some? && s'.answers[|s.answers|].error.value != ""
            && s'.attempt.connecting != Some(p)
  {
    RunKeeps(whitelist, events);
    var s := Run(whitelist, events);
    ProxiesNumbered(whitelist, events);
    var t := s.(tasks := s.tasks - multiset{Timeout(p)});
    var error := if s.attempt.calledConnect then s.attempt.error else OUT_OF_RANGE;
    var a := Answered(s.attempt.callback.value, Some(if error == "" then INTERNAL_ERROR else error));
    var s1 := Cleanup(t).(answers := s.answers + [a]);
    ConnectAllFrame(s1, again);
    assert Step(s, whitelist, TimerFires(p, again)) == ConnectAll(s1, again);
    assert s1.answers[|s.answers|] == a;
  }

  lemma ProxiesNumbered(whitelist: set<string>, events: seq<Event>)
    ensures var s := Run(whitelist, events);
            s.attempt.connecting.Some? ==> s.attempt.connecting.value.id < s.proxies
  {
    RunKeeps(whitelist, events);
  }

  /** A timer left over from a finished attempt changes nothing but the queue. */
  lemma StaleTimerIsHarmless(s: State, whitelist: set<string>, p: Proxy, again: seq<Configured>)
    requires Timeout(p) in s.tasks && s.attempt.connecting != Some(p)
    ensures Step(s, whitelist, TimerFires(p, again)) == s.(tasks := s.tasks - multiset{Timeout(p)})
  {
  }

  // ---- a proxy is used for one attempt only ----

  // The attempt under way is the same as before, none, or one for a proxy created since.
  predicate SameOrNewer(s: State, t: State) {
    && s.proxies <= t.proxies
    && (t.attempt.connecting == s.attempt.connecting || t.attempt.connecting.None? ||
        t.attempt.connecting.value.id >= s.proxies)
  }

  lemma CallbackNewer(s: State, call: Option<nat>, error: Option<string>, again: seq<Configured>)
    ensures SameOrNewer(s, RunCallback(s, call, error, again))
  {
    if call.Some? { ConnectAllFrame(s.(answers := s.answers + [Answered(call.value, error)]), again); }
  }

  lemma ErrorNewer(s: State, proxy: Option<Proxy>, again: seq<Configured>)
    ensures SameOrNewer(s, ConnectToServiceError(s, proxy, again))
  {
    var error := if s.attempt.calledConnect then s.attempt.error else OUT_OF_RANGE;
    CallbackNewer(Cleanup(s), s.attempt.callback, Some(if error == "" then INTERNAL_ERROR else error), again);
    hide RunCallback;
  }

  lemma PropertyNewer(s: State, path: string, property: Property, again: seq<Configured>)
    ensures SameOrNewer(s, ServicePropertyChanged(s, path, property, again))
  {
    if property.StateProperty? {
      var s1 := SelectedStateChanged(s, path, property.state);
      assert SameOrNewer(s, s1) && s1.attempt == s.attempt;
      CallbackNewer(Cleanup(s1), s1.attempt.callback, None, again);
      ErrorNewer(s1, s1.attempt.connecting, again);
      hide SelectedStateChanged, RunCallback, ConnectToServiceError;
    }
  }

  lemma NewerThenNewer(s: State, t: State, u: State)
    requires SameOrNewer(s, t) && SameOrNewer(t, u)
    ensures SameOrNewer(s, u)
  {
  }

  lemma SameIsNewer(s: State, t: State)
    requires t.proxies == s.proxies && (t.attempt.connecting == s.attempt.connecting || t.attempt.connecting.None?)
    ensures SameOrNewer(s, t)
  {
  }

  lemma InitialNewer(s: State, path: string, ps: Properties, again: seq<Configured>)
    ensures SameOrNewer(s, InitialProperties(s, path, ps, again))
  {
    SameIsNewer(s, s);
    hide ServicePropertyChanged, SameOrNewer;
    var s1 := if ps.state.None? then s else ServicePropertyChanged(s, path, StateProperty(ps.state.value), again);
    if ps.state.Some? { PropertyNewer(s, path, StateProperty(ps.state.value), again); }
    var s2 := if ps.strength.None? then s1 else ServicePropertyChanged(s1, path, Strength(ps.strength.value), []);
    if ps.strength.Some? {
      PropertyNewer(s1, path, Strength(ps.strength.value), []);
      NewerThenNewer(s, s1, s2);
    }
    if ps.error.Some? {
      PropertyNewer(s2, path, ErrorProperty(ps.error.value), []);
      NewerThenNewer(s, s2, ServicePropertyChanged(s2, path, ErrorProperty(ps.error.value), []));
    }
  }

  lemma RegisteredNewer(s: State, path: string, success: bool, properties: Option<Properties>, again: seq<Configured>)
    ensures SameOrNewer(s, ServiceRegistered(s, path, success, properties, again))
  {
    SameIsNewer(s, s);
    SameIsNewer(s, TearDown(s, RegistrationFailed));
    if properties.Some? { InitialNewer(s, path, properties.value, again); }
    hide SameOrNewer, InitialProperties, TearDown, AnySelects, IsConnecting;
  }

  lemma TaskNewer(s: State, whitelist: set<string>, e: Event)
    requires RunsTask(e) && Enabled(s, e)
    ensures SameOrNewer(s, Step(s, whitelist, e))
  {
    hide ConnectToServiceError, ConnectAll;
    match e
    case TimerFires(proxy, again) => ErrorNewer(s.(tasks := s.tasks - multiset{Timeout(proxy)}), Some(proxy), again);
    case AnswerRuns(call, error, again) =>
      ConnectAllFrame(s.(tasks := s.tasks - multiset{Answer(call, error)}), again);
    case ListenersRun(online, again) =>
      ConnectAllFrame(NotifyListeners(s.(tasks := s.tasks - multiset{Notify(online)})), again);
  }

  lemma ConnectNewer(s: State, configured: Configured)
    ensures SameOrNewer(s, Connect(s, configured))
  {
  }

  lemma DeviceNewer(s: State, device: string, path: string, read: Option<string>)
    ensures SameOrNewer(s, DeviceSelected(s, device, path, read))
  {
    hide IsValidPath, Aggregate, MapState;
  }

  lemma ListNewer(s: State, whitelist: set<string>, list: seq<Listed>)
    ensures SameOrNewer(s, DeviceListChanged(s, whitelist, list))
  {
    hide ValidPrefix, WithNewDevices, OnlyListed, Aggregate;
  }

  lemma ForgetNewer(s: State)
    ensures SameOrNewer(s, Forget(s))
  {
  }

  lemma StepNewer(s: State, whitelist: set<string>, e: Event)
    ensures SameOrNewer(s, Step(s, whitelist, e))
  {
    SameIsNewer(s, s);
    if Enabled(s, e) && RunsTask(e) { TaskNewer(s, whitelist, e); }
    hide SameOrNewer, ServicePropertyChanged, ServiceRegistered, Connect, DeviceSelected, DeviceListChanged, Forget;
    if Enabled(s, e) && !RunsTask(e) {
      match e
      case ConnectCalled(configured) => ConnectNewer(s, configured);
      case ListenerAdded(listener) => SameIsNewer(s, Step(s, whitelist, e));
      case OwnerLost => ForgetNewer(s);
      case OwnerChanged(reply) =>
        ForgetNewer(s);
        if reply.Some? {
          ListNewer(Forget(s), whitelist, reply.value);
          NewerThenNewer(s, Forget(s), DeviceListChanged(Forget(s), whitelist, reply.value));
        }
      case DevicesListed(list) => ListNewer(s, whitelist, list);
      case ServiceSelected(device, path, read) => DeviceNewer(s, device, path, read);
      case ServiceSignal(path, property, again) => PropertyNewer(s, path, property, again);
      case ServiceWatched(path, success, properties, again) => RegisteredNewer(s, path, success, properties, again);
    }
  }

  // The attempt for this proxy is over.
  predicate Over(s: State, p: Proxy) {
    p.id < s.proxies && s.attempt.connecting != Some(p)
  }

  lemma StaysOver(s: State, whitelist: set<string>, e: Event, p: Proxy)
    requires Over(s, p)
    ensures Over(Step(s, whitelist, e), p)
  {
    StepNewer(s, whitelist, e);
    hide Step;
  }

  lemma RunUnfolds(whitelist: set<string>, events: seq<Event>)
    requires events != []
    ensures Run(whitelist, events) == Step(Run(whitelist, events[..|events| - 1]), whitelist, events[|events| - 1])
  {
    hide Step;
  }

  lemma LastStep(whitelist: set<string>, before: seq<Event>, after: seq<Event>)
    requires after != []
    ensures Run(whitelist, before + after) ==
            Step(Run(whitelist, before + after[..|after| - 1]), whitelist, after[|after| - 1])
  {
    hide Run, Step;
    RunUnfolds(whitelist, before + after);
    assert (before + after)[..|before + after| - 1] == before + after[..|after| - 1];
  }

  /**
   Once the attempt for a proxy is over it never comes back, not even when the same service path is configured
   again; so (with StaleTimerIsHarmless) its timer can never disturb a later attempt.
   */
  lemma {:induction false} FinishedStaysFinished(whitelist: set<string>, before: seq<Event>, after: seq<Event>, p: Proxy)
    requires Over(Run(whitelist, before), p)
    ensures Over(Run(whitelist, before + after), p)
    decreases |after|
  {
    hide Run, Step, Over;
    if after == [] {
      assert before + after == before;
    } else {
      var n := |after| - 1;
      FinishedStaysFinished(whitelist, before, after[..n], p);
      LastStep(whitelist, before, after);
      StaysOver(Run(whitelist, before + after[..n]), whitelist, after[n], p);
    }
  }
}
