/**
 Which error a failed Wi-Fi attempt of ShillClient reports, over every run. The
 last error text outlives the attempt it was signalled for, so a later attempt
 may report it; this says exactly when.
 */
module ShillErrors {
  import opened Base
  import opened Shill
  import A = ShillAttempts

  function LastText(errors: seq<ErrorSignal>): string {
    if errors == [] then "" else errors[|errors| - 1].text
  }

  predicate SignalledDuring(errors: seq<ErrorSignal>, p: Proxy) {
    exists k :: 0 <= k < |errors| && errors[k].during == p
  }

  // The stored text is that of the last signal, and the signals of the attempt under way are the last ones.
  predicate ErrorsOk(s: State) {
    && s.attempt.error == LastText(s.errors)
    && (forall k :: 0 <= k < |s.errors| ==> s.errors[k].during.id < s.proxies)
    && (s.attempt.connecting.Some? && SignalledDuring(s.errors, s.attempt.connecting.value) ==>
          s.errors[|s.errors| - 1].during == s.attempt.connecting.value)
  }

  // ---- steps that bring no error signal ----

  predicate SameErrors(s: State, t: State) {
    t.errors == s.errors && t.attempt.error == s.attempt.error
  }

  lemma NoSignalKeeps(s: State, t: State)
    requires ErrorsOk(s) && SameErrors(s, t) && A.SameOrNewer(s, t)
    ensures ErrorsOk(t)
  {
  }

  lemma {:induction false} ConnectAllErrors(s: State, again: seq<Configured>)
    ensures SameErrors(s, ConnectAll(s, again)) && s.answers <= ConnectAll(s, again).answers
    decreases |again|
  {
    if again == [] {
    } else {
      ConnectAllErrors(Connect(s, again[0]), again[1..]); }
  }

  lemma CallbackErrors(s: State, call: Option<nat>, error: Option<string>, again: seq<Configured>)
    ensures SameErrors(s, RunCallback(s, call, error, again))
    ensures s.answers <= RunCallback(s, call, error, again).answers
    ensures call.Some? ==> s.answers + [Answered(call.value, error)] <= RunCallback(s, call, error, again).answers
  {
    if call.Some? { ConnectAllErrors(s.(answers := s.answers + [Answered(call.value, error)]), again); }
  }

  // The text with which the attempt under way is answered when it fails now.
  function FailureText(s: State): string {
    if !s.attempt.calledConnect then OUT_OF_RANGE
    else if s.attempt.error == "" then INTERNAL_ERROR
    else s.attempt.error
  }

  lemma ServiceErrorAnswers(s: State, proxy: Option<Proxy>, again: seq<Configured>)
    ensures SameErrors(s, ConnectToServiceError(s, proxy, again))
    ensures s.answers <= ConnectToServiceError(s, proxy, again).answers
    ensures s.attempt.callback.Some? && proxy == s.attempt.connecting ==>
              s.answers + [Answered(s.attempt.callback.value, Some(FailureText(s)))] <=
              ConnectToServiceError(s, proxy, again).answers
  {
    CallbackErrors(Cleanup(s), s.attempt.callback, Some(FailureText(s)), again);
    hide RunCallback;
  }

  lemma StateErrors(s: State, path: string, state: string, again: seq<Configured>)
    ensures var t := ServicePropertyChanged(s, path, StateProperty(state), again);
            && SameErrors(s, t) && s.answers <= t.answers
            && (A.AttemptOk(s) && IsConnecting(s, path) && MapState(state) == Error ==>
                  s.answers + [Answered(s.attempt.callback.value, Some(FailureText(s)))] <= t.answers)
  {
    if state != "" {
      var s1 := SelectedStateChanged(s, path, state);
      assert SameErrors(s, s1) && s1.answers == s.answers && s1.attempt == s.attempt;
      CallbackErrors(Cleanup(s1), s1.attempt.callback, None, again);
      ServiceErrorAnswers(s1, s1.attempt.connecting, again);
      hide SelectedStateChanged, RunCallback, ConnectToServiceError;
    }
  }

  // ---- the invariant over every run ----

  lemma ErrorKeeps(s: State, error: string)
    requires ErrorsOk(s) && s.attempt.connecting.Some? && s.attempt.connecting.value.id < s.proxies
    ensures ErrorsOk(ErrorChanged(s, error))
  {
  }

  lemma AttemptIsNumbered(s: State)
    requires A.AttemptInv(s) && s.attempt.connecting.Some?
    ensures s.attempt.connecting.value.id < s.proxies
  {
  }

  lemma PropertyKeeps(s: State, path: string, property: Property, again: seq<Configured>)
    requires ErrorsOk(s) && A.AttemptInv(s)
    ensures ErrorsOk(ServicePropertyChanged(s, path, property, again))
  {
    A.PropertyNewer(s, path, property, again);
    if property.StateProperty? {
      StateErrors(s, path, property.state, again);
      hide ServicePropertyChanged, ErrorsOk;
      NoSignalKeeps(s, ServicePropertyChanged(s, path, property, again));
    } else if property.ErrorProperty? && IsConnecting(s, path) {
      AttemptIsNumbered(s);
      ErrorKeeps(s, property.error);
    } else {
      NoSignalKeeps(s, ServicePropertyChanged(s, path, property, again));
    }
  }

  lemma InitialKeeps(s: State, path: string, ps: Properties, again: seq<Configured>)
    requires ErrorsOk(s) && A.AttemptInv(s)
    ensures ErrorsOk(InitialProperties(s, path, ps, again))
  {
    hide ServicePropertyChanged, ErrorsOk, A.AttemptInv;
    var s1 := if ps.state.None? then s else ServicePropertyChanged(s, path, StateProperty(ps.state.value), again);
    if ps.state.Some? {
      PropertyKeeps(s, path, StateProperty(ps.state.value), again);
      A.PropertyKeeps(s, path, StateProperty(ps.state.value), again);
    }
    var s2 := if ps.strength.None? then s1 else ServicePropertyChanged(s1, path, Strength(ps.strength.value), []);
    if ps.strength.Some? {
      PropertyKeeps(s1, path, Strength(ps.strength.value), []);
      A.PropertyKeeps(s1, path, Strength(ps.strength.value), []);
    }
    if ps.error.Some? { PropertyKeeps(s2, path, ErrorProperty(ps.error.value), []); }
  }

  lemma RegisteredKeeps(s: State, path: string, success: bool, properties: Option<Properties>, again: seq<Configured>)
    requires ErrorsOk(s) && A.AttemptInv(s)
    ensures ErrorsOk(ServiceRegistered(s, path, success, properties, again))
  {
    NoSignalKeeps(s, TearDown(s, RegistrationFailed));
    if properties.Some? { InitialKeeps(s, path, properties.value, again); }
    hide ErrorsOk, InitialProperties, TearDown, AnySelects, IsConnecting;
  }

  lemma TaskErrors(s: State, whitelist: set<string>, e: Event)
    requires A.RunsTask(e) && Enabled(s, e)
    ensures SameErrors(s, Step(s, whitelist, e))
  {
    hide ConnectAll, ConnectToServiceError;
    match e
    case TimerFires(proxy, again) =>
      ServiceErrorAnswers(s.(tasks := s.tasks - multiset{Timeout(proxy)}), Some(proxy), again);
    case AnswerRuns(call, error, again) =>
      ConnectAllErrors(s.(tasks := s.tasks - multiset{Answer(call, error)}), again);
    case ListenersRun(online, again) =>
      ConnectAllErrors(NotifyListeners(s.(tasks := s.tasks - multiset{Notify(online)})), again);
  }

  lemma ConnectErrors(s: State, configured: Configured)
    ensures SameErrors(s, Connect(s, configured))
  {
  }

  lemma ForgetErrors(s: State)
    ensures SameErrors(s, Forget(s))
  {
  }

  lemma OtherStepsErrors(s: State, whitelist: set<string>, e: Event)
    requires !e.ServiceSignal? && !e.ServiceWatched?
    ensures SameErrors(s, Step(s, whitelist, e))
  {
    if Enabled(s, e) && A.RunsTask(e) { TaskErrors(s, whitelist, e); }
    hide Connect, DeviceSelected, DeviceListChanged, Forget;
    if Enabled(s, e) && !A.RunsTask(e) {
      match e
      case ConnectCalled(configured) => ConnectErrors(s, configured);
      case OwnerLost => ForgetErrors(s);
      case OwnerChanged(reply) =>
        ForgetErrors(s);
        if reply.Some? { ListErrors(Forget(s), whitelist, reply.value); }
      case DevicesListed(list) => ListErrors(s, whitelist, list);
      case ServiceSelected(device, path, read) => SelectionErrors(s, device, path, read);
      case ListenerAdded(_) =>
    }
  }

  lemma ListErrors(s: State, whitelist: set<string>, list: seq<Listed>)
    ensures SameErrors(s, DeviceListChanged(s, whitelist, list))
  {
    hide ValidPrefix, WithNewDevices, OnlyListed, Aggregate;
  }

  lemma SelectionErrors(s: State, device: string, path: string, read: Option<string>)
    ensures SameErrors(s, DeviceSelected(s, device, path, read))
  {
    hide IsValidPath, Aggregate, MapState;
  }

  lemma StepKeeps(s: State, whitelist: set<string>, e: Event)
    requires ErrorsOk(s) && A.AttemptInv(s)
    ensures ErrorsOk(Step(s, whitelist, e))
  {
    hide ErrorsOk, A.AttemptInv, ServicePropertyChanged, ServiceRegistered;
    if e.ServiceSignal? {
      PropertyKeeps(s, e.path, e.property, e.again);
    } else if e.ServiceWatched? {
      RegisteredKeeps(s, e.path, e.success, e.properties, e.again);
    } else {
      OtherStepsErrors(s, whitelist, e);
      A.StepNewer(s, whitelist, e);
      hide Step;
      NoSignalKeeps(s, Step(s, whitelist, e));
    }
  }

  lemma {:induction false} RunKeeps(whitelist: set<string>, events: seq<Event>)
    ensures ErrorsOk(Run(whitelist, events))
  {
    if events == [] {
    } else {
      var before := events[..|events| - 1];
      A.RunUnfolds(whitelist, events);
      hide Run, Step, ErrorsOk, A.AttemptInv;
      RunKeeps(whitelist, before);
      A.RunKeeps(whitelist, before);
      StepKeeps(Run(whitelist, before), whitelist, events[|events| - 1]);
    }
  }

  // ---- which error is reported ----

  // The events with which the attempt under way fails: its timer, or a failure state, signalled or read.
  predicate Fails(s: State, e: Event) {
    match e
    case TimerFires(proxy, _) => s.attempt.connecting == Some(proxy)
    case ServiceSignal(path, property, _) =>
      IsConnecting(s, path) && property.StateProperty? && MapState(property.state) == Error
    case ServiceWatched(path, success, properties, _) =>
      && IsConnecting(s, path) && success && properties.Some? && properties.value.state.Some?
      && MapState(properties.value.state.value) == Error
    case _ => false
  }

  lemma AnswersGrow(s: State, path: string, property: Property)
    requires !property.StateProperty?
    ensures ServicePropertyChanged(s, path, property, []).answers == s.answers
  {
  }

  lemma FailureAnswers(s: State, whitelist: set<string>, e: Event)
    requires A.AttemptOk(s) && Fails(s, e)
    ensures s.answers + [Answered(s.attempt.callback.value, Some(FailureText(s)))] <= Step(s, whitelist, e).answers
  {
    match e
    case TimerFires(proxy, again) =>
      ServiceErrorAnswers(s.(tasks := s.tasks - multiset{Timeout(proxy)}), Some(proxy), again);
      hide ConnectToServiceError;
    case ServiceSignal(path, property, again) =>
      StateErrors(s, path, property.state, again);
      hide ServicePropertyChanged;
    case ServiceWatched(path, success, properties, again) =>
      var ps := properties.value;
      StateErrors(s, path, ps.state.value, again);
      var s1 := ServicePropertyChanged(s, path, StateProperty(ps.state.value), again);
      var s2 := if ps.strength.None? then s1 else ServicePropertyChanged(s1, path, Strength(ps.strength.value), []);
      if ps.strength.Some? { AnswersGrow(s1, path, Strength(ps.strength.value)); }
      if ps.error.Some? { AnswersGrow(s2, path, ErrorProperty(ps.error.value)); }
      hide ServicePropertyChanged, AnySelects, MapState;
  }

  /**
   A failed attempt reports the error signalled for an earlier one exactly when no error was signalled during
   it, the one left over is not empty, and Connect had been called for it or the text happens to be the one for
   services out of range.
   */
  lemma {:induction false} ForeignErrorExactly(whitelist: set<string>, events: seq<Event>, e: Event)
    requires Fails(Run(whitelist, events), e)
    ensures var s, t := Run(whitelist, events), Step(Run(whitelist, events), whitelist, e);
            && s.attempt.callback.Some? && |t.answers| > |s.answers|
            && var answer, p := t.answers[|s.answers|], s.attempt.connecting.value;
            && answer.call == s.attempt.callback.value
            && ((s.errors != [] && s.errors[|s.errors| - 1].during != p &&
                 answer.error == Some(s.errors[|s.errors| - 1].text))
                <==>
                (!SignalledDuring(s.errors, p) && s.attempt.error != "" &&
                 (s.attempt.calledConnect || s.attempt.error == OUT_OF_RANGE)))
  {
    RunKeeps(whitelist, events);
    A.RunKeeps(whitelist, events);
    var s := Run(whitelist, events);
    FailureAnswers(s, whitelist, e);
    hide Run, Step, A.Conserved;
    if s.errors != [] && s.errors[|s.errors| - 1].during == s.attempt.connecting.value {
      assert SignalledDuring(s.errors, s.attempt.connecting.value);
    }
    var answer := Answered(s.attempt.callback.value, Some(FailureText(s)));
    assert (s.answers + [answer])[|s.answers|] == answer;
  }

  // ---- a run in which that happens ----

  const LEFTOVER_RUN: seq<Event> := [
    ConnectCalled(Path("/s")),
    ServiceSignal("/s", ErrorProperty("bad-passphrase"), []),
    ServiceSignal("/s", StateProperty("failure"), []),
    ConnectCalled(Path("/t")),
    ServiceSignal("/t", Strength(1), []),
    ServiceSignal("/t", StateProperty("failure"), [])]

  ghost predicate Stage(s: State, attempt: Attempt, answers: seq<Answered>) {
    s.devices == map[] && s.attempt == attempt && s.answers == answers && s.calls == s.proxies
  }

  lemma Starts(s: State, error: string, answers: seq<Answered>, path: string)
    requires Stage(s, Attempt(None, None, false, error), answers)
    ensures Stage(Connect(s, Path(path)), Attempt(Some(Proxy(s.calls, path)), Some(s.calls), false, error), answers)
    ensures Connect(s, Path(path)).calls == s.calls + 1
  {
  }

  lemma Signals(s: State, p: Proxy, call: nat, called: bool, error: string, answers: seq<Answered>, e: Event)
    requires Stage(s, Attempt(Some(p), Some(call), called, error), answers)
    requires e.ServiceSignal? && e.path == p.path && e.again == []
    ensures var t := ServicePropertyChanged(s, e.path, e.property, []);
            && t.calls == s.calls
            && (e.property.ErrorProperty? ==> Stage(t, Attempt(Some(p), Some(call), called, e.property.error), answers))
            && (e.property == Strength(1) ==> Stage(t, Attempt(Some(p), Some(call), true, error), answers))
            && (e.property == StateProperty("failure") ==>
                  Stage(t, Attempt(None, None, false, error), answers + [Answered(call, Some(FailureText(s)))]))
  {
  }

  lemma LeftoverStep(k: nat)
    requires k < |LEFTOVER_RUN|
    ensures Run({}, LEFTOVER_RUN[..k + 1]) == Step(Run({}, LEFTOVER_RUN[..k]), {}, LEFTOVER_RUN[k])
  {
    assert LEFTOVER_RUN[..k + 1][..k] == LEFTOVER_RUN[..k];
    hide Step;
  }

  lemma ConnectStep(s: State, path: string)
    ensures Step(s, {}, ConnectCalled(Path(path))) == Connect(s, Path(path))
  {
    hide Connect;
  }

  lemma SignalStep(s: State, path: string, property: Property)
    ensures Step(s, {}, ServiceSignal(path, property, [])) == ServicePropertyChanged(s, path, property, [])
  {
    hide ServicePropertyChanged;
  }

  lemma NothingYet()
    ensures Stage(Run({}, LEFTOVER_RUN[..0]), Attempt(None, None, false, ""), []) && Run({}, LEFTOVER_RUN[..0]).calls == 0
  {
    assert LEFTOVER_RUN[..0] == [];
    hide Step;
  }

  lemma FirstError()
    ensures Stage(Run({}, LEFTOVER_RUN[..2]), Attempt(Some(Proxy(0, "/s")), Some(0), false, "bad-passphrase"), [])
    ensures Run({}, LEFTOVER_RUN[..2]).calls == 1
  {
    hide Run, Step, Connect, ServicePropertyChanged, Stage;
    NothingYet();
    LeftoverStep(0);
    ConnectStep(Run({}, LEFTOVER_RUN[..0]), "/s");
    Starts(Run({}, LEFTOVER_RUN[..0]), "", [], "/s");
    LeftoverStep(1);
    SignalStep(Run({}, LEFTOVER_RUN[..1]), "/s", ErrorProperty("bad-passphrase"));
    Signals(Run({}, LEFTOVER_RUN[..1]), Proxy(0, "/s"), 0, false, "", [],
            ServiceSignal("/s", ErrorProperty("bad-passphrase"), []));
  }

  lemma FirstAttempt()
    ensures Stage(Run({}, LEFTOVER_RUN[..3]), Attempt(None, None, false, "bad-passphrase"),
                  [Answered(0, Some(OUT_OF_RANGE))])
    ensures Run({}, LEFTOVER_RUN[..3]).calls == 1
  {
    hide Run, Step, ServicePropertyChanged, Stage;
    FirstError();
    var s := Run({}, LEFTOVER_RUN[..2]);
    LeftoverStep(2);
    SignalStep(s, "/s", StateProperty("failure"));
    Signals(s, Proxy(0, "/s"), 0, false, "bad-passphrase", [], ServiceSignal("/s", StateProperty("failure"), []));
    NotCalled(s, Proxy(0, "/s"), "bad-passphrase");
    var none: seq<Answered> := [];
    assert none + [Answered(0, Some(OUT_OF_RANGE))] == [Answered(0, Some(OUT_OF_RANGE))];
  }

  lemma NotCalled(s: State, p: Proxy, error: string)
    requires Stage(s, Attempt(Some(p), Some(0), false, error), [])
    ensures FailureText(s) == OUT_OF_RANGE
  {
  }

  lemma SecondAttempt()
    ensures Stage(Run({}, LEFTOVER_RUN[..5]), Attempt(Some(Proxy(1, "/t")), Some(1), true, "bad-passphrase"),
                  [Answered(0, Some(OUT_OF_RANGE))])
  {
    hide Run, Step, Connect, ServicePropertyChanged, Stage;
    FirstAttempt();
    var first := [Answered(0, Some(OUT_OF_RANGE))];
    LeftoverStep(3);
    ConnectStep(Run({}, LEFTOVER_RUN[..3]), "/t");
    Starts(Run({}, LEFTOVER_RUN[..3]), "bad-passphrase", first, "/t");
    LeftoverStep(4);
    SignalStep(Run({}, LEFTOVER_RUN[..4]), "/t", Strength(1));
    Signals(Run({}, LEFTOVER_RUN[..4]), Proxy(1, "/t"), 1, false, "bad-passphrase", first,
            ServiceSignal("/t", Strength(1), []));
  }

  lemma SecondFails(s: State)
    requires Stage(s, Attempt(Some(Proxy(1, "/t")), Some(1), true, "bad-passphrase"), [Answered(0, Some(OUT_OF_RANGE))])
    ensures ServicePropertyChanged(s, "/t", StateProperty("failure"), []).answers ==
            [Answered(0, Some(OUT_OF_RANGE)), Answered(1, Some("bad-passphrase"))]
  {
    var e := ServiceSignal("/t", StateProperty("failure"), []);
    Signals(s, Proxy(1, "/t"), 1, true, "bad-passphrase", [Answered(0, Some(OUT_OF_RANGE))], e);
    hide ServicePropertyChanged;
  }

  /** The second call is told of the wrong passphrase that was the trouble of the first one. */
  lemma LeftoverReported()
    ensures Run({}, LEFTOVER_RUN).answers == [Answered(0, Some(OUT_OF_RANGE)), Answered(1, Some("bad-passphrase"))]
  {
    hide Run, Step, ServicePropertyChanged, Stage;
    SecondAttempt();
    LeftoverStep(5);
    SignalStep(Run({}, LEFTOVER_RUN[..5]), "/t", StateProperty("failure"));
    SecondFails(Run({}, LEFTOVER_RUN[..5]));
    assert LEFTOVER_RUN[..6] == LEFTOVER_RUN;
 
    }
}
