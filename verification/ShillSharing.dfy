/**
 A run of ShillClient in which two devices share a service and one of them is
 left with a stale state, because taking over the connecting proxy tells the
 state to one device only.
 */
module ShillSharing {
  import opened Base
  import opened Shill
  import opened ShillDevices

  const STALE_RUN: seq<Event> := [
    DevicesListed([Listed("/a", None), Listed("/b", None)]),
    ServiceSelected("/a", "/s", None),
    ConnectCalled(Path("/s")),
    ServiceSignal("/s", StateProperty("association"), []),
    ServiceSelected("/b", "/s", Some("online"))]

  // How far the run has come: the states of the two devices, and whether "/s" is being connected.
  ghost predicate Stage(s: State, a: DeviceState, b: DeviceState, connecting: Option<Proxy>) {
    && s.devices == map["/a" := a, "/b" := b] && s.attempt.connecting == connecting
    && (connecting.None? ==> s.attempt == INITIAL.attempt)
  }

  function Chosen(id: nat, state: NetState): DeviceState {
    DeviceState(Some(Proxy(id, "/s")), state)
  }

  lemma ValidNames()
    ensures IsValidPath("/a") && IsValidPath("/b") && IsValidPath("/s")
  {
  }

  lemma ListLeavesAttempt(s: State, whitelist: set<string>, list: seq<Listed>)
    ensures DeviceListChanged(s, whitelist, list).attempt == s.attempt
    ensures DeviceListChanged(s, whitelist, list).proxies == s.proxies
  {
    hide WithNewDevices, OnlyListed, Aggregate, ValidPrefix;
  }

  lemma BothListed()
    ensures Stage(DeviceListChanged(INITIAL, {}, [Listed("/a", None), Listed("/b", None)]), NEW_DEVICE, NEW_DEVICE, None)
    ensures DeviceListChanged(INITIAL, {}, [Listed("/a", None), Listed("/b", None)]).proxies == 0
  {
    var list := [Listed("/a", None), Listed("/b", None)];
    ValidNames();
    ListLeavesAttempt(INITIAL, {}, list);
    hide IsValidPath, DeviceListChanged;
    assert list[0].path == "/a" && list[1].path == "/b";
    ValidListReconciles(INITIAL, {}, list);
    assert ListsMonitored({}, list, "/a") && ListsMonitored({}, list, "/b");
    var devices := DeviceListChanged(INITIAL, {}, list).devices;
    assert devices.Keys == {"/a", "/b"};
  }

  lemma FirstSelects(s: State)
    requires Stage(s, NEW_DEVICE, NEW_DEVICE, None) && s.proxies == 0
    ensures var t := DeviceSelected(s, "/a", "/s", None);
            Stage(t, Chosen(0, Offline), NEW_DEVICE, None) && t.proxies == 1
  {
    ValidNames();
    hide IsValidPath, Aggregate;
  }

  lemma Connects(s: State)
    requires Stage(s, Chosen(0, Offline), NEW_DEVICE, None) && s.proxies == 1
    ensures Stage(Connect(s, Path("/s")), Chosen(0, Offline), NEW_DEVICE, Some(Proxy(1, "/s")))
  {
  }

  lemma OnlyFirstSelects(devices: Devices, state: NetState)
    requires devices == map["/a" := Chosen(0, state), "/b" := NEW_DEVICE]
    ensures AnySelects(devices, "/s") && FirstSelecting(devices, "/s") == "/a"
  {
    LeqTotal("/a", "/a");
    assert Selects(devices["/a"], "/s") && !Selects(devices["/b"], "/s");
    hide Leq;
    FirstSelectingIs(devices, "/s", "/a");
  }

  lemma Associates(s: State)
    requires Stage(s, Chosen(0, Offline), NEW_DEVICE, Some(Proxy(1, "/s")))
    ensures var t := ServicePropertyChanged(s, "/s", StateProperty("association"), []);
            Stage(t, Chosen(0, Connecting), NEW_DEVICE, Some(Proxy(1, "/s")))
    ensures MissesNobody(s, ServiceSignal("/s", StateProperty("association"), []))
  {
    OnlyFirstSelects(s.devices, Offline);
    assert !Selects(s.devices["/b"], "/s");
    hide AnySelects, FirstSelecting, Aggregate;
  }

  lemma SecondTakesOver(s: State)
    requires Stage(s, Chosen(0, Connecting), NEW_DEVICE, Some(Proxy(1, "/s"))) && TableInv(s) && C.IdleIsOffline(s.devices)
    ensures var t := DeviceSelected(s, "/b", "/s", Some("online"));
            && Stage(t, Chosen(0, Connecting), Chosen(1, Online), Some(Proxy(1, "/s")))
            && LastSeen(t.log, "/a") == Online && !TableInv(t)
  {
    ValidNames();
    hide IsValidPath, Aggregate, LastSeen, SelectedBy, TableInv;
    var e := ServiceSelected("/b", "/s", Some("online"));
    SelectionHistory(s, "/b", "/s", Some("online"), "/a");
    SelectionCachedExactly(s, e);
    assert Selects(s.devices["/a"], "/s");
  }

  lemma StaleStep(k: nat)
    requires k < |STALE_RUN|
    ensures Run({}, STALE_RUN[..k + 1]) == Step(Run({}, STALE_RUN[..k]), {}, STALE_RUN[k])
  {
    assert STALE_RUN[..k + 1][..k] == STALE_RUN[..k];
    hide Step;
  }

  lemma RunAssociates()
    ensures Stage(Run({}, STALE_RUN[..4]), Chosen(0, Connecting), NEW_DEVICE, Some(Proxy(1, "/s")))
    ensures RightAt({}, STALE_RUN, 4)
  {
    hide Stage, DeviceListChanged, DeviceSelected, Connect, ServicePropertyChanged, MissesNobody, TableInv, Run;
    assert STALE_RUN[..0] == [] && Run({}, []) == INITIAL by { EmptyRun(); }
    StartsRight({}, STALE_RUN);
    forall k | 0 <= k < 4 ensures Run({}, STALE_RUN[..k + 1]) == Step(Run({}, STALE_RUN[..k]), {}, STALE_RUN[k]) {
      StaleStep(k);
    }
    BothListed();
    FirstSelects(Run({}, STALE_RUN[..1]));
    Connects(Run({}, STALE_RUN[..2]));
    Associates(Run({}, STALE_RUN[..3]));
    EarlyTableRight();
    hide Step;
    assert MissesNobodyAt({}, STALE_RUN, 3);
    NextRightExactly({}, STALE_RUN, 3);
  }

  lemma EmptyRun()
    ensures Run({}, []) == INITIAL
  {
  }

  lemma EarlyTableRight()
    ensures RightAt({}, STALE_RUN, 3)
  {
    StartsRight({}, STALE_RUN);
    hide RightAt, Run, Step;
    NextRightExactly({}, STALE_RUN, 0);
    NextRightExactly({}, STALE_RUN, 1);
    NextRightExactly({}, STALE_RUN, 2);
  }

  lemma Takeover()
    ensures Run({}, STALE_RUN) == DeviceSelected(Run({}, STALE_RUN[..4]), "/b", "/s", Some("online"))
  {
    hide Run, DeviceSelected;
    StaleStep(4);
    assert STALE_RUN[..5] == STALE_RUN;
  }

  /** The second device takes over the connecting proxy and finds it online; the first one stays connecting. */
  lemma TakeoverLeavesFirstStale()
    ensures RightAt({}, STALE_RUN, 4) && !RightAt({}, STALE_RUN, 5)
    ensures var s := Run({}, STALE_RUN);
            && s.devices == map["/a" := Chosen(0, Connecting), "/b" := Chosen(1, Online)]
            && LastSeen(s.log, "/a") == Online
  {
    RunAssociates();
    Takeover();
    C.RunKeeps({}, STALE_RUN[..4]);
    IdleDevices(Run({}, STALE_RUN[..4]));
    hide Run, TableInv, DeviceSelected, LastSeen, C.ReportInv, C.IdleIsOffline;
    SecondTakesOver(Run({}, STALE_RUN[..4]));
    assert STALE_RUN[..5] == STALE_RUN;
  }
}
