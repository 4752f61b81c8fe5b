/**
 A run of the protocol in which a second pairing session starts between the
 fetches of a client, whose callback is then told a triple that was never
 exposed. By Coherence.TornReportIsRepaired the correction is on its way.
 */
module TornRead {
  import opened Base
  import opened Fields
  import opened Instance
  import opened Protocol
  import Coherence
  import Reconnection

  const FIRST := Pairing("first", "pinCode", "1111")

  const SECOND := Pairing("second", "embeddedCode", "2222")

  const MIXED := Pairing("first", "embeddedCode", "2222")

  const IDS := [PAIRING_SESSION_ID, PAIRING_MODE, PAIRING_CODE]

  const TORN_RUN: seq<Event> := [
    DaemonStarts, DeviceCreated, Subscribe, PairingListenerSet(0, true), TryConnecting(0, true, true),
    ListenerHandled(0, 1), PairingChanged(Start(FIRST)), NotificationBegins(0, IDS), FieldRead(0, true),
    PairingChanged(Start(SECOND)), FieldRead(0, true), FieldRead(0, true), NotificationEnds(0)]

  lemma TornStep(k: nat)
    requires k < |TORN_RUN|
    ensures Run(TORN_RUN[..k + 1]) == Step(Run(TORN_RUN[..k]), TORN_RUN[k])
  {
    assert TORN_RUN[..k + 1][..k] == TORN_RUN[..k];
    hide Step;
  }

  // ---- a single client that listens ----

  // The daemon exposes x.
  predicate Exposing(h: Host, listeners: set<nat>, x: Pairing) {
    h.alive && h.lifetime == 1 && h.m.listeners == listeners && h.m.pending == [] && Exposed(h.m.values) == x
  }

  predicate Stage(s: System, inst: Instance.State, listeners: set<nat>, x: Pairing) {
    && |s.peers| == 1 && s.peers[0].life.alive && s.peers[0].inst == inst && s.peers[0].subscription == 0
    && Exposing(s.host, listeners, x)
  }

  const WAITING := SetListener(FRESH, true)

  const LISTENING := Connected(WAITING, 1)

  lemma Subscribes(s: System)
    requires s.peers == [] && s.subscriptions == [] && Exposing(s.host, {}, NO_PAIRING)
    ensures Stage(Step(s, Subscribe), FRESH, {}, NO_PAIRING) && Step(s, Subscribe).peers[0] == NewPeer(0)
  {
  }

  lemma SetsListener(s: System)
    requires Stage(s, FRESH, {}, NO_PAIRING) && s.peers[0] == NewPeer(0)
    ensures var t := Step(s, PairingListenerSet(0, true));
            Stage(t, WAITING, {}, NO_PAIRING) && t.peers[0] == NewPeer(0).(inst := WAITING)
  {
  }

  lemma Tries(s: System)
    requires Stage(s, WAITING, {}, NO_PAIRING) && s.peers[0] == NewPeer(0).(inst := WAITING)
    ensures var t := Step(s, TryConnecting(0, true, true));
            Stage(t, LISTENING, {}, NO_PAIRING) && t.peers[0].wire.register == multiset{1}
  {
  }

  lemma Registers(s: System)
    requires Stage(s, LISTENING, {}, NO_PAIRING) && s.peers[0].wire.register == multiset{1}
    ensures Stage(Step(s, ListenerHandled(0, 1)), LISTENING, {0}, NO_PAIRING)
  {
  }

  lemma StartNote(values: Values, pairing: Pairing)
    requires Exposed(values) == NO_PAIRING && Complete(pairing)
    ensures PairingNote(values, Start(pairing)) == IDS
  {
    var u := PairingUpdates(pairing);
    var v1 := values[PAIRING_SESSION_ID := pairing.sessionId];
    var v2 := v1[PAIRING_MODE := pairing.mode];
    assert u[1..] == [u[1], u[2]] && u[1..][1..] == [u[2]] && [u[2]][1..] == [];
    assert ChangedIds(v2, [u[2]]) == [PAIRING_CODE];
    assert ChangedIds(v1, [u[1], u[2]]) == [PAIRING_MODE, PAIRING_CODE];
  }

  lemma SessionStarts(s: System, inst: Instance.State, x: Pairing, y: Pairing)
    requires Stage(s, inst, {0}, x) && Complete(y)
    ensures var t := Step(s, PairingChanged(Start(y)));
            Stage(t, inst, {0}, y) && (x == NO_PAIRING ==> IDS in t.peers[0].wire.notes)
  {
    var e, h := PairingChanged(Start(y)), s.host;
    PairingStep(h.m.values, Start(y));
    if x == NO_PAIRING { StartNote(h.m.values, y); }
    assert HostStep(h, e).m == h.m.(values := AfterPairing(h.m.values, Start(y)));
    Reconnection.ReceiveFrame(s.peers[0], 0, h, e);
    hide AfterPairing, PairingNote, Exposed;
  }

  lemma Begins(s: System, inst: Instance.State, x: Pairing)
    requires Stage(s, inst, {0}, x) && IDS in s.peers[0].wire.notes && inst.reading.None?
    ensures Stage(Step(s, NotificationBegins(0, IDS)), BeginReading(inst, IDS), {0}, x)
  {
  }

  lemma Reads(s: System, inst: Instance.State, x: Pairing)
    requires Stage(s, inst, {0}, x) && inst.manager == Some(1)
    requires inst.reading.Some? && inst.reading.value.rest != [] && IsPairing(inst.reading.value.rest[0])
    ensures Stage(Step(s, FieldRead(0, true)), ReadNext(inst, Some(FieldOf(x, inst.reading.value.rest[0]))), {0}, x)
  {
    var e, h, id := FieldRead(0, true), s.host, inst.reading.value.rest[0];
    assert Get(h.m.values, id) == FieldOf(x, id);
    assert Act(s.peers[0], 0, h, e).inst == ReadNext(inst, Some(FieldOf(x, id)));
    assert HostStep(h, e) == h;
    Reconnection.ReceiveFrame(Act(s.peers[0], 0, h, e), 0, h, e);
    hide ReadNext, Exposed;
  }

  lemma Ends(s: System, inst: Instance.State, x: Pairing)
    requires Stage(s, inst, {0}, x) && inst.reading.Some? && inst.reading.value.rest == []
    ensures Stage(Step(s, NotificationEnds(0)), EndReading(inst), {0}, x)
  {
  }

  // ---- the run ----

  // What is exposed after k events.
  function ExposedAfter(k: nat): Pairing {
    if k <= 6 then NO_PAIRING else if k <= 9 then FIRST else SECOND
  }

  lemma Starts(s: System)
    requires s == INITIAL
    ensures Exposing(Step(s, DaemonStarts).host, {}, NO_PAIRING)
    ensures Step(s, DaemonStarts).peers == [] && Step(s, DaemonStarts).subscriptions == []
  {
  }

  lemma CreatesDevice(s: System)
    requires s.peers == [] && s.subscriptions == [] && Exposing(s.host, {}, NO_PAIRING)
    ensures Exposing(Step(s, DeviceCreated).host, {}, NO_PAIRING)
    ensures Step(s, DeviceCreated).peers == [] && Step(s, DeviceCreated).subscriptions == []
  {
  }

  ghost predicate Shows(k: nat)
    requires k <= |TORN_RUN|
  {
    Exposed(Run(TORN_RUN[..k]).host.m.values) == ExposedAfter(k)
  }

  lemma StageShows(k: nat, inst: Instance.State, listeners: set<nat>)
    requires k <= |TORN_RUN| && Stage(Run(TORN_RUN[..k]), inst, listeners, ExposedAfter(k))
    ensures Shows(k)
  {
    hide Run;
  }

  lemma EmptyRun()
    ensures Run(TORN_RUN[..0]) == INITIAL && Exposed(INITIAL.host.m.values) == NO_PAIRING
  {
    assert TORN_RUN[..0] == [];
    hide Step;
  }

  lemma Prelude()
    ensures Shows(0) && Shows(1) && Shows(2)
    ensures var s := Run(TORN_RUN[..2]); s.peers == [] && s.subscriptions == [] && Exposing(s.host, {}, NO_PAIRING)
  {
    hide Run, Step, Exposed;
    EmptyRun();
    TornStep(0);
    Starts(INITIAL);
    TornStep(1);
    CreatesDevice(Run(TORN_RUN[..1]));
  }

  lemma Listens()
    ensures Shows(3) && Shows(4) && Shows(5) && Shows(6)
    ensures Stage(Run(TORN_RUN[..6]), LISTENING, {0}, NO_PAIRING)
  {
    hide Run, Step, Stage, Exposing, Shows;
    Prelude();
    TornStep(2);
    Subscribes(Run(TORN_RUN[..2]));
    StageShows(3, FRESH, {});
    TornStep(3);
    SetsListener(Run(TORN_RUN[..3]));
    StageShows(4, WAITING, {});
    TornStep(4);
    Tries(Run(TORN_RUN[..4]));
    StageShows(5, LISTENING, {});
    TornStep(5);
    Registers(Run(TORN_RUN[..5]));
    StageShows(6, LISTENING, {0});
  }

  // The instance after its first fetch.
  const ONE_READ := LISTENING.(pairing := NO_PAIRING.(sessionId := "first"),
                               reading := Some(Reading([PAIRING_MODE, PAIRING_CODE], true)))

  lemma ReadsFirst()
    ensures Shows(7) && Shows(8) && Shows(9)
    ensures Stage(Run(TORN_RUN[..9]), ONE_READ, {0}, FIRST)
  {
    hide Run, Step, Stage, Shows;
    Listens();
    TornStep(6);
    SessionStarts(Run(TORN_RUN[..6]), LISTENING, NO_PAIRING, FIRST);
    StageShows(7, LISTENING, {0});
    TornStep(7);
    Begins(Run(TORN_RUN[..7]), LISTENING, FIRST);
    var begun := BeginReading(LISTENING, IDS);
    StageShows(8, begun, {0});
    TornStep(8);
    Reads(Run(TORN_RUN[..8]), begun, FIRST);
    assert IDS[1..] == [PAIRING_MODE, PAIRING_CODE];
    assert ReadNext(begun, Some("first")) == ONE_READ;
    StageShows(9, ONE_READ, {0});
  }

  const ALL_READ := LISTENING.(pairing := MIXED, reading := Some(Reading([], true)))

  lemma ReadsSecond()
    ensures Shows(10) && Shows(11) && Shows(12)
    ensures Stage(Run(TORN_RUN[..12]), ALL_READ, {0}, SECOND)
  {
    hide Run, Step, Stage, Shows;
    ReadsFirst();
    TornStep(9);
    SessionStarts(Run(TORN_RUN[..9]), ONE_READ, FIRST, SECOND);
    StageShows(10, ONE_READ, {0});
    TornStep(10);
    Reads(Run(TORN_RUN[..10]), ONE_READ, SECOND);
    var two := ReadNext(ONE_READ, Some("embeddedCode"));
    assert two.reading.value.rest == [PAIRING_CODE];
    StageShows(11, two, {0});
    TornStep(11);
    Reads(Run(TORN_RUN[..11]), two, SECOND);
    assert [PAIRING_CODE][1..] == [] && ReadNext(two, Some("2222")) == ALL_READ;
    StageShows(12, ALL_READ, {0});
  }

  lemma Reports()
    ensures Shows(13) && Stage(Run(TORN_RUN), EndReading(ALL_READ), {0}, SECOND)
  {
    hide Run, Step, Stage, Shows;
    ReadsSecond();
    TornStep(12);
    Ends(Run(TORN_RUN[..12]), ALL_READ, SECOND);
    StageShows(13, EndReading(ALL_READ), {0});
    assert TORN_RUN[..13] == TORN_RUN;
  }

  lemma AllShown(k: nat)
    requires k <= |TORN_RUN|
    ensures Shows(k)
  {
    hide Run, Step, Stage, Shows;
    Prelude();
    Listens();
    ReadsFirst();
    ReadsSecond();
    Reports();
  }

  /** The callback is told the session id of the first session with the mode and code of the second. */
  lemma MixedTripleReported()
    ensures var s := Run(TORN_RUN); |s.peers| == 1 && s.peers[0].inst.lastReport == InfoReport(MIXED)
    ensures forall k :: 0 <= k <= |TORN_RUN| ==> Exposed(Run(TORN_RUN[..k]).host.m.values) != MIXED
  {
    hide Run, Exposed;
    Reports();
    forall k | 0 <= k <= |TORN_RUN| ensures Exposed(Run(TORN_RUN[..k]).host.m.values) != MIXED {
      AllShown(k);
    }
  }
}
