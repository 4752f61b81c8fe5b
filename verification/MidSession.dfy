/**
 A run of the protocol in which a client registers its listener while a pairing
 session is exposed, and so never hears of that session.
 */
module MidSession {
  import opened Fields
  import opened Instance
  import opened Protocol
  import Coherence

  const SESSION := Pairing("session", "pinCode", "1234")

  const LATE_RUN: seq<Event> := [
    DaemonStarts, DeviceCreated, PairingChanged(Start(SESSION)), Subscribe, PairingListenerSet(0, true),
    TryConnecting(0, true, true), ListenerHandled(0, 1)]

  lemma LateStep(k: nat)
    requires k < |LATE_RUN|
    ensures Run(LATE_RUN[..k + 1]) == Step(Run(LATE_RUN[..k]), LATE_RUN[k])
  {
    assert LATE_RUN[..k + 1][..k] == LATE_RUN[..k];
    hide Step;
  }

  // The daemon exposes the session; nobody listens yet.
  predicate Exposing(h: Host) {
    h.alive && h.lifetime == 1 && Exposed(h.m.values) == SESSION && h.m.listeners == {} && h.m.pending == []
  }

  predicate Empty(s: System, h: Host) {
    s.peers == [] && s.subscriptions == [] && s.host == h
  }

  const STARTED := Host(true, 1, Daemon.FRESH, {})

  const READY := Host(true, 1, Daemon.FRESH.(device := true), {})

  lemma Starts(s: System)
    requires s == INITIAL
    ensures Empty(Step(s, DaemonStarts), STARTED)
  {
  }

  lemma CreatesDevice(s: System)
    requires Empty(s, STARTED)
    ensures Empty(Step(s, DeviceCreated), READY)
  {
    assert Daemon.CreateDevice(Daemon.FRESH) == READY.m;
  }

  lemma StartsSession(s: System)
    requires Empty(s, READY)
    ensures var t := Step(s, PairingChanged(Start(SESSION)));
            t.peers == [] && t.subscriptions == [] && Exposing(t.host)
  {
    PairingStep(READY.m.values, Start(SESSION));
    hide AfterPairing, PairingNote;
  }

  lemma SessionExposed()
    ensures Run(LATE_RUN[..3]).peers == [] && Run(LATE_RUN[..3]).subscriptions == [] && Exposing(Run(LATE_RUN[..3]).host)
  {
    assert Run(LATE_RUN[..0]) == INITIAL by { EmptyRun(); }
    hide Run, Step, Empty, Exposing;
    LateStep(0);
    LateStep(1);
    LateStep(2);
    Starts(Run(LATE_RUN[..0]));
    CreatesDevice(Run(LATE_RUN[..1]));
    StartsSession(Run(LATE_RUN[..2]));
  }

  lemma EmptyRun()
    ensures Run(LATE_RUN[..0]) == INITIAL
  {
    assert LATE_RUN[..0] == [];
    hide Step;
  }

  // A single client in the given state.
  predicate Alone(s: System, p: Peer) {
    s.peers == [p] && Exposing(s.host)
  }

  lemma Subscribes(s: System)
    requires s.peers == [] && s.subscriptions == [] && Exposing(s.host)
    ensures Alone(Step(s, Subscribe), NewPeer(0))
  {
  }

  const WAITING := NewPeer(0).(inst := SetListener(Instance.FRESH, true))

  lemma SetsListener(s: System)
    requires Alone(s, NewPeer(0))
    ensures Alone(Step(s, PairingListenerSet(0, true)), WAITING)
  {
  }

  const TRIED := OnTryConnecting(WAITING, STARTED, true, true)

  lemma Tries(s: System)
    requires Alone(s, WAITING)
    ensures Alone(Step(s, TryConnecting(0, true, true)), TRIED)
  {
  }

  lemma Registers(s: System)
    requires Alone(s, TRIED)
    ensures var t := Step(s, ListenerHandled(0, 1));
            && |t.peers| == 1 && t.peers[0].inst == TRIED.inst && Coherence.Drained(t, 0)
            && t.peers[0].sync.changed == {} && Exposed(t.host.m.values) == SESSION
  {
  }

  /** A complete session is exposed and nothing is on its way, yet the client holds nothing and reported nothing. */
  lemma LateListenerHearsNothing()
    ensures var s := Run(LATE_RUN);
            && |s.peers| == 1 && Coherence.Drained(s, 0) && Exposed(s.host.m.values) == SESSION && Complete(SESSION)
            && s.peers[0].inst.listening && s.peers[0].inst.pairing == NO_PAIRING && s.peers[0].inst.lastReport == NoReport
  {
    hide Run, Step, Alone, Exposing, Coherence.Drained;
    SessionExposed();
    LateStep(3);
    LateStep(4);
    LateStep(5);
    LateStep(6);
    Subscribes(Run(LATE_RUN[..3]));
    SetsListener(Run(LATE_RUN[..4]));
    Tries(Run(LATE_RUN[..5]));
    Registers(Run(LATE_RUN[..6]));
    assert LATE_RUN[..7] == LATE_RUN;
  }
}
