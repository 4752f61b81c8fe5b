/**
 Pairing information over every run of the protocol. A notification carries
 only field ids and each field is fetched by its own call, so a client may see
 fields of different sessions together; but a stale field always has a
 notification naming it still to be processed.
 */
module Coherence {
  import opened Fields
  import opened Instance
  import opened Protocol
  import Reconnection

  // A notification naming the field is undelivered, or delivered and not processed up to it.
  predicate Pending(p: Peer, id: int) {
    || (exists n :: n in p.wire.notes && id in n)
    || (p.inst.reading.Some? && id in p.inst.reading.value.rest)
  }

  predicate Synced(p: Peer, values: Values, id: int)
    requires IsPairing(id)
  {
    FieldOf(p.inst.pairing, id) == Get(values, id) || Pending(p, id)
  }

  // The fields about which the listener is promised to hear.
  predicate Followed(p: Peer, id: int) {
    (p.sync.fromEmpty || id in p.sync.changed) && id !in p.sync.failed
  }

  ghost predicate Coherent(p: Peer, values: Values) {
    forall id :: IsPairing(id) && Followed(p, id) ==> Synced(p, values, id)
  }

  predicate Unheard(p: Peer) {
    !p.sync.registered ==> p.inst.pairing == NO_PAIRING && p.wire.notes == multiset{} && p.inst.reading.None?
  }

  predicate Reported(p: Peer) {
    p.life.alive && (p.inst.reading.None? || !p.inst.reading.value.changed) ==> ReportUpToDate(p.inst)
  }

  ghost predicate PeerInv(p: Peer, j: nat, h: Host) {
    && (p.life.alive && j in h.m.listeners ==> Coherent(p, h.m.values))
    && Unheard(p) && Reported(p)
  }

  ghost predicate PairingInv(s: System) {
    forall j :: 0 <= j < |s.peers| ==> PeerInv(s.peers[j], j, s.host)
  }

  // ---- an event's own effect ----

  // Events other than these leave the client's copy and its notifications alone.
  predicate TouchesPairing(e: Event) {
    e.NotificationBegins? || e.FieldRead? || e.NotificationEnds? || e.PairingListenerSet? || e.ListenerHandled? ||
    e.Unsubscribe?
  }

  lemma ActLeavesPairing(p: Peer, j: nat, h: Host, e: Event)
    requires Possible(p, h, e) && !TouchesPairing(e)
    ensures var q := Act(p, j, h, e);
            && q.inst.pairing == p.inst.pairing && q.inst.reading == p.inst.reading && q.sync == p.sync
            && q.wire.notes == p.wire.notes && q.life.alive == p.life.alive
            && q.inst.listening == p.inst.listening && q.inst.lastReport == p.inst.lastReport
  {
  }

  lemma BeginningKeepsPending(p: Peer, ids: seq<int>, id: int)
    requires p.life.alive && ids in p.wire.notes && p.inst.reading.None? && Pending(p, id)
    ensures Pending(OnNotificationBegins(p, ids), id)
  {
    var q := OnNotificationBegins(p, ids);
    var n :| n in p.wire.notes && id in n;
    if n != ids { assert n in q.wire.notes; }
  }

  lemma ReadingKeepsCoherence(p: Peer, h: Host, ok: bool)
    requires p.inst.reading.Some? && p.inst.reading.value.rest != []
    requires Coherent(p, h.m.values)
    ensures Coherent(OnFieldRead(p, h, ok), h.m.values)
  {
    var q, rest := OnFieldRead(p, h, ok), p.inst.reading.value.rest;
    forall id | IsPairing(id) && Followed(q, id) ensures Synced(q, h.m.values, id) {
      if id != rest[0] {
        assert Followed(p, id);
        assert id in rest ==> id in rest[1..];
        assert q.wire.notes == p.wire.notes;
        assert FieldOf(q.inst.pairing, id) == FieldOf(p.inst.pairing, id);
      }
    }
  }

  // More notifications pending, the same copy and no more promises: still coherent.
  lemma CoherenceMonotone(p: Peer, q: Peer, values: Values)
    requires Coherent(p, values)
    requires q.inst.pairing == p.inst.pairing && q.sync == p.sync
    requires forall id :: Pending(p, id) ==> Pending(q, id)
    ensures Coherent(q, values)
  {
    hide Pending;
    assert forall id :: Followed(q, id) ==> Followed(p, id);
  }

  lemma {:induction false} ActKeepsCoherence(p: Peer, j: nat, h: Host, e: Event)
    requires Coherent(p, h.m.values) && Possible(p, h, e) && p.life.alive && j in h.m.listeners
    ensures Act(p, j, h, e).life.alive ==> Coherent(Act(p, j, h, e), h.m.values)
  {
    hide Coherent, Pending;
    var q := Act(p, j, h, e);
    if e.NotificationBegins? {
      assert q == OnNotificationBegins(p, e.ids);
      forall id | Pending(p, id) ensures Pending(q, id) { BeginningKeepsPending(p, e.ids, id); }
      CoherenceMonotone(p, q, h.m.values);
    } else if e.FieldRead? {
      assert q == OnFieldRead(p, h, e.ok);
      ReadingKeepsCoherence(p, h, e.ok);
    } else if q.life.alive {
      SamePairing(p, j, h, e);
      hide Act;
      CoherenceMonotone(p, q, h.m.values);
    }
  }

  lemma SamePairing(p: Peer, j: nat, h: Host, e: Event)
    requires Possible(p, h, e) && !e.NotificationBegins? && !e.FieldRead?
    requires Act(p, j, h, e).life.alive && j in h.m.listeners
    ensures Act(p, j, h, e).inst.pairing == p.inst.pairing
    ensures Act(p, j, h, e).sync == p.sync
    ensures forall id :: Pending(p, id) ==> Pending(Act(p, j, h, e), id)
  {
    var q := Act(p, j, h, e);
    if TouchesPairing(e) {
      assert q.wire.notes == p.wire.notes;
    } else {
      ActLeavesPairing(p, j, h, e);
      hide Act;
    }
  }

  // A listener that arrives while no pairing is exposed starts in step with the daemon.
  lemma RegistrationStartsCoherent(p: Peer, j: nat, h: Host, lifetime: nat)
    requires Unheard(p) && !p.sync.registered && h.alive && lifetime == h.lifetime && j !in h.m.listeners
    ensures Coherent(OnListenerHandled(p, j, h, lifetime), h.m.values)
  {
  }

  lemma ActKeepsReport(p: Peer, j: nat, h: Host, e: Event)
    requires Unheard(p) && Reported(p) && Reconnection.ListensOnce(p, j, h) && Possible(p, h, e)
    requires forall n :: n in p.wire.notes ==> p.sync.registered
    ensures Unheard(Act(p, j, h, e)) && Reported(Act(p, j, h, e))
  {
    if !TouchesPairing(e) {
      ActLeavesPairing(p, j, h, e);
      hide Act;
    }
  }

  lemma {:induction false} ActKeeps(p: Peer, j: nat, h: Host, e: Event)
    requires PeerInv(p, j, h) && Reconnection.ListensOnce(p, j, h) && Possible(p, h, e)
    requires AboutInstance(e) && e.i == j
    ensures PeerInv(Act(p, j, h, e), j, h)
    ensures h.alive && e == ListenerHandled(j, h.lifetime) ==> Coherent(Act(p, j, h, e), h.m.values)
  {
    ActKeepsReport(p, j, h, e);
    if p.life.alive && j in h.m.listeners { ActKeepsCoherence(p, j, h, e); }
    if h.alive && e == ListenerHandled(j, h.lifetime) && j !in h.m.listeners {
      assert h.lifetime in p.wire.register && !p.sync.registered;
      RegistrationStartsCoherent(p, j, h, h.lifetime);
    }
  }

  // ---- what every instance receives ----

  function ValuesAfter(values: Values, e: Event): Values {
    match e
    case SettingsChanged(settings) => Apply(values, ConfigUpdates(settings))
    case PairingChanged(event) => AfterPairing(values, event)
    case _ => values
  }

  lemma HostValues(h: Host, e: Event)
    requires h.alive && !e.DaemonStarts? && !e.DaemonDies?
    ensures HostStep(h, e).m.values == ValuesAfter(h.m.values, e)
  {
    hide Apply, AfterPairing, ConfigUpdates, Daemon.EmplaceAll;
  }

  // A field changes only together with a notification that names it.
  lemma ChangesAreAnnounced(h: Host, e: Event, id: int)
    requires h.alive
    ensures Get(ValuesAfter(h.m.values, e), id) != Get(h.m.values, id) ==> id in NoteOf(h, e)
  {
    if e.SettingsChanged? {
      ChangedIdsAreTheDifferences(h.m.values, ConfigUpdates(e.settings));
    } else if e.PairingChanged? {
      PairingNoteNamesTheChanges(h.m.values, e.event);
    }
    hide Apply, AfterPairing, ConfigUpdates, PairingNote, ChangedIds;
  }

  lemma NoteKeepsCoherence(p: Peer, note: seq<int>, values: Values, values': Values)
    requires Coherent(p, values)
    requires forall id :: Get(values', id) != Get(values, id) ==> id in note
    ensures Coherent(ReceiveNote(p, note), values')
  {
    var q := ReceiveNote(p, note);
    forall id | IsPairing(id) && Followed(q, id) ensures Synced(q, values', id) {
      if id in note {
        assert note in q.wire.notes;
      } else {
        assert Followed(p, id) && Synced(p, values, id);
        if n :| n in p.wire.notes && id in n { assert n in q.wire.notes; }
      }
    }
  }

  lemma SameValuesKeepCoherence(p: Peer, values: Values, values': Values)
    requires Coherent(p, values)
    requires forall id :: Get(values', id) == Get(values, id)
    ensures Coherent(p, values')
  {
    hide Pending;
  }

  lemma ReceiveWithoutNote(p: Peer, j: nat, h: Host, e: Event)
    requires NoteOf(h, e) == []
    ensures var q := Receive(p, j, h, e);
            q.inst == p.inst && q.sync == p.sync && q.wire.notes == p.wire.notes && q.life.alive == p.life.alive
  {
  }

  lemma {:induction false} ReceiveKeepsCoherence(p: Peer, j: nat, h: Host, e: Event)
    requires h.alive && !e.DaemonStarts? && !e.DaemonDies? && Coherent(p, h.m.values)
    requires j in h.m.listeners || NoteOf(h, e) == []
    ensures Coherent(Receive(p, j, h, e), HostStep(h, e).m.values)
  {
    HostValues(h, e);
    var note, values' := NoteOf(h, e), HostStep(h, e).m.values;
    forall id ensures Get(values', id) != Get(h.m.values, id) ==> id in note {
      ChangesAreAnnounced(h, e, id);
    }
    hide NoteOf, HostStep, Coherent, ValuesAfter;
    if note != [] {
      NoteKeepsCoherence(p, note, h.m.values, values');
      assert Receive(p, j, h, e) == ReceiveNote(p, note);
    } else {
      ReceiveWithoutNote(p, j, h, e);
      hide Receive;
      SameValuesKeepCoherence(p, h.m.values, values');
      CoherenceMonotone(p, Receive(p, j, h, e), values');
    }
  }

  lemma ReceiveKeepsReport(p: Peer, j: nat, h: Host, e: Event)
    requires Unheard(p) && Reported(p) && (j in h.m.listeners ==> p.sync.registered)
    ensures Unheard(Receive(p, j, h, e)) && Reported(Receive(p, j, h, e))
    ensures Receive(p, j, h, e).life.alive == p.life.alive
  {
    Reconnection.ReceiveFrame(p, j, h, e);
    if NoteOf(h, e) == [] || j !in h.m.listeners {
      assert Receive(p, j, h, e).wire.notes == p.wire.notes;
    }
  }

  lemma {:induction false} ReceiveKeeps(p: Peer, j: nat, h: Host, e: Event)
    requires PeerInv(p, j, h) && (j in h.m.listeners ==> p.sync.registered && h.alive)
    requires e.DaemonStarts? ==> !h.alive
    requires h.alive && e == ListenerHandled(j, h.lifetime) ==> Coherent(p, h.m.values)
    ensures PeerInv(Receive(p, j, h, e), j, HostStep(h, e))
  {
    ReceiveKeepsReport(p, j, h, e);
    Reconnection.HostListeners(h, e, j);
    if e.DaemonStarts? || e.DaemonDies? { HostLosesListeners(h, e); }
    hide Receive, HostStep, Coherent, Unheard, Reported;
    if p.life.alive && j in HostStep(h, e).m.listeners {
      ReceiveKeepsCoherence(p, j, h, e);
    }
  }

  lemma HostLosesListeners(h: Host, e: Event)
    requires e.DaemonStarts? || e.DaemonDies?
    ensures HostStep(h, e).m.listeners == {}
  {
  }

  lemma {:induction false} PeerStepKeeps(p: Peer, j: nat, h: Host, e: Event)
    requires PeerInv(p, j, h) && Reconnection.ListensOnce(p, j, h)
    requires e.DaemonStarts? ==> !h.alive
    requires AboutInstance(e) && e.i == j ==> Possible(p, h, e)
    ensures PeerInv(PeerStep(p, j, h, e), j, HostStep(h, e))
  {
    if AboutInstance(e) && e.i == j {
      ActKeeps(p, j, h, e);
      Reconnection.ActRegisters(p, j, h, e);
      hide Act, Receive, HostStep, Possible, PeerInv, Coherent;
      ReceiveKeeps(Act(p, j, h, e), j, h, e);
    } else {
      hide Act, Receive, HostStep, Possible, PeerInv, Coherent;
      ReceiveKeeps(p, j, h, e);
    }
  }

  // ---- the whole system ----

  lemma {:induction false} PeersKeep(s: System, e: Event)
    requires Reconnection.ConnectionInv(s) && PairingInv(s) && Enabled(s, e)
    ensures forall j :: 0 <= j < |s.peers| ==> PeerInv(Peers(s, e)[j], j, HostStep(s.host, e))
  {
    hide PeerStep, HostStep, Possible, PeerInv, Reconnection.OwnershipInv, Reconnection.HostInv;
    forall j | 0 <= j < |s.peers| ensures PeerInv(Peers(s, e)[j], j, HostStep(s.host, e)) {
      assert Reconnection.PeerInv(s.peers[j], j, s.host);
      PeerStepKeeps(s.peers[j], j, s.host, e);
    }
  }

  lemma NewAndRetiredKeep(p: Peer, j: nat, h: Host, n: nat, subscription: nat)
    ensures PeerInv(p, j, h) ==> PeerInv(Retired(p, n), j, h)
    ensures n !in h.m.listeners ==> PeerInv(NewPeer(subscription), n, h)
  {
    hide Coherent;
  }

  lemma ShapeKeeps(s: System, e: Event, s': System)
    requires Enabled(s, e) && Reconnection.Shape(s, e, s') && |s.peers| !in s'.host.m.listeners
    requires forall j :: 0 <= j < |s.peers| ==> PeerInv(Peers(s, e)[j], j, s'.host)
    ensures PairingInv(s')
  {
    hide PeerInv, PeerStep, HostStep, Enabled;
    var n := |s.peers|;
    forall j | 0 <= j < |s'.peers| ensures PeerInv(s'.peers[j], j, s'.host) {
      NewAndRetiredKeep(if j < n then Peers(s, e)[j] else s'.peers[j], j, s'.host, n, s'.peers[j].subscription);
    }
  }

  lemma {:induction false} StepKeeps(s: System, e: Event)
    requires Reconnection.ConnectionInv(s) && PairingInv(s)
    ensures PairingInv(Step(s, e))
  {
    hide HostStep, PeerStep, PeerInv, Possible;
    if Enabled(s, e) {
      PeersKeep(s, e);
      Reconnection.HostStepKeeps(s.host, e, |s.peers|);
      Reconnection.StepShape(s, e);
      hide Step, PairingInv, Reconnection.PeerInv, Reconnection.OwnershipInv;
      ShapeKeeps(s, e, Step(s, e));
    }
  }

  lemma {:induction false} RunKeeps(events: seq<Event>)
    ensures PairingInv(Run(events))
  {
    if events == [] {
    } else {
      Reconnection.RunKeeps(events[..|events| - 1]);
      RunKeeps(events[..|events| - 1]);
      StepKeeps(Run(events[..|events| - 1]), events[|events| - 1]);
    }
  }

  // ---- fields that never changed since the registration ----

  // They are still empty at the client, and no notification names them.
  ghost predicate Untouched(p: Peer) {
    forall id :: IsPairing(id) && id !in p.sync.changed ==> FieldOf(p.inst.pairing, id) == "" && !Pending(p, id)
  }

  lemma BeginningKeepsUntouched(p: Peer, ids: seq<int>)
    requires Untouched(p) && ids in p.wire.notes && p.inst.reading.None?
    ensures Untouched(OnNotificationBegins(p, ids))
  {
    var q := OnNotificationBegins(p, ids);
    forall id | IsPairing(id) && id !in q.sync.changed ensures FieldOf(q.inst.pairing, id) == "" && !Pending(q, id) {
      assert !Pending(p, id);
      assert forall n :: n in q.wire.notes ==> n in p.wire.notes;
    }
  }

  lemma ReadingKeepsUntouched(p: Peer, h: Host, ok: bool)
    requires Untouched(p) && p.inst.reading.Some? && p.inst.reading.value.rest != []
    ensures Untouched(OnFieldRead(p, h, ok))
  {
    var q, rest := OnFieldRead(p, h, ok), p.inst.reading.value.rest;
    forall id | IsPairing(id) && id !in q.sync.changed ensures FieldOf(q.inst.pairing, id) == "" && !Pending(q, id) {
      assert !Pending(p, id) && id != rest[0];
      assert forall x :: x in rest[1..] ==> x in rest;
      assert q.wire.notes == p.wire.notes;
    }
  }

  // The same copy and promises, and no more notifications.
  lemma UntouchedMonotone(p: Peer, q: Peer)
    requires Untouched(p) && q.inst.pairing == p.inst.pairing && q.sync.changed == p.sync.changed
    requires q.wire.notes == p.wire.notes && (q.inst.reading == p.inst.reading || q.inst.reading.None?)
    ensures Untouched(q)
  {
    forall id | IsPairing(id) && id !in q.sync.changed ensures FieldOf(q.inst.pairing, id) == "" && !Pending(q, id) {
      assert !Pending(p, id);
    }
  }

  lemma RegistrationKeepsUntouched(p: Peer, j: nat, h: Host, lifetime: nat)
    requires Untouched(p) && Unheard(p) && Reconnection.ListensOnce(p, j, h) && lifetime in p.wire.register
    ensures Untouched(OnListenerHandled(p, j, h, lifetime))
  {
    assert !p.sync.registered;
  }

  // The events that only end a reading or set the callback.
  lemma ActStopsReading(p: Peer, j: nat, h: Host, e: Event)
    requires Possible(p, h, e) && (e.NotificationEnds? || e.PairingListenerSet? || e.Unsubscribe?)
    ensures var q := Act(p, j, h, e);
            && q.inst.pairing == p.inst.pairing && q.sync.changed == p.sync.changed && q.wire.notes == p.wire.notes
            && (q.inst.reading == p.inst.reading || q.inst.reading.None?)
  {
  }

  lemma ActKeepsUntouched(p: Peer, j: nat, h: Host, e: Event)
    requires Untouched(p) && Unheard(p) && Reconnection.ListensOnce(p, j, h) && Possible(p, h, e)
    ensures Untouched(Act(p, j, h, e))
  {
    hide Untouched, Unheard, Reconnection.ListensOnce;
    if e.NotificationBegins? {
      BeginningKeepsUntouched(p, e.ids);
    } else if e.FieldRead? {
      ReadingKeepsUntouched(p, h, e.ok);
    } else if e.ListenerHandled? {
      RegistrationKeepsUntouched(p, j, h, e.lifetime);
    } else {
      OtherActsKeepUntouched(p, j, h, e);
      hide Act;
    }
  }

  lemma OtherActsKeepUntouched(p: Peer, j: nat, h: Host, e: Event)
    requires Untouched(p) && Possible(p, h, e)
    requires !e.NotificationBegins? && !e.FieldRead? && !e.ListenerHandled?
    ensures Untouched(Act(p, j, h, e))
  {
    if TouchesPairing(e) { ActStopsReading(p, j, h, e); } else { ActLeavesPairing(p, j, h, e); }
    hide Act, Untouched, Possible;
    UntouchedMonotone(p, Act(p, j, h, e));
  }

  lemma ReceiveKeepsUntouched(p: Peer, j: nat, h: Host, e: Event)
    requires Untouched(p)
    ensures Untouched(Receive(p, j, h, e))
  {
    Reconnection.ReceiveFrame(p, j, h, e);
    var q, note := Receive(p, j, h, e), NoteOf(h, e);
    hide NoteOf;
    if note != [] && j in h.m.listeners {
      assert q == ReceiveNote(p, note) by { NotifiedPeer(p, j, h, e); }
      hide Receive;
      forall id | IsPairing(id) && id !in q.sync.changed ensures FieldOf(q.inst.pairing, id) == "" && !Pending(q, id) {
        assert !Pending(p, id) && id !in note;
      }
    } else {
      ReceiveWithoutNoteOrListener(p, j, h, e);
      hide Receive, Untouched;
      UntouchedMonotone(p, q);
    }
  }

  lemma NotifiedPeer(p: Peer, j: nat, h: Host, e: Event)
    requires NoteOf(h, e) != [] && j in h.m.listeners
    ensures Receive(p, j, h, e) == ReceiveNote(p, NoteOf(h, e))
  {
  }

  lemma ReceiveWithoutNoteOrListener(p: Peer, j: nat, h: Host, e: Event)
    requires NoteOf(h, e) == [] || j !in h.m.listeners
    ensures var q := Receive(p, j, h, e);
            q.inst == p.inst && q.sync == p.sync && q.wire.notes == p.wire.notes
  {
  }

  lemma PeerStepKeepsUntouched(p: Peer, j: nat, h: Host, e: Event)
    requires Untouched(p) && Unheard(p) && Reconnection.ListensOnce(p, j, h)
    requires AboutInstance(e) && e.i == j ==> Possible(p, h, e)
    ensures Untouched(PeerStep(p, j, h, e))
  {
    hide Act, Receive, Possible, Untouched, Unheard, Reconnection.ListensOnce;
    if AboutInstance(e) && e.i == j { ActKeepsUntouched(p, j, h, e); }
    ReceiveKeepsUntouched(if AboutInstance(e) && e.i == j then Act(p, j, h, e) else p, j, h, e);
  }

  ghost predicate AllUntouched(s: System) {
    forall j :: 0 <= j < |s.peers| ==> Untouched(s.peers[j])
  }

  lemma NewAndRetiredUntouched(p: Peer, n: nat, subscription: nat)
    ensures Untouched(p) ==> Untouched(Retired(p, n))
    ensures Untouched(NewPeer(subscription))
  {
    if Untouched(p) { UntouchedMonotone(p, Retired(p, n)); }
  }

  lemma StepKeepsUntouched(s: System, e: Event)
    requires Reconnection.ConnectionInv(s) && PairingInv(s) && AllUntouched(s)
    ensures AllUntouched(Step(s, e))
  {
    hide HostStep, PeerStep, Possible, Untouched;
    if Enabled(s, e) {
      forall j | 0 <= j < |s.peers| ensures Untouched(Peers(s, e)[j]) {
        assert PeerInv(s.peers[j], j, s.host) && Reconnection.PeerInv(s.peers[j], j, s.host);
        PeerStepKeepsUntouched(s.peers[j], j, s.host, e);
      }
      Reconnection.StepShape(s, e);
      hide Step, Peers, Enabled, PairingInv, Reconnection.ConnectionInv;
      var s', n := Step(s, e), |s.peers|;
      forall j | 0 <= j < |s'.peers| ensures Untouched(s'.peers[j]) {
        NewAndRetiredUntouched(if j < n then Peers(s, e)[j] else s'.peers[j], n, s'.peers[j].subscription);
      }
    }
  }

  lemma {:induction false} RunKeepsUntouched(events: seq<Event>)
    ensures AllUntouched(Run(events))
  {
    if events == [] {
    } else {
      var before := events[..|events| - 1];
      Reconnection.RunKeeps(before);
      RunKeeps(before);
      RunKeepsUntouched(before);
      hide Step, AllUntouched, PairingInv, Reconnection.ConnectionInv;
      StepKeepsUntouched(Run(before), events[|events| - 1]);
    }
  }

  // ---- what a client may rely on, over every run ----

  /**
   Cache coherence, also between the fetches of one notification: for a live instance whose listener the daemon
   knows, a pairing field that changed since that registration, and whose last fetch did not fail, is equal to
   the daemon's or a notification naming it is still to be processed.
   */
  lemma {:induction false} PairingCacheCoherent(events: seq<Event>, j: nat, id: int)
    requires IsPairing(id) && j < |Run(events).peers|
    requires Run(events).peers[j].life.alive && j in Run(events).host.m.listeners
    requires id in Run(events).peers[j].sync.changed && id !in Run(events).peers[j].sync.failed
    ensures var s := Run(events);
            FieldOf(s.peers[j].inst.pairing, id) == Get(s.host.m.values, id) || Pending(s.peers[j], id)
  {
    RunKeeps(events);
    assert PeerInv(Run(events).peers[j], j, Run(events).host);
  }

  // The listener is known, its notifications are processed and its fetches succeeded.
  predicate Drained(s: System, j: nat)
    requires j < |s.peers|
  {
    && s.peers[j].life.alive && j in s.host.m.listeners && s.peers[j].sync.failed == {}
    && s.peers[j].wire.notes == multiset{} && s.peers[j].inst.reading.None?
  }

  lemma SameFields(a: Pairing, b: Pairing)
    ensures a == b <==> forall id :: IsPairing(id) ==> FieldOf(a, id) == FieldOf(b, id)
  {
    if forall id :: IsPairing(id) ==> FieldOf(a, id) == FieldOf(b, id) {
      assert FieldOf(a, PAIRING_SESSION_ID) == FieldOf(b, PAIRING_SESSION_ID);
      assert FieldOf(a, PAIRING_MODE) == FieldOf(b, PAIRING_MODE);
      assert FieldOf(a, PAIRING_CODE) == FieldOf(b, PAIRING_CODE);
    }
  }

  // What a drained client holds for one field.
  lemma {:induction false} DrainedField(events: seq<Event>, j: nat, id: int)
    requires j < |Run(events).peers| && Drained(Run(events), j) && IsPairing(id)
    ensures var p, values := Run(events).peers[j], Run(events).host.m.values;
            && FieldOf(p.inst.pairing, id) == (if id in p.sync.changed then Get(values, id) else "")
            && FieldOf(Exposed(values), id) == Get(values, id)
            && (p.sync.fromEmpty ==> FieldOf(p.inst.pairing, id) == Get(values, id))
  {
    RunKeeps(events);
    RunKeepsUntouched(events);
    var p, values := Run(events).peers[j], Run(events).host.m.values;
    assert PeerInv(p, j, Run(events).host) && Untouched(p);
    hide Run;
    assert !Pending(p, id);
    assert Followed(p, id) ==> Synced(p, values, id);
  }

  /**
   Once its notifications are drained, a client holds exactly the daemon's triple if and only if every field that
   has not changed since its registration is empty; and its current callback was last told the triple it holds,
   or that there is no pairing (or nothing yet) precisely when some field of it is empty.
   */
  lemma {:induction false} PairingReportExactly(events: seq<Event>, j: nat)
    requires j < |Run(events).peers| && Drained(Run(events), j)
    ensures var p, values := Run(events).peers[j], Run(events).host.m.values;
            && (p.inst.pairing == Exposed(values) <==>
                  forall id :: IsPairing(id) ==> id in p.sync.changed || Get(values, id) == "")
            && (p.inst.listening ==>
                  (p.inst.lastReport == InfoReport(p.inst.pairing) <==> Complete(p.inst.pairing)) &&
                  (p.inst.lastReport == NullReport || p.inst.lastReport == NoReport <==> !Complete(p.inst.pairing)))
  {
    var p, values := Run(events).peers[j], Run(events).host.m.values;
    forall id | IsPairing(id)
      ensures FieldOf(p.inst.pairing, id) == (if id in p.sync.changed then Get(values, id) else "")
      ensures FieldOf(Exposed(values), id) == Get(values, id)
    {
      DrainedField(events, j, id);
    }
    SameFields(p.inst.pairing, Exposed(values));
    RunKeeps(events);
    assert PeerInv(p, j, Run(events).host);
    hide Run, FieldOf, Exposed, Coherent;
  }

  /**
   In particular a client that registered while no pairing was exposed holds exactly the daemon's triple, and its
   current callback was last told that triple, or that there is no pairing (or nothing yet) precisely when some
   field is empty.
   */
  lemma {:induction false} PairingReportCorrect(events: seq<Event>, j: nat)
    requires j < |Run(events).peers| && Drained(Run(events), j) && Run(events).peers[j].sync.fromEmpty
    ensures var inst, exposed := Run(events).peers[j].inst, Exposed(Run(events).host.m.values);
            && inst.pairing == exposed
            && (inst.listening ==>
                  (inst.lastReport == InfoReport(exposed) <==> Complete(exposed)) &&
                  (inst.lastReport == NullReport || inst.lastReport == NoReport <==> !Complete(exposed)))
  {
    var p, values := Run(events).peers[j], Run(events).host.m.values;
    PairingReportExactly(events, j);
    forall id | IsPairing(id) ensures id in p.sync.changed || Get(values, id) == "" {
      DrainedField(events, j, id);
    }
    hide Run;
  }

  // ---- reports that mix two sessions ----

  // An undelivered notification names a field that the client holds out of date.
  predicate NamesStale(p: Peer, values: Values, note: seq<int>, id: int) {
    note in p.wire.notes && IsPairing(id) && id in note && FieldOf(p.inst.pairing, id) != Get(values, id)
  }

  lemma EndStep(s: System, j: nat)
    requires j < |s.peers| && Enabled(s, NotificationEnds(j))
    ensures j < |Step(s, NotificationEnds(j)).peers|
    ensures var q := Step(s, NotificationEnds(j)).peers[j];
            && q.inst == EndReading(s.peers[j].inst) && q.wire.notes == s.peers[j].wire.notes
    ensures Step(s, NotificationEnds(j)).host.m.values == s.host.m.values
  {
    var e, p := NotificationEnds(j), s.peers[j];
    Reconnection.StepPeer(s, e, j);
    Reconnection.StepShape(s, e);
    assert Act(p, j, s.host, e) == p.(inst := EndReading(p.inst));
    ReceiveWithoutNote(Act(p, j, s.host, e), j, s.host, e);
    if s.host.alive { HostValues(s.host, e); }
    hide Step, Receive, Act, Possible, EndReading;
  }

  // What the client holds when it has fetched everything a notification named.
  lemma {:induction false} FieldAtEnd(events: seq<Event>, j: nat, id: int)
    requires j < |Run(events).peers| && Enabled(Run(events), NotificationEnds(j)) && IsPairing(id)
    requires j in Run(events).host.m.listeners && Run(events).peers[j].sync.failed == {}
    requires id in Run(events).peers[j].sync.changed || Get(Run(events).host.m.values, id) == ""
    ensures var p, values := Run(events).peers[j], Run(events).host.m.values;
            FieldOf(p.inst.pairing, id) == Get(values, id) || exists note :: NamesStale(p, values, note, id)
  {
    RunKeeps(events);
    RunKeepsUntouched(events);
    var p, values := Run(events).peers[j], Run(events).host.m.values;
    assert PeerInv(p, j, Run(events).host) && Untouched(p);
    hide Run;
    if id in p.sync.changed {
      assert Followed(p, id) && Synced(p, values, id);
      if FieldOf(p.inst.pairing, id) != Get(values, id) {
        var note :| note in p.wire.notes && id in note;
        assert NamesStale(p, values, note, id);
      }
    }
  }

  /**
   A report may mix fields of two sessions, but then its correction is on the way: when a client that follows the
   daemon finishes a notification, its callback is told the daemon's triple, or an undelivered notification names
   a field that is still wrong.
   */
  lemma {:induction false} TornReportIsRepaired(events: seq<Event>, j: nat)
    requires j < |Run(events).peers| && Enabled(Run(events), NotificationEnds(j))
    requires j in Run(events).host.m.listeners && Run(events).peers[j].sync.failed == {}
    requires Run(events).peers[j].inst.reading.value.changed && Run(events).peers[j].inst.listening
    requires forall id :: IsPairing(id) ==>
               id in Run(events).peers[j].sync.changed || Get(Run(events).host.m.values, id) == ""
    ensures var t := Step(Run(events), NotificationEnds(j));
            || t.peers[j].inst.lastReport == ReportFor(Exposed(t.host.m.values))
            || exists note, id :: NamesStale(t.peers[j], t.host.m.values, note, id)
  {
    var s := Run(events);
    EndStep(s, j);
    var t := Step(s, NotificationEnds(j));
    if t.peers[j].inst.pairing != Exposed(t.host.m.values) {
      SameFields(t.peers[j].inst.pairing, Exposed(t.host.m.values));
      var id :| IsPairing(id) && FieldOf(t.peers[j].inst.pairing, id) != FieldOf(Exposed(t.host.m.values), id);
      FieldAtEnd(events, j, id);
      hide Run, Step, Enabled;
      var note :| NamesStale(s.peers[j], s.host.m.values, note, id);
      assert NamesStale(t.peers[j], t.host.m.values, note, id);
    }
  }

  // What is on record about a client's registration, and what its listener then stands for.
  lemma RegistrationRecorded(p: Peer, j: nat, h: Host)
    requires h.alive && h.lifetime in p.wire.register && j !in h.m.listeners
    ensures var e := ListenerHandled(j, h.lifetime);
            var q := PeerStep(p, j, h, e);
            && j in HostStep(h, e).m.listeners && HostStep(h, e).m.listeners == h.m.listeners + {j}
            && q.sync.registered && q.sync.changed == {} && q.inst == p.inst
            && (q.sync.fromEmpty <==> Exposed(h.m.values) == NO_PAIRING)
  {
    Reconnection.ReceiveFrame(Act(p, j, h, ListenerHandled(j, h.lifetime)), j, h, ListenerHandled(j, h.lifetime));
    ReceiveWithoutNote(Act(p, j, h, ListenerHandled(j, h.lifetime)), j, h, ListenerHandled(j, h.lifetime));
    hide Receive;
  }
}
