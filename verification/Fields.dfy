/**
 The string fields that weaved exposes through IWeaveServiceManager, the change
 detection that decides which notification ids are sent, and the pairing
 session exposed at any time as a function of the history of pairing events.
 */
module Fields {

  // Ids of IWeaveServiceManagerNotificationListener.
  const CLOUD_ID := 1
  const DEVICE_ID := 2
  const DEVICE_NAME := 3
  const DEVICE_DESCRIPTION := 4
  const DEVICE_LOCATION := 5
  const OEM_NAME := 6
  const MODEL_NAME := 7
  const MODEL_ID := 8
  const PAIRING_SESSION_ID := 9
  const PAIRING_MODE := 10
  const PAIRING_CODE := 11
  const TRAITS := 12
  const COMPONENTS := 13
  const STATE := 14

  // The numbers of the interface, which client and daemon share with other processes.
  lemma IdsOfTheInterface()
    ensures [CLOUD_ID, DEVICE_ID, DEVICE_NAME, DEVICE_DESCRIPTION, DEVICE_LOCATION, OEM_NAME, MODEL_NAME, MODEL_ID] ==
            [1, 2, 3, 4, 5, 6, 7, 8]
    ensures [PAIRING_SESSION_ID, PAIRING_MODE, PAIRING_CODE, TRAITS, COMPONENTS, STATE] == [9, 10, 11, 12, 13, 14]
  {
  }

  predicate IsPairing(id: int) {
    id == PAIRING_SESSION_ID || id == PAIRING_MODE || id == PAIRING_CODE
  }

  // The exposed fields by notification id; a field never assigned is empty.
  type Values = map<int, string>

  function Get(values: Values, id: int): string {
    if id in values then values[id] else ""
  }

  // An assignment of new values to fields, one after the other.
  datatype Update = Update(id: int, value: string)

  predicate Distinct(updates: seq<Update>) {
    forall j, k :: 0 <= j < k < |updates| ==> updates[j].id != updates[k].id
  }

  function Apply(values: Values, updates: seq<Update>): Values
    decreases |updates|
  {
    if updates == [] then values
    else Apply(values[updates[0].id := updates[0].value], updates[1..])
  }

  // The ids sent for a batch of updates: those that alter their field, in order.
  function ChangedIds(values: Values, updates: seq<Update>): seq<int>
    decreases |updates|
  {
    if updates == [] then []
    else
      (if Get(values, updates[0].id) != updates[0].value then [updates[0].id] else []) +
      ChangedIds(values[updates[0].id := updates[0].value], updates[1..])
  }

  // The settings that weave reports, as the batch Manager::OnConfigChanged applies.
  datatype Settings = Settings(cloudId: string, deviceId: string, name: string, description: string,
                               location: string, oemName: string, modelId: string, modelName: string)

  function ConfigUpdates(settings: Settings): (r: seq<Update>)
    ensures Distinct(r) && forall u :: u in r ==> !IsPairing(u.id)
  {
    [Update(CLOUD_ID, settings.cloudId), Update(DEVICE_ID, settings.deviceId), Update(DEVICE_NAME, settings.name),
     Update(DEVICE_DESCRIPTION, settings.description), Update(DEVICE_LOCATION, settings.location),
     Update(OEM_NAME, settings.oemName), Update(MODEL_ID, settings.modelId), Update(MODEL_NAME, settings.modelName)]
  }

  datatype Pairing = Pairing(sessionId: string, mode: string, code: string)

  const NO_PAIRING := Pairing("", "", "")

  function PairingUpdates(pairing: Pairing): (r: seq<Update>)
    ensures Distinct(r) && forall u :: u in r ==> IsPairing(u.id)
  {
    [Update(PAIRING_SESSION_ID, pairing.sessionId), Update(PAIRING_MODE, pairing.mode),
     Update(PAIRING_CODE, pairing.code)]
  }

  // The triple a client could read.
  function Exposed(values: Values): Pairing {
    Pairing(Get(values, PAIRING_SESSION_ID), Get(values, PAIRING_MODE), Get(values, PAIRING_CODE))
  }

  function FieldOf(pairing: Pairing, id: int): string
    requires IsPairing(id)
  {
    if id == PAIRING_SESSION_ID then pairing.sessionId
    else if id == PAIRING_MODE then pairing.mode
    else pairing.code
  }

  predicate Complete(pairing: Pairing) {
    pairing.sessionId != "" && pairing.mode != "" && pairing.code != ""
  }

  // Every field ends up with the value assigned to it; the others keep theirs.
  lemma {:induction false} ApplyAssigns(values: Values, updates: seq<Update>, id: int)
    requires Distinct(updates)
    ensures (forall u :: u in updates ==> u.id != id) ==> Get(Apply(values, updates), id) == Get(values, id)
    ensures forall u :: u in updates && u.id == id ==> Get(Apply(values, updates), id) == u.value
    decreases |updates|
  {
    if updates == [] {
    } else {
      var rest := updates[1..];
      assert updates == [updates[0]] + rest;
      ApplyAssigns(values[updates[0].id := updates[0].value], rest, id);
    }
  }

  // The ids sent are exactly those of the fields that the batch really changes, each once.
  lemma {:induction false} ChangedIdsAreTheDifferences(values: Values, updates: seq<Update>)
    requires Distinct(updates)
    ensures forall id :: id in ChangedIds(values, updates) <==> Get(Apply(values, updates), id) != Get(values, id)
    ensures forall id :: id in ChangedIds(values, updates) ==> exists u :: u in updates && u.id == id
    ensures forall j, k :: 0 <= j < k < |ChangedIds(values, updates)| ==>
              ChangedIds(values, updates)[j] != ChangedIds(values, updates)[k]
    decreases |updates|
  {
    if updates == [] {
    } else {
      var first, rest := updates[0], updates[1..];
      var next := values[first.id := first.value];
      assert updates == [first] + rest;
      ChangedIdsAreTheDifferences(next, rest);
      ApplyAssigns(next, rest, first.id);
      assert first.id !in ChangedIds(next, rest);
    }
  }

  // ---- the pairing session as a function of history ----

  datatype PairingEvent = Start(pairing: Pairing) | End(sessionId: string)

  function AfterPairing(values: Values, event: PairingEvent): Values {
    match event
    case Start(pairing) => Apply(values, PairingUpdates(pairing))
    case End(sessionId) =>
      if Get(values, PAIRING_SESSION_ID) != sessionId then values else Apply(values, PairingUpdates(NO_PAIRING))
  }

  // The notification sent by one pairing event; nothing is sent when it is empty.
  function PairingNote(values: Values, event: PairingEvent): seq<int> {
    match event
    case Start(pairing) => ChangedIds(values, PairingUpdates(pairing))
    case End(sessionId) =>
      if Get(values, PAIRING_SESSION_ID) != sessionId then [] else ChangedIds(values, PairingUpdates(NO_PAIRING))
  }

  function AfterAll(values: Values, events: seq<PairingEvent>): Values {
    if events == [] then values
    else AfterPairing(AfterAll(values, events[..|events| - 1]), events[|events| - 1])
  }

  // Position k holds the latest start, and that session has not ended since.
  predicate Open(events: seq<PairingEvent>, k: int) {
    && 0 <= k < |events| && events[k].Start?
    && (forall j :: k < j < |events| ==> events[j] != End(events[k].pairing.sessionId) && !events[j].Start?)
  }

  lemma PairingStep(values: Values, event: PairingEvent)
    ensures Exposed(AfterPairing(values, event)) ==
            match event
            case Start(pairing) => pairing
            case End(sessionId) => if Exposed(values).sessionId == sessionId then NO_PAIRING else Exposed(values)
  {
    var pairing := if event.Start? then event.pairing else NO_PAIRING;
    var updates := PairingUpdates(pairing);
    assert updates[0].id == PAIRING_SESSION_ID && updates[1].id == PAIRING_MODE && updates[2].id == PAIRING_CODE;
    ApplyAssigns(values, updates, PAIRING_SESSION_ID);
    ApplyAssigns(values, updates, PAIRING_MODE);
    ApplyAssigns(values, updates, PAIRING_CODE);
    assert updates[0] in updates && updates[1] in updates && updates[2] in updates;
  }

  /**
   Pairing exposure: the triple is that of the latest start unless that session was ended since;
   it is empty when there was no start or the latest one was ended.
   */
  lemma {:induction false} PairingExposureMatchesHistory(values: Values, events: seq<PairingEvent>)
    requires Exposed(values) == NO_PAIRING
    ensures forall k :: Open(events, k) ==> Exposed(AfterAll(values, events)) == events[k].pairing
    ensures (forall k :: !Open(events, k)) ==> Exposed(AfterAll(values, events)) == NO_PAIRING
  {
    hide AfterPairing, Exposed;
    if events == [] {
    } else {
      var n := |events| - 1;
      var before, last := events[..n], events[n];
      PairingExposureMatchesHistory(values, before);
      PairingStep(AfterAll(values, before), last);
      if last.Start? {
        assert Open(events, n);
      } else {
        assert forall k :: Open(events, k) ==> Open(before, k) && before[k].pairing.sessionId != last.sessionId;
        if k :| Open(before, k) {
          assert Exposed(AfterAll(values, before)) == before[k].pairing;
          if before[k].pairing.sessionId != last.sessionId {
            assert Open(events, k);
          }
        }
      }
    }
  }

  // Each pairing event notifies exactly the fields it changed, without repeats; nothing otherwise.
  lemma PairingNoteNamesTheChanges(values: Values, event: PairingEvent)
    ensures forall id :: id in PairingNote(values, event) <==> Get(AfterPairing(values, event), id) != Get(values, id)
    ensures forall id :: id in PairingNote(values, event) ==> IsPairing(id)
    ensures forall j, k :: 0 <= j < k < |PairingNote(values, event)| ==>
              PairingNote(values, event)[j] != PairingNote(values, event)[k]
  {
    match event
    case Start(pairing) => ChangedIdsAreTheDifferences(values, PairingUpdates(pairing));
    case End(sessionId) => ChangedIdsAreTheDifferences(values, PairingUpdates(NO_PAIRING));
  }
}
