/**
 The state of one weaved::ServiceImpl and what each of its handlers does to it.
 A notification is handled in steps, because the fields it names are fetched
 by separate calls to the daemon.
 */
module Instance {
  import opened Base
  import opened Fields

  datatype CommandName = CommandName(component: string, command: string)

  // A BinderWeaveService: the daemon lifetime, the client it was made for, its number.
  datatype ServiceRef = ServiceRef(lifetime: nat, client: nat, number: nat)

  datatype Handler = Handler(name: CommandName, callback: nat)

  // The last report made to the current pairing callback.
  datatype Report = NoReport | NullReport | InfoReport(info: Pairing)

  datatype Reading = Reading(rest: seq<int>, changed: bool)

  datatype State = State(
    manager: Option<nat>,      // daemon lifetime whose IWeaveServiceManager is held
    service: Option<ServiceRef>,
    handlers: seq<Handler>,
    pairing: Pairing,
    listening: bool,           // a pairing callback is set
    reading: Option<Reading>,  // a notification being handled
    // history
    lastReport: Report,
    connects: nat,
    callbacks: nat
  )

  const FRESH := State(None, None, [], NO_PAIRING, false, None, NoReport, 0, 0)

  function FullName(component: string, traitName: string, command: string): CommandName {
    CommandName(component, traitName + "." + command)
  }

  // TryConnecting, once the daemon is found and its death is watched.
  function Connected(s: State, lifetime: nat): State {
    s.(manager := Some(lifetime), connects := s.connects + 1)
  }

  function ServiceReady(s: State, service: ServiceRef): State {
    s.(service := Some(service), callbacks := s.callbacks + 1)
  }

  function WithHandler(s: State, handler: Handler): State {
    s.(handlers := s.handlers + [handler])
  }

  predicate Handles(handlers: seq<Handler>, name: CommandName) {
    exists k :: 0 <= k < |handlers| && handlers[k].name == name
  }

  // The handler that OnCommand picks: the earliest registered one with that name.
  function FirstMatch(handlers: seq<Handler>, name: CommandName): (r: Option<nat>)
    ensures r.None? <==> !Handles(handlers, name)
    ensures r.Some? ==> r.value < |handlers| && handlers[r.value].name == name
    ensures r.Some? ==> forall k :: 0 <= k < r.value ==> handlers[k].name != name
  {
    if handlers == [] then None
    else if handlers[0].name == name then Some(0)
    else
      var r := FirstMatch(handlers[1..], name);
      assert Handles(handlers[1..], name) ==> Handles(handlers, name) by {
        if k :| 0 <= k < |handlers[1..]| && handlers[1..][k].name == name { assert handlers[k + 1].name == name; }
      }
      assert Handles(handlers, name) ==> Handles(handlers[1..], name) by {
        if k :| 0 <= k < |handlers| && handlers[k].name == name { assert handlers[1..][k - 1].name == name; }
      }
      if r.None? then None else
        assert forall k :: 0 <= k < r.value + 1 ==> handlers[k].name != name by {
          forall k | 0 <= k < r.value + 1 ensures handlers[k].name != name {
            if k > 0 { assert handlers[k] == handlers[1..][k - 1]; }
          }
        }
        Some(r.value + 1)
  }

  function SetField(pairing: Pairing, id: int, value: string): Pairing
    requires IsPairing(id)
  {
    if id == PAIRING_SESSION_ID then pairing.(sessionId := value)
    else if id == PAIRING_MODE then pairing.(mode := value)
    else pairing.(code := value)
  }

  function BeginReading(s: State, ids: seq<int>): State {
    s.(reading := Some(Reading(ids, false)))
  }

  // One round of the OnNotification loop; the reply is None when the getter failed.
  function ReadNext(s: State, reply: Option<string>): State
    requires s.reading.Some? && s.reading.value.rest != []
  {
    var id, rest := s.reading.value.rest[0], s.reading.value.rest[1..];
    if IsPairing(id) && reply.Some?
    then s.(pairing := SetField(s.pairing, id, reply.value), reading := Some(Reading(rest, true)))
    else s.(reading := Some(Reading(rest, s.reading.value.changed)))
  }

  function ReportFor(pairing: Pairing): Report {
    if Complete(pairing) then InfoReport(pairing) else NullReport
  }

  function EndReading(s: State): State
    requires s.reading.Some?
  {
    s.(reading := None,
       lastReport := if s.reading.value.changed && s.listening then ReportFor(s.pairing) else s.lastReport)
  }

  function ReadAll(s: State, replies: seq<Option<string>>): State
    requires s.reading.Some? && |replies| <= |s.reading.value.rest|
    ensures ReadAll(s, replies).reading.Some?
    ensures |ReadAll(s, replies).reading.value.rest| == |s.reading.value.rest| - |replies|
    decreases |replies|
  {
    if replies == [] then s else ReadAll(ReadNext(s, replies[0]), replies[1..])
  }

  // SetPairingInfoListener: a new callback hears at once of a complete session.
  function SetListener(s: State, some: bool): State {
    s.(listening := some, lastReport := if some && Complete(s.pairing) then InfoReport(s.pairing) else NoReport)
  }

  // What the current callback should have heard last, given the client's copy.
  predicate ReportUpToDate(s: State) {
    s.listening ==> if Complete(s.pairing) then s.lastReport == InfoReport(s.pairing) else !s.lastReport.InfoReport?
  }

  // ---- names of commands ----

  // A command is known by its component and the trait and command names joined by a dot.
  lemma NameInFull(component: string, traitName: string, command: string)
    ensures var name := FullName(component, traitName, command);
            && name.component == component
            && |name.command| == |traitName| + 1 + |command| && traitName <= name.command
            && name.command[|traitName|] == '.' && name.command[|traitName| + 1..] == command
  {
  }

  lemma FirstIs(handlers: seq<Handler>, name: CommandName, k: nat)
    requires k < |handlers| && handlers[k].name == name && forall i :: 0 <= i < k ==> handlers[i].name != name
    ensures FirstMatch(handlers, name) == Some(k)
  {
    assert Handles(handlers, name);
    hide FirstMatch;
  }

  // A handler registered for a new name runs for that name; one registered for a known name never does.
  lemma NewHandlerMatches(handlers: seq<Handler>, handler: Handler)
    ensures FirstMatch(handlers + [handler], handler.name) ==
            if Handles(handlers, handler.name) then FirstMatch(handlers, handler.name) else Some(|handlers|)
  {
    hide FirstMatch;
    var more := handlers + [handler];
    var m := FirstMatch(handlers, handler.name);
    if m.Some? {
      FirstIs(more, handler.name, m.value);
    } else {
      FirstIs(more, handler.name, |handlers|);
    }
  }

  // ---- what a notification leaves ----

  // The k-th fetch of a notification returns a value for the field.
  predicate Fetches(ids: seq<int>, replies: seq<Option<string>>, id: int, k: int) {
    0 <= k < |ids| && k < |replies| && ids[k] == id && replies[k].Some?
  }

  lemma FetchesLater(ids: seq<int>, replies: seq<Option<string>>, id: int, k: int)
    requires |ids| > 0 && |replies| > 0 && k > 0
    ensures Fetches(ids, replies, id, k) <==> Fetches(ids[1..], replies[1..], id, k - 1)
  {
  }

  // A field that no fetch returns a value for is kept.
  lemma {:induction false} ReadAllKeeps(s: State, replies: seq<Option<string>>, id: int)
    requires s.reading.Some? && |replies| == |s.reading.value.rest| && IsPairing(id)
    requires forall k :: !Fetches(s.reading.value.rest, replies, id, k)
    ensures FieldOf(ReadAll(s, replies).pairing, id) == FieldOf(s.pairing, id)
    decreases |replies|
  {
    if replies == [] {
    } else {
      var ids, next := s.reading.value.rest, ReadNext(s, replies[0]);
      assert !Fetches(ids, replies, id, 0);
      forall k ensures !Fetches(ids[1..], replies[1..], id, k) {
        if k >= 0 { FetchesLater(ids, replies, id, k + 1); }
      }
      ReadAllKeeps(next, replies[1..], id);
    }
  }

  /** After a whole notification a pairing field holds what the last fetch that succeeded for it returned. */
  lemma {:induction false} ReadAllTakesLast(s: State, replies: seq<Option<string>>, id: int, k: nat)
    requires s.reading.Some? && |replies| == |s.reading.value.rest| && IsPairing(id)
    requires Fetches(s.reading.value.rest, replies, id, k)
    requires forall i :: i > k ==> !Fetches(s.reading.value.rest, replies, id, i)
    ensures FieldOf(ReadAll(s, replies).pairing, id) == replies[k].value
    decreases |replies|
  {
    var ids, next := s.reading.value.rest, ReadNext(s, replies[0]);
    forall i | i > k - 1 && i >= 0 ensures !Fetches(ids[1..], replies[1..], id, i) {
      FetchesLater(ids, replies, id, i + 1);
    }
    if k == 0 {
      ReadAllKeeps(next, replies[1..], id);
    } else {
      FetchesLater(ids, replies, id, k);
      ReadAllTakesLast(next, replies[1..], id, k - 1);
    }
  }

  /** Something counts as changed exactly when some fetch of a pairing field succeeded; nothing else is touched. */
  lemma {:induction false} ReadAllChanges(s: State, replies: seq<Option<string>>)
    requires s.reading.Some? && |replies| == |s.reading.value.rest|
    ensures var t := ReadAll(s, replies);
            && (t.reading.value.changed <==>
                  s.reading.value.changed || exists id, k :: IsPairing(id) && Fetches(s.reading.value.rest, replies, id, k))
            && t == s.(pairing := t.pairing, reading := t.reading)
    decreases |replies|
  {
    if replies == [] {
    } else {
      var ids, next := s.reading.value.rest, ReadNext(s, replies[0]);
      ReadAllChanges(next, replies[1..]);
      if IsPairing(ids[0]) && replies[0].Some? { assert Fetches(ids, replies, ids[0], 0); }
      if id, k :| IsPairing(id) && Fetches(ids[1..], replies[1..], id, k) {
        FetchesLater(ids, replies, id, k + 1);
      }
      if id, k :| IsPairing(id) && Fetches(ids, replies, id, k) {
        if k > 0 { FetchesLater(ids, replies, id, k); }
      }
    }
  }
}
