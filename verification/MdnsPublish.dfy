/**
 AvahiMdnsClient: the cache of what was last published decides between doing
 nothing, updating the TXT record and registering afresh. It is compared with a
 client without a cache that registers afresh on every call.
 */
module MdnsPublish {
  import opened Base

  const SERVICE_TYPE := "_privet._tcp"

  // What Avahi keeps of a TXT string passed as a C string.
  function CString(s: string): string {
    if s == "" || s[0] == '\0' then "" else [s[0]] + CString(s[1..])
  }

  // That is everything up to the first NUL.
  lemma {:induction false} CStringStops(s: string)
    ensures CString(s) <= s && '\0' !in CString(s)
    ensures |CString(s)| == |s| || s[|CString(s)|] == '\0'
    decreases |s|
  {
    if s == "" || s[0] == '\0' {
    } else {
      CStringStops(s[1..]);
    }
  }

  function TxtList(txt: seq<string>): (r: seq<string>)
    ensures |r| == |txt| && forall i :: 0 <= i < |txt| ==> r[i] == CString(txt[i])
  {
    seq(|txt|, i requires 0 <= i < |txt| => CString(txt[i]))
  }

  // The record under the client's service name.
  datatype Record = Record(serviceType: string, port: nat, txt: seq<string>)

  datatype Group = Empty | Uncommitted(record: Record) | Committed(record: Record)

  // Operations on Avahi's entry group, in the order they were made.
  datatype Op = Reset | Add(record: Record) | UpdateTxt(serviceType: string, txt: seq<string>) | Commit

  function Do(g: Group, op: Op): Group {
    match op
    case Reset => Empty
    case Add(record) => Uncommitted(record)
    case UpdateTxt(serviceType, txt) =>
      if g.Committed? && g.record.serviceType == serviceType then Committed(g.record.(txt := txt)) else g
    case Commit => if g.Uncommitted? then Committed(g.record) else g
  }

  function DoAll(g: Group, ops: seq<Op>): Group
    decreases |ops|
  {
    if ops == [] then g else DoAll(Do(g, ops[0]), ops[1..])
  }

  // ---- the client with its cache ----

  datatype Cache = Cache(port: nat, serviceType: string, txt: seq<string>)

  const NOTHING := Cache(0, "", [])

  function PublishOps(c: Cache, serviceType: string, port: nat, txt: seq<string>): seq<Op> {
    if c == Cache(port, serviceType, txt) then []
    else if c.port == port && c.serviceType == serviceType then [UpdateTxt(serviceType, TxtList(txt))]
    else [Reset, Add(Record(serviceType, port, TxtList(txt))), Commit]
  }

  function RepublishOps(c: Cache): seq<Op> {
    if c.serviceType == "" then [] else [Reset] + PublishOps(NOTHING, c.serviceType, c.port, c.txt)
  }

  datatype State = State(cache: Cache, group: Group)

  datatype Event =
    | Publish(port: nat, txt: seq<string>)
    | Stop
    | Reinitialized  // Avahi lost the group's records and reports that it runs again

  // PublishService insists on this one service type.
  function Step(s: State, e: Event): State {
    match e
    case Publish(port, txt) =>
      State(Cache(port, SERVICE_TYPE, txt), DoAll(s.group, PublishOps(s.cache, SERVICE_TYPE, port, txt)))
    case Stop => State(NOTHING, Empty)
    case Reinitialized => s.(group := DoAll(Empty, RepublishOps(s.cache)))
  }

  function Run(events: seq<Event>): State {
    if events == [] then State(NOTHING, Empty) else Step(Run(events[..|events| - 1]), events[|events| - 1])
  }

  // ---- the client without a cache ----

  datatype Naive = Naive(published: Option<Record>, group: Group)

  function Register(g: Group, record: Record): Group {
    DoAll(g, [Reset, Add(record), Commit])
  }

  function NaiveStep(n: Naive, e: Event): Naive {
    match e
    case Publish(port, txt) =>
      var record := Record(SERVICE_TYPE, port, TxtList(txt));
      Naive(Some(record), Register(n.group, record))
    case Stop => Naive(None, Empty)
    case Reinitialized => n.(group := if n.published.None? then Empty else Register(Empty, n.published.value))
  }

  function NaiveRun(events: seq<Event>): Naive {
    if events == [] then Naive(None, Empty) else NaiveStep(NaiveRun(events[..|events| - 1]), events[|events| - 1])
  }

  // ---- the two agree ----

  // The cache describes what the group holds.
  predicate CacheOk(s: State) {
    && (s.cache.serviceType == "" ==> s.cache == NOTHING && s.group == Empty)
    && (s.cache.serviceType != "" ==>
          s.cache.serviceType == SERVICE_TYPE &&
          s.group == Committed(Record(s.cache.serviceType, s.cache.port, TxtList(s.cache.txt))))
  }

  predicate Agree(s: State, n: Naive) {
    && CacheOk(s) && s.group == n.group
    && n.published == if s.cache.serviceType == "" then None
                      else Some(Record(s.cache.serviceType, s.cache.port, TxtList(s.cache.txt)))
  }

  lemma RegisterCommits(g: Group, record: Record)
    ensures DoAll(g, [Reset, Add(record), Commit]) == Committed(record)
  {
    var ops := [Reset, Add(record), Commit];
    assert ops[1..] == [Add(record), Commit] && ops[1..][1..] == [Commit] && [Commit][1..] == [];
    assert DoAll(Empty, ops[1..]) == DoAll(Uncommitted(record), [Commit]);
    assert DoAll(Uncommitted(record), [Commit]) == DoAll(Committed(record), []);
  }

  // Whatever branch PublishService takes, the group ends up holding exactly the new record.
  lemma PublishHolds(s: State, port: nat, txt: seq<string>)
    requires CacheOk(s)
    ensures Step(s, Publish(port, txt)).group == Committed(Record(SERVICE_TYPE, port, TxtList(txt)))
    ensures PublishOps(s.cache, SERVICE_TYPE, port, txt) == [] ==>
              s.group == Committed(Record(SERVICE_TYPE, port, TxtList(txt)))
  {
    var record := Record(SERVICE_TYPE, port, TxtList(txt));
    RegisterCommits(s.group, record);
    if s.cache.port == port && s.cache.serviceType == SERVICE_TYPE && s.cache.txt != txt {
      var update := UpdateTxt(SERVICE_TYPE, TxtList(txt));
      assert [update][1..] == [];
      assert DoAll(s.group, [update]) == DoAll(Do(s.group, update), []);
    }
  }

  // RepublishService never takes a short cut: it resets, then registers the remembered record afresh.
  lemma RepublishRegistersAfresh(s: State)
    requires CacheOk(s) && s.cache.serviceType != ""
    ensures RepublishOps(s.cache) ==
            [Reset, Reset, Add(Record(s.cache.serviceType, s.cache.port, TxtList(s.cache.txt))), Commit]
    ensures DoAll(Empty, RepublishOps(s.cache)) == s.group
  {
    var record := Record(s.cache.serviceType, s.cache.port, TxtList(s.cache.txt));
    RegisterCommits(Empty, record);
    assert RepublishOps(s.cache)[1..] == [Reset, Add(record), Commit];
  }

  lemma StepAgrees(s: State, n: Naive, e: Event)
    requires Agree(s, n)
    ensures Agree(Step(s, e), NaiveStep(n, e))
  {
    match e
    case Publish(port, txt) =>
      PublishHolds(s, port, txt);
      RegisterCommits(n.group, Record(SERVICE_TYPE, port, TxtList(txt)));
    case Stop =>
    case Reinitialized =>
      if s.cache.serviceType != "" {
        RepublishRegistersAfresh(s);
        RegisterCommits(Empty, n.published.value);
      }
  }

  /** Over every run of publishing, stopping and Avahi restarts, the group is that of the client without a cache. */
  lemma {:induction false} CacheIsInvisible(events: seq<Event>)
    ensures Run(events).group == NaiveRun(events).group && Agree(Run(events), NaiveRun(events))
  {
    if events == [] {
    } else {
      CacheIsInvisible(events[..|events| - 1]);
      StepAgrees(Run(events[..|events| - 1]), NaiveRun(events[..|events| - 1]), events[|events| - 1]);
    }
  }

  /** The early return happens only when the group already holds the record that was asked for. */
  lemma EarlyReturnIsSafe(events: seq<Event>, port: nat, txt: seq<string>)
    requires PublishOps(Run(events).cache, SERVICE_TYPE, port, txt) == []
    ensures Run(events).group == Committed(Record(SERVICE_TYPE, port, TxtList(txt)))
  {
    CacheIsInvisible(events);
    PublishHolds(Run(events), port, txt);
  }

  // What was published last, if that is still so.
  function Standing(events: seq<Event>): Option<Event> {
    if events == [] then None
    else match events[|events| - 1]
      case Publish(port, txt) => Some(events[|events| - 1])
      case Stop => None
      case Reinitialized => Standing(events[..|events| - 1])
  }

  lemma {:induction false} CacheIsStanding(events: seq<Event>)
    ensures match Standing(events)
            case None => Run(events).cache == NOTHING
            case Some(e) => e.Publish? && Run(events).cache == Cache(e.port, SERVICE_TYPE, e.txt)
  {
    if events == [] {
    } else {
      CacheIsStanding(events[..|events| - 1]);
      hide DoAll, PublishOps, RepublishOps;
    }
  }

  /**
   No needless registration: after any run, publishing what stands makes no operation on the group, publishing
   other TXT strings for the port that stands updates them in place, and only the rest registers afresh.
   */
  lemma NoNeedlessRegistration(events: seq<Event>, port: nat, txt: seq<string>)
    ensures var ops, last := PublishOps(Run(events).cache, SERVICE_TYPE, port, txt), Standing(events);
            && (ops == [] <==> last == Some(Publish(port, txt)))
            && ((exists op :: ops == [op] && op.UpdateTxt?) <==>
                  last.Some? && last.value.Publish? && last.value.port == port && last.value.txt != txt)
  {
    CacheIsStanding(events);
    hide Run;
    if Standing(events).Some? && Standing(events).value.port == port && Standing(events).value.txt != txt {
      assert PublishOps(Run(events).cache, SERVICE_TYPE, port, txt) == [UpdateTxt(SERVICE_TYPE, TxtList(txt))];
    }
  }

  // What is published for a TXT string: all of it, up to the first NUL if it has one.
  predicate Publishes(published: string, given: string) {
    && published <= given && '\0' !in published
    && (|published| < |given| ==> given[|published|] == '\0')
  }

  /**
   After any run, publishing leaves exactly the service with the port given and, entry by entry, the TXT strings
   given, up to a NUL; without a NUL they are published as they are.
   */
  lemma {:induction false} PublishedAsGiven(events: seq<Event>, port: nat, txt: seq<string>)
    ensures var g := Run(events + [Publish(port, txt)]).group;
            && g.Committed? && g.record.serviceType == "_privet._tcp" && g.record.port == port
            && |g.record.txt| == |txt| && (forall i :: 0 <= i < |txt| ==> Publishes(g.record.txt[i], txt[i]))
            && ((forall t <- txt :: '\0' !in t) ==> g.record.txt == txt)
  {
    var all := events + [Publish(port, txt)];
    assert all[..|all| - 1] == events;
    CacheIsInvisible(events);
    PublishHolds(Run(events), port, txt);
    forall i | 0 <= i < |txt| ensures Publishes(TxtList(txt)[i], txt[i]) && ('\0' !in txt[i] ==> TxtList(txt)[i] == txt[i]) {
      CStringStops(txt[i]);
      if |CString(txt[i])| < |txt[i]| { assert txt[i][|CString(txt[i])|] in txt[i]; }
    }
    hide CString, PublishOps, DoAll;
    if forall t <- txt :: '\0' !in t {
      assert forall i :: 0 <= i < |txt| ==> txt[i] in txt;
      assert TxtList(txt) == txt;
    }
  }

  // ---- the object ----

  lemma {:induction false} DoAllTwice(g: Group, ops: seq<Op>, more: seq<Op>)
    ensures DoAll(g, ops + more) == DoAll(DoAll(g, ops), more)
    decreases |ops|
  {
    if ops == [] {
      assert ops + more == more;
    } else {
      assert (ops + more)[0] == ops[0] && (ops + more)[1..] == ops[1..] + more;
      DoAllTwice(Do(g, ops[0]), ops[1..], more);
    }
  }

  class AvahiMdnsClient {
    var prevPort: nat
    var prevServiceType: string
    var txtRecords: seq<string>
    var ops: seq<Op>  // operations made on the entry group since Avahi last emptied it

    ghost function Cached(): Cache
      reads this
    {
      Cache(prevPort, prevServiceType, txtRecords)
    }

    // The state of the machine above: the cache, and the group that the operations produce.
    ghost function View(): State
      reads this
    {
      State(Cached(), DoAll(Empty, ops))
    }

    constructor ()
      ensures View() == State(NOTHING, Empty)
    {
      prevPort, prevServiceType, txtRecords, ops := 0, "", [], [];
    }

    method PublishService(serviceType: string, port: nat, txt: seq<string>)
      requires serviceType == SERVICE_TYPE
      modifies this
      ensures ops == old(ops) + PublishOps(old(Cached()), serviceType, port, txt)
      ensures View() == Step(old(View()), Publish(port, txt))
    {
      DoAllTwice(Empty, ops, PublishOps(Cached(), serviceType, port, txt));
      hide DoAll;
      if prevPort == port && prevServiceType == serviceType && txtRecords == txt {
        assert ops + [] == ops;
        return;
      }
      var txtList: seq<string> := [];
      for i := 0 to |txt|
        invariant txtList == TxtList(txt)[..i]
      {
        txtList := txtList + [CString(txt[i])];
      }
      assert txtList == TxtList(txt);
      txtRecords := txt;
      if prevPort == port && prevServiceType == serviceType {
        ops := ops + [UpdateTxt(serviceType, txtList)];
      } else {
        prevPort := port;
        prevServiceType := serviceType;
        ops := ops + [Reset];
        ops := ops + [Add(Record(serviceType, port, txtList))];
        ops := ops + [Commit];
        assert ops == old(ops) + [Reset, Add(Record(serviceType, port, txtList)), Commit];
      }
    }

    method StopPublishing()
      modifies this
      ensures ops == old(ops) + [Reset] && Cached() == NOTHING
      ensures View() == Step(old(View()), Stop)
    {
      DoAllTwice(Empty, ops, [Reset]);
      assert [Reset][1..] == [];
      ops := ops + [Reset];
      prevServiceType := "";
      prevPort := 0;
      txtRecords := [];
    }

    method RepublishService()
      requires prevServiceType == "" || prevServiceType == SERVICE_TYPE
      modifies this
      ensures Cached() == old(Cached()) && ops == old(ops) + RepublishOps(old(Cached()))
    {
      if prevServiceType == "" { return; }
      var serviceType, port, txt := prevServiceType, prevPort, txtRecords;
      prevServiceType, txtRecords := "", [];  // moved from
      StopPublishing();
      PublishService(serviceType, port, txt);
    }

    // Avahi lost the group's records before it reports that it runs.
    method OnAvahiClientStateUpdate(running: bool)
      requires prevServiceType == "" || prevServiceType == SERVICE_TYPE
      modifies this
      ensures View() == if running then Step(old(View()), Reinitialized) else old(View())
      ensures running ==> ops == RepublishOps(old(Cached()))
    {
      if running {
        ops := [];
        RepublishService();
        assert [] + RepublishOps(old(Cached())) == RepublishOps(old(Cached()));
      }
    }
  }
}
