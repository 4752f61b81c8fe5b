/**
 The client library's objects: ServiceImpl, the subscription that owns it, the
 binder objects that hold it weakly, and the message loop. Methods are tied to
 the functions of Instance that the protocol is built from; replies of the
 daemon and of the binder driver are parameters.
 */
module Libweaved {
  import opened Base
  import opened Fields
  import opened Instance
  import P = Protocol

  datatype Task = TryConnecting(target: ServiceImpl) | Reconnect(target: ServiceImpl)

  class MessageLoop {
    var tasks: seq<Task>

    constructor ()
      ensures tasks == []
    {
      tasks := [];
    }

    method PostTask(task: Task)
      modifies this
      ensures tasks == old(tasks) + [task]
    {
      tasks := tasks + [task];
    }
  }

  class ServiceSubscription {
    var service: ServiceImpl?

    constructor ()
      ensures service == null
    {
      service := null;
    }
  }

  // Calls that an instance makes on the daemon's binder objects.
  datatype Call =
    | ConnectCall(lifetime: nat)
    | RegisterListenerCall(lifetime: nat)
    | RegisterHandlerCall(service: ServiceRef, name: CommandName)

  datatype Outcome = Ran(handler: nat) | Unexpected | Aborted

  class ServiceImpl {
    const loop: MessageLoop
    const subscription: ServiceSubscription
    var manager: Option<nat>
    var service: Option<ServiceRef>
    var commandHandlers: seq<Handler>
    var pairingInfo: Pairing
    var pairingCallback: Option<nat>
    var calls: seq<Call>
    var reports: seq<(nat, Report)>  // pairing callbacks run, with what they were told

    ghost var lastReport: Report
    ghost var connects: nat
    ghost var callbacks: nat

    ghost function View(): State
      reads this
    {
      State(manager, service, commandHandlers, pairingInfo, pairingCallback.Some?, None, lastReport, connects, callbacks)
    }

    // p describes this instance: its state, the tasks queued for it, and whether its subscription owns it.
    ghost predicate Is(p: P.Peer)
      reads this, loop, subscription
    {
      && p.inst == View() && p.life.alive == Alive()
      && p.life.tries == multiset(loop.tasks)[Task.TryConnecting(this)]
      && p.life.reconnects == multiset(loop.tasks)[Reconnect(this)]
    }

    // p describes this instance while one of its connection attempts, taken from the loop, runs.
    ghost predicate IsTrying(p: P.Peer)
      reads this, loop, subscription
    {
      p.life.tries > 0 && Is(p.(life := p.life.(tries := p.life.tries - 1)))
    }

    // p describes this instance while one of its reconnect tasks runs.
    ghost predicate IsReconnecting(p: P.Peer)
      reads this, loop, subscription
    {
      p.life.reconnects > 0 && Is(p.(life := p.life.(reconnects := p.life.reconnects - 1)))
    }

    constructor (loop: MessageLoop, subscription: ServiceSubscription)
      ensures this.loop == loop && this.subscription == subscription
      ensures View() == FRESH && calls == [] && reports == []
    {
      this.loop, this.subscription := loop, subscription;
      manager, service, commandHandlers := None, None, [];
      pairingInfo, pairingCallback := NO_PAIRING, None;
      calls, reports := [], [];
      lastReport, connects, callbacks := NoReport, 0, 0;
    }

    // A weak pointer to this instance can be locked while the subscription holds it.
    predicate Alive()
      reads subscription
    {
      subscription.service == this
    }

    method BeginConnect()
      modifies loop
      ensures loop.tasks == old(loop.tasks) + [Task.TryConnecting(this)]
    {
      loop.PostTask(Task.TryConnecting(this));
    }

    // found: the daemon lifetime whose manager GetService returned, if any.
    method TryConnecting(found: Option<nat>, registered: bool, ghost p: P.Peer, ghost h: P.Host)
      requires IsTrying(p) && Alive() && (found.Some? && registered ==> found == Some(h.lifetime))
      modifies this`manager, this`calls, this`connects, loop
      ensures found.None? ==>
                View() == old(View()) && calls == old(calls) && loop.tasks == old(loop.tasks) + [Task.TryConnecting(this)]
      ensures found.Some? && !registered ==>
                View() == old(View()) && calls == old(calls) && loop.tasks == old(loop.tasks) + [Reconnect(this)]
      ensures found.Some? && registered ==>
                && View() == Connected(old(View()), found.value) && loop.tasks == old(loop.tasks)
                && calls == old(calls) + [ConnectCall(found.value), RegisterListenerCall(found.value)]
      ensures Is(P.OnTryConnecting(p, h, found.Some?, registered))
    {
      ghost var taken := p.(life := p.life.(tries := p.life.tries - 1));
      if found.None? {
        loop.PostTask(Task.TryConnecting(this));  // with a delay of one second
        return;
      }
      if !registered {
        OnWeaveServiceDisconnected(taken, false);
        return;
      }
      manager := found;
      calls := calls + [ConnectCall(found.value)];
      calls := calls + [RegisterListenerCall(found.value)];
      connects := connects + 1;
    }

    method OnWeaveServiceDisconnected(ghost p: P.Peer, ghost again: bool)
      requires Is(p) && Alive()
      modifies loop
      ensures loop.tasks == old(loop.tasks) + [Reconnect(this)]
      ensures Is(P.OnDeathNotice(p, again))
    {
      loop.PostTask(Reconnect(this));
    }

    method ReconnectOnServiceDisconnection(ghost p: P.Peer, ghost n: nat)
      requires IsReconnecting(p) && Alive()
      modifies this`service, loop, subscription
      ensures View() == old(View()).(service := None) && !Alive()
      ensures fresh(subscription.service) && subscription.service.View() == FRESH
      ensures subscription.service.loop == loop && subscription.service.subscription == subscription
      ensures loop.tasks == old(loop.tasks) + [Task.TryConnecting(subscription.service)]
      ensures Is(P.Retired(p.(life := p.life.(reconnects := p.life.reconnects - 1)), n))
      ensures subscription.service.Is(P.NewPeer(p.subscription))
    {
      service := None;
      var replacement := new ServiceImpl(loop, subscription);
      replacement.BeginConnect();
      subscription.service := replacement;
    }

    method OnServiceConnected(weaveService: ServiceRef)
      modifies this`service, this`callbacks
      ensures View() == ServiceReady(old(View()), weaveService)
    {
      service := Some(weaveService);
      callbacks := callbacks + 1;  // connection_callback_ runs with a weak pointer to this
    }

    method AddCommandHandler(component: string, traitName: string, command: string, callback: nat)
      requires component != "" && command != "" && service.Some?
      modifies this`commandHandlers, this`calls
      ensures View() == WithHandler(old(View()), Handler(FullName(component, traitName, command), callback))
      ensures calls == old(calls) + [RegisterHandlerCall(service.value, FullName(component, traitName, command))]
      ensures commandHandlers ==
              old(commandHandlers) + [Handler(CommandName(component, traitName + "." + command), callback)]
      ensures !Handles(old(commandHandlers), CommandName(component, traitName + "." + command)) ==>
                FirstMatch(commandHandlers, CommandName(component, traitName + "." + command)) ==
                Some(|old(commandHandlers)|)
    {
      NewHandlerMatches(commandHandlers, Handler(CommandName(component, traitName + "." + command), callback));
      var name := CommandName(component, traitName + "." + command);
      commandHandlers := commandHandlers + [Handler(name, callback)];
      calls := calls + [RegisterHandlerCall(service.value, name)];
    }

    method OnCommand(component: string, command: string) returns (outcome: Outcome)
      ensures outcome == match FirstMatch(commandHandlers, CommandName(component, command))
                         case Some(k) => Ran(commandHandlers[k].callback)
                         case None => Unexpected
    {
      for i := 0 to |commandHandlers|
        invariant forall k :: 0 <= k < i ==> commandHandlers[k].name != CommandName(component, command)
      {
        var entry := commandHandlers[i];
        if entry.name.component == component && entry.name.command == command {
          return Ran(entry.callback);
        }
      }
      return Unexpected;
    }

    // replies[k] is what the getter for the k-th id returned, None when the call failed.
    method OnNotification(ids: seq<int>, replies: seq<Option<string>>)
      requires |replies| == |ids|
      modifies this`pairingInfo, this`reports, this`lastReport
      ensures View() == EndReading(ReadAll(BeginReading(old(View()), ids), replies))
      ensures reports == old(reports) +
              if pairingCallback.Some? && ReadAll(BeginReading(old(View()), ids), replies).reading.value.changed
              then [(pairingCallback.value, ReportFor(pairingInfo))] else []
      ensures reports != old(reports) ==>
                reports[|old(reports)|].1 ==
                if pairingInfo.sessionId != "" && pairingInfo.mode != "" && pairingInfo.code != ""
                then InfoReport(pairingInfo) else NullReport
    {
      var changed := false;
      ghost var begun := BeginReading(View(), ids);
      assert ids[0..] == ids && replies[0..] == replies;
      for i := 0 to |ids|
        invariant lastReport == old(lastReport) && reports == old(reports)
        invariant ReadAll(View().(reading := Some(Reading(ids[i..], changed))), replies[i..]) == ReadAll(begun, replies)
      {
        ghost var before := View().(reading := Some(Reading(ids[i..], changed)));
        assert ids[i..][1..] == ids[i + 1..] && replies[i..][1..] == replies[i + 1..];
        if ids[i] == PAIRING_SESSION_ID {
          if replies[i].Some? {
            changed := true;
            pairingInfo := pairingInfo.(sessionId := replies[i].value);
          }
        } else if ids[i] == PAIRING_MODE {
          if replies[i].Some? {
            changed := true;
            pairingInfo := pairingInfo.(mode := replies[i].value);
          }
        } else if ids[i] == PAIRING_CODE {
          if replies[i].Some? {
            changed := true;
            pairingInfo := pairingInfo.(code := replies[i].value);
          }
        }
        assert View().(reading := Some(Reading(ids[i + 1..], changed))) == ReadNext(before, replies[i]);
      }
      assert ids[|ids|..] == [] && replies[|ids|..] == [];
      if !changed || pairingCallback.None? { return; }
      if pairingInfo.sessionId == "" || pairingInfo.mode == "" || pairingInfo.code == "" {
        RunPairingCallback(NullReport);
      } else {
        RunPairingCallback(InfoReport(pairingInfo));
      }
    }

    method RunPairingCallback(report: Report)
      requires pairingCallback.Some?
      modifies this`reports, this`lastReport
      ensures reports == old(reports) + [(pairingCallback.value, report)] && lastReport == report
    {
      reports := reports + [(pairingCallback.value, report)];
      lastReport := report;
    }

    method SetPairingInfoListener(callback: Option<nat>)
      modifies this`pairingCallback, this`reports, this`lastReport
      ensures View() == SetListener(old(View()), callback.Some?) && pairingCallback == callback
      ensures reports == old(reports) +
              if callback.Some? && pairingInfo.sessionId != "" && pairingInfo.mode != "" && pairingInfo.code != ""
              then [(callback.value, InfoReport(pairingInfo))] else []
    {
      pairingCallback := callback;
      lastReport := NoReport;
      if callback.Some? && pairingInfo.sessionId != "" && pairingInfo.mode != "" && pairingInfo.code != "" {
        RunPairingCallback(InfoReport(pairingInfo));
      }
    }
  }

  // Service::Connect: the subscription returned is the only owner of the new instance.
  method Connect(loop: MessageLoop) returns (subscription: ServiceSubscription)
    modifies loop
    ensures fresh(subscription) && subscription.service != null && fresh(subscription.service)
    ensures subscription.service.Alive() && subscription.service.View() == FRESH
    ensures subscription.service.subscription == subscription
    ensures loop.tasks == old(loop.tasks) + [Task.TryConnecting(subscription.service)]
    ensures forall u :: subscription.service.Is(P.NewPeer(u))
  {
    subscription := new ServiceSubscription();
    var service := new ServiceImpl(loop, subscription);
    subscription.service := service;
    service.BeginConnect();
  }

  // The IWeaveClient callback object; it holds its instance weakly.
  class WeaveClient {
    const target: ServiceImpl

    constructor (target: ServiceImpl)
      ensures this.target == target
    {
      this.target := target;
    }

    method OnServiceConnected(weaveService: ServiceRef)
      modifies target`service, target`callbacks
      ensures target.View() ==
              if target.Alive() then ServiceReady(old(target.View()), weaveService) else old(target.View())
    {
      if target.Alive() {
        target.OnServiceConnected(weaveService);
      }
    }

    method OnCommand(component: string, command: string) returns (outcome: Outcome)
      ensures !target.Alive() ==> outcome == Aborted
      ensures target.Alive() ==> outcome == match FirstMatch(target.commandHandlers, CommandName(component, command))
                                            case Some(k) => Ran(target.commandHandlers[k].callback)
                                            case None => Unexpected
    {
      if target.Alive() {
        outcome := target.OnCommand(component, command);
      } else {
        outcome := Aborted;  // "service_unavailable"
      }
    }
  }

  // The IWeaveServiceManagerNotificationListener object, likewise weak.
  class NotificationListener {
    const target: ServiceImpl

    constructor (target: ServiceImpl)
      ensures this.target == target
    {
      this.target := target;
    }

    method NotifyServiceManagerChange(ids: seq<int>, replies: seq<Option<string>>)
      requires |replies| == |ids|
      modifies target`pairingInfo, target`reports, target`lastReport
      ensures target.View() == if target.Alive() then EndReading(ReadAll(BeginReading(old(target.View()), ids), replies))
                               else old(target.View())
    {
      if target.Alive() {
        target.OnNotification(ids, replies);
      }
    }
  }
}
