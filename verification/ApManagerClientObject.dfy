/** The ApManagerClient object; its methods carry out the client half of AccessPoint. */
module ApManagerClientObject {
  import opened Base
  import A = AccessPoint

  class ApManagerClient {
    var objectManager: Option<nat>
    var managerProxy: Option<nat>
    var servicePath: Option<string>
    var serviceProxy: Option<string>
    var ssid: string
    var objectManagers: nat          // numbers the object manager proxies created
    var removeCalls: seq<string>     // RemoveService calls made on the manager proxy
    var createCalls: nat             // CreateService calls made
    var ssidsSet: seq<string>        // ssids written to service configurations
    var startCalls: seq<string>      // services started

    ghost function View(): A.Client
      reads this
    {
      A.Client(servicePath, serviceProxy, managerProxy, objectManager, ssid)
    }

    // Outside the handlers a valid path has its manager, and a service proxy is the one for that path.
    ghost predicate Valid()
      reads this
    {
      && (servicePath.Some? ==> managerProxy.Some?)
      && (serviceProxy.Some? ==> serviceProxy == servicePath)
    }

    function Asked(removal: Option<string>): seq<string> {
      if removal.Some? then [removal.value] else []
    }

    constructor ()
      ensures View() == A.IDLE && Valid()
      ensures removeCalls == [] && createCalls == 0 && ssidsSet == [] && startCalls == []
    {
      objectManager, managerProxy, servicePath, serviceProxy, ssid := None, None, None, None, "";
      objectManagers, removeCalls, createCalls, ssidsSet, startCalls := 0, [], 0, [], [];
    }

    method Start(newSsid: string)
      requires Valid()
      modifies this`objectManager, this`ssid, this`objectManagers
      ensures Valid() && View() == A.Started(old(View()), newSsid, old(objectManagers))
      ensures servicePath.None? ==> ssid == newSsid && objectManager == Some(old(objectManagers))
      ensures servicePath.Some? ==> View() == old(View())
    {
      if servicePath.Some? { return; }
      ssid := newSsid;
      objectManager := Some(objectManagers);
      objectManagers := objectManagers + 1;
    }

    method Stop()
      modifies this`objectManager, this`managerProxy, this`servicePath, this`serviceProxy, this`ssid, this`removeCalls
      ensures Valid() && View() == A.Stopped(old(View()))
      ensures removeCalls == old(removeCalls) + Asked(A.StopRemoves(old(View())))
      ensures old(Valid()) ==> removeCalls == old(removeCalls) + Asked(old(servicePath))
    {
      if managerProxy.Some? && servicePath.Some? {
        RemoveService(servicePath.value);
      }
      servicePath, serviceProxy, managerProxy, objectManager, ssid := None, None, None, None, "";
    }

    method RemoveService(path: string)
      requires managerProxy.Some?
      modifies this`removeCalls
      ensures removeCalls == old(removeCalls) + [path]
    {
      removeCalls := removeCalls + [path];
    }

    // reply: the path returned by CreateService, None when it fails.
    method OnManagerAdded(number: nat, reply: Option<string>)
      requires Valid()
      modifies this`managerProxy, this`servicePath, this`createCalls
      ensures Valid() && View() == A.ManagerAdded(old(View()), number, reply)
      ensures createCalls == old(createCalls) + if A.CreatesService(old(View())) then 1 else 0
      ensures managerProxy == Some(number)
      ensures servicePath == if old(servicePath).Some? then old(servicePath) else reply
      ensures createCalls == old(createCalls) + if old(servicePath).None? then 1 else 0
    {
      managerProxy := Some(number);
      if servicePath.Some? { return; }
      createCalls := createCalls + 1;
      servicePath := reply;
    }

    method OnServiceAdded(path: string)
      requires Valid() && managerProxy.Some?
      modifies this`serviceProxy, this`removeCalls, this`ssidsSet
      ensures Valid() && View() == A.ServiceAdded(old(View()), path)
      ensures servicePath == Some(path) ==> serviceProxy == Some(path) && removeCalls == old(removeCalls)
      ensures servicePath != Some(path) ==> removeCalls == old(removeCalls) + [path]
      ensures removeCalls == old(removeCalls) + Asked(A.AddedRemoves(old(View()), path))
      ensures ssidsSet == old(ssidsSet) + if old(servicePath) == Some(path) then [ssid] else []
    {
      if servicePath != Some(path) {
        RemoveService(path);
        return;
      }
      serviceProxy := Some(path);
      ssidsSet := ssidsSet + [ssid];
    }

    // The reply to setting the ssid starts the service, if it is still there.
    method OnSsidSet(success: bool)
      requires Valid()
      modifies this`startCalls
      ensures Valid()
      ensures startCalls == old(startCalls) + if success && serviceProxy.Some? then Asked(servicePath) else []
    {
      if !success || serviceProxy.None? { return; }
      startCalls := startCalls + [serviceProxy.value];
    }

    method OnServiceRemoved(path: string)
      requires Valid()
      modifies this`servicePath, this`serviceProxy
      ensures Valid() && View() == A.ServiceRemoved(old(View()), path)
      ensures old(servicePath) == Some(path) ==> servicePath.None? && serviceProxy.None?
      ensures old(servicePath) != Some(path) ==> View() == old(View())
    {
      if servicePath != Some(path) { return; }
      servicePath, serviceProxy := None, None;
    }

    method OnManagerRemoved()
      modifies this`objectManager, this`managerProxy, this`servicePath, this`serviceProxy, this`ssid, this`removeCalls
      ensures Valid() && View() == A.Stopped(old(View())) && removeCalls == old(removeCalls)
    {
      managerProxy := None;
      Stop();
    }
  }
}
