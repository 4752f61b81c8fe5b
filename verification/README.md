# Verification of weaved's protocol and state machines

This project models the stateful core of weaved, the Weave daemon for Brillo, and of its client library, and
proves what they guarantee over every run.

| Part | Files |
|---|---|
| connection, command and pairing protocol between any number of client instances and one daemon that may die and restart | `Fields`, `Daemon`, `Instance`, `Protocol`; proofs in `Reconnection`, `Recovery`, `Progress`, `Commands`, `Coherence`, with runs in `MidSession` and `TornRead`; objects in `Weaved`, `Libweaved` |
| ShillClient: device table, connectivity, one Wi-Fi connection attempt at a time | `Shill`; proofs in `ShillPaths`, `ShillAttempts`, `ShillErrors`, `ShillAnswers`, `ShillConnectivity`, `ShillDevices`, with a run in `ShillSharing`; object in `ShillClientObject` |
| ApManagerClient and the apmanager daemon it watches | `AccessPoint`; object in `ApManagerClientObject` |
| AvahiMdnsClient's publish cache | `MdnsPublish` |
| BuffetConfig's named settings files | `BuffetConfig` |

Each part has the same shape. A state is a datatype and each handler a function on it; a run is a sequence of
events folded over those functions, where an event that is not possible in a state changes nothing. The source's
objects are classes whose methods update fields in place and are proved to carry out exactly those functions, and
the results are lemmas about every run. In the protocol, messages and delayed tasks are bags, so every delivery
order is covered. The handling of one notification is split into one step per fetched field, so that anything the
daemon does may fall between two fetches.

## What is assumed about the environment

- Every handler runs to completion on its message loop, except that the daemon may act between the getter calls of
  one `OnNotification` (`libweaved/service.cc:464-485`).
- Converting strings for binder loses nothing. Each instance brings its own `WeaveClient` and listener objects, as
  libweaved creates them afresh (`libweaved/service.cc:430-434`). Clients keep no strong reference to a `Service`.
- Connection callbacks and connectivity listeners may call `ShillClient::Connect` again any number of times while
  they run. Callbacks given to `Connect` are not null.
- `Network::State` is ordered offline, error, connecting, online; the order and shill's string constants come from
  libweave and shill, which are not part of this model. Replies of D-Bus calls are arbitrary inputs.
- apmanager reports its manager before its services and its signals in order; it never reuses a service path.
- Avahi's loss of the entry group and the callback that follows it are one step.
- A ciphertext decrypts to the text it was made from, unless the keystore fails, which it may do at any call. A failed
  write leaves the file as it was, which `WriteFileAtomically` provides (`buffet/buffet_config.cc:48-51`).

## Where the code differs from what one would expect

- `LoadSettings` tries to empty settings that fail to decrypt, but passes name and contents in the wrong order
  (`buffet/buffet_config.cc:181` against `buffet/buffet_config.cc:191-193`). A failure on a named file, even a transient
  one on good contents, therefore overwrites the default settings with that name (`BuffetConfig.DefaultsLost`).
  `BuffetConfig.LoadLeavesOthers` gives the exact condition for one load, `BuffetConfig.StoreIsAMapExactly` for a run.
- When the apmanager manager goes, ApManagerClient forgets its service without removing it. If the service outlives
  that signal, a later start creates a second one beside it (`AccessPoint.ReplacedManagerLeavesTwo`), until the report
  of the first one is handled and its removal works (`AccessPoint.TwoUntilReported`). `AccessPoint.AtMostOneExactly`
  says exactly on which runs there are never two, `AccessPoint.OwnedExactly` on which no service loses its owner.
- Of several devices with the same selected service only the first in path order hears of a new state
  (`buffet/shill_client.cc:523-530`), and a device that takes over the connecting proxy reads the state for itself alone
  (`buffet/shill_client.cc:370-378`). `ShillSharing.TakeoverLeavesFirstStale` is a run that leaves a device stale;
  `ShillDevices.StepCachedExactly` and `ShillDevices.TableRightExactly` give the exact condition for a step and a run.
- A pairing listener gets no initial values (`libweaved/service.cc:428-434`) and unchanged fields are not sent again
  (`buffet/manager.cc:159-161`). `MidSession.LateListenerHearsNothing` is a run in which a client misses the session
  exposed when it registered; `Coherence.PairingReportExactly` says exactly when a client holds the daemon's triple.
- Fields are fetched one by one (`libweaved/service.cc:464-485`), so a callback may be told a triple that was never
  exposed. `TornRead.MixedTripleReported` is such a run; by `Coherence.TornReportIsRepaired` a correction is then on its
  way.
- `connecting_service_error_` outlives the attempt it belongs to (`buffet/shill_client.cc:564-571`), so an attempt may
  be answered with the error of an earlier one. `ShillErrors.LeftoverReported` is a run in which that happens and
  `ShillErrors.ForeignErrorExactly` says exactly when.
- The comment at `libweaved/service.cc:115-116` promises that components of a client that exits are cleaned up; the
  code for it is disabled (`buffet/binder_weave_service.cc:38-41`) and nothing is claimed about it.

## Model

| member | source | states |
|---|---|---|
| Reconnection.NeverStuck | libweaved/service.cc:407-457 | in every reachable state a live instance is in exactly one phase: one attempt queued and no death watch; or watching a daemon that lives or whose death notice is undelivered; or a reconnect task queued |
| Reconnection.ConnectsAndCallsBackOnce | libweaved/service.cc:384-435 | over every run an instance sends connect at most once and runs its connection callback at most once, and only after connecting |
| Reconnection.CallbackOnlyWhenReady | libweaved/service.cc:255-262 | the connection callback runs only on a live instance, for the first time, and with the service made for that very client in place |
| Reconnection.DeadInstancesStaySilent | libweaved/service.cc:444-457 | whatever late message, task or death notice reaches a replaced or dropped instance, its callback does not run and it does not come back to life |
| Reconnection.ReplacedExactlyOnce | libweaved/service.cc:437-457 | any number of death notices and failed registrations creates at most one replacement, and exactly one once the reconnect tasks have run, unless the subscription was dropped |
| Reconnection.ReconnectStartsAfresh | libweaved/service.cc:444-457 | the reconnect task of a live instance ends it and hands its subscription to one fresh instance that is already trying to connect |
| Reconnection.OneLiveInstancePerSubscription | libweaved/service.cc:86-102 | of all instances ever made for a subscription exactly the one it holds is alive, and none once it is dropped |
| Reconnection.EachClientServedOnce | buffet/manager.cc:454-476 | in the whole protocol no client is taken in twice by one daemon lifetime, so services_ is exactly the served, not yet disconnected clients, each with the service it was sent |
| Reconnection.SendsDrainPending | buffet/manager.cc:454-471 | what the daemon sends to a client in one step is exactly what it takes off the waiting list for that client |
| Reconnection.RunKeeps | libweaved/service.cc:407-457 | the inductive invariant of phases, single connect and answer, single listener, own service, single replacement and ownership holds in every reachable state |
| Recovery.AlwaysRecoverable | libweaved/service.cc:407-457 | from every reachable state there is a continuation without crash, Stop or dropped subscription after which the instance owned by an open subscription has run its callback once and holds a service of the running daemon |
| Progress.EveryScheduleRestores | libweaved/service.cc:407-457 | while the daemon and its device stay up and the subscription is kept, along every schedule at most eight tasks, notices and messages are carried out for the instance a subscription owns before it has its callback and a service of the running daemon; until then, whenever no notification is being handled, there is one to carry out |
| Progress.StepComesCloser | libweaved/service.cc:378-457 | each of these steps brings the owned instance strictly closer to its callback, and no other step takes it further away, also when it is replaced on the way |
| Recovery.RunKeeps | buffet/manager.cc:364-370 | a connect sent to the running daemon is never lost: over every run it is on its way, waiting, or answered, the answer being on its way or taken; services belong to the daemon lifetime that was asked |
| Commands.EveryCommandHasItsHandler | libweaved/service.cc:331-343 | over every run, every command in flight to an instance has a matching entry in its command_handlers_ |
| Commands.DeliveryRunsExactlyOneHandler | libweaved/service.cc:390-405 | delivery runs exactly one callback, the earliest registered match, or aborts the command when the instance is gone; the tail for unexpected commands is unreachable |
| Commands.NoCommandIsLost | libweaved/service.cc:264-277 | all commands ever sent to an instance are in flight, were run once, or were aborted |
| Commands.RegisteredCommandRuns | buffet/binder_weave_service.cc:58-88 | from every reachable state: once the daemon takes in a registration that is on its way from a live client with its service, a command for it reaches the client and runs the handler registered first for that name |
| Commands.StopDropsRoutes | buffet/manager.cc:273-274 | without its device the daemon routes no command |
| Commands.DeathsReachTheBooks | buffet/manager.cc:473-481 | a client's or a listener's death reaching the daemon removes its entry and no other |
| Commands.HostRoutes | buffet/binder_weave_service.cc:58-68 | the daemon routes commands only for component and name pairs whose registration it took in |
| Coherence.PairingCacheCoherent | libweaved/service.cc:459-485 | in every reachable state, also between the fetches of one notification, a pairing field changed since the registration and fetched without failure equals the daemon's, or a notification naming it is still to be processed |
| Coherence.PairingReportExactly | libweaved/service.cc:487-495 | once notifications are drained, a client holds the daemon's triple if and only if every field unchanged since its registration is empty; its callback was last told the triple it holds exactly when that is complete, and otherwise nullptr or nothing |
| Coherence.PairingReportCorrect | libweaved/service.cc:368-376 | so a client that registered while no pairing was exposed holds and was told exactly the daemon's triple |
| Coherence.RunKeepsUntouched | libweaved/service.cc:428-434 | over every run a pairing field that never changed since the registration is empty at the client and named by no notification |
| MidSession.LateListenerHearsNothing | libweaved/service.cc:428-434 | a concrete run in which a listener registered during a session is drained and its client holds nothing |
| TornRead.MixedTripleReported | libweaved/service.cc:464-495 | a concrete run in which a session starts between two fetches and the callback is told a triple that is exposed at no point of the run |
| Coherence.TornReportIsRepaired | libweaved/service.cc:487-495 | over every run, when a client that follows the daemon finishes a notification, its callback is told the daemon's triple, or an undelivered notification names a field that is still wrong |
| Coherence.RegistrationRecorded | buffet/manager.cc:372-380 | a registration taken in makes the listener known, with nothing changed since, and records whether a pairing was exposed |
| Coherence.ReadingKeepsCoherence | libweaved/service.cc:464-485 | fetching one field, with success or failure, never loses the repair of another stale field |
| Coherence.ChangesAreAnnounced | buffet/manager.cc:154-163 | a daemon step changes a field only together with a notification naming it |
| Coherence.RunKeeps | buffet/manager.cc:320-347 | coherence and up-to-date reports are an invariant of every run with crashes, reconnections and drops at any point |
| Fields.IdsOfTheInterface | brillo/android/weave/IWeaveServiceManagerNotificationListener.aidl:20-33 | the notification ids are those of the interface |
| Fields.ApplyAssigns | buffet/manager.cc:299-317 | a batch of updates gives each named field its value and leaves the others alone |
| Fields.ChangedIdsAreTheDifferences | buffet/manager.cc:154-163 | the ids collected for a batch are exactly those of the fields that differ before and after it, each once |
| Fields.PairingStep | buffet/manager.cc:320-347 | what one pairing start or end does to the exposed triple |
| Fields.PairingExposureMatchesHistory | buffet/manager.cc:320-347 | after any sequence of starts and ends the exposed triple is that of the latest start if its session was not ended since, and empty otherwise |
| Fields.PairingNoteNamesTheChanges | buffet/manager.cc:483-489 | each pairing event sends exactly the ids of the fields it changed, without repeats, and nothing when none changed |
| Daemon.ClientConservation | buffet/manager.cc:364-370 | over every run connects are answered in order, each once or still pending; nobody waits while a device is present; with distinct clients services_ is exact |
| Daemon.DeviceMatchesHistory | buffet/manager.cc:232-274 | over every run a device is present exactly when one was created after the last Stop |
| Daemon.ListenersMatchHistory | buffet/manager.cc:372-380 | over every run the listeners are exactly those that registered and whose death was not reported after that |
| Daemon.GoneMatchesHistory | buffet/manager.cc:473-476 | over every run a client counts as gone exactly when its death was reported while it had a service |
| Daemon.DeathRemoves | buffet/manager.cc:473-476 | the death of a client removes its entry and no other |
| Daemon.ServedOnlyWithDevice | buffet/manager.cc:454-455 | a service is sent only by a step that ends with a device present, and what was sent is never taken back |
| Daemon.StepServesPending | buffet/manager.cc:232-271 | a step serves a front part of the waiting clients in order, all of them if a device is present afterwards, and nobody else |
| Daemon.ServedAtMostOnce | buffet/manager.cc:458-464 | a client is sent two services only if it connected twice |
| Daemon.ServingKeepsExact | buffet/manager.cc:460-464 | draining the waiting clients keeps services_ exact, with each entry the service that was sent |
| Instance.NameInFull | libweaved/service.cc:331-332 | the full name of a command is the trait name, a dot and the command name, for the same component |
| Instance.NewHandlerMatches | libweaved/service.cc:334-338 | after a registration the name runs the new handler if none was registered for it, and otherwise the same one as before |
| Instance.ReadAllTakesLast | libweaved/service.cc:464-485 | after a whole notification a pairing field holds what the last fetch that succeeded for it returned |
| Instance.ReadAllKeeps | libweaved/service.cc:464-485 | a field for which no fetch succeeded is kept |
| Instance.ReadAllChanges | libweaved/service.cc:460-488 | something counts as changed exactly when some fetch of a pairing field succeeded, and nothing but the pairing copy is touched |
| Instance.FirstMatch | libweaved/service.cc:396-402 | the search finds a handler exactly when one with that component and name exists, and then the earliest |
| Weaved.BinderWeaveService.RegisterCommandHandler | buffet/binder_weave_service.cc:58-68 | the routes that the device's handlers stand for become exactly those after the protocol's step for this registration |
| Weaved.Device.Dispatch | buffet/binder_weave_service.cc:63-66 | only a registered handler is called back, and it sends the client exactly the component and command names bound at registration |
| Weaved.Manager.ServeClient | buffet/manager.cc:461-464 | one round of the draining loop sends one service of the present device and enters it unless the client has an entry, which stays |
| Weaved.Manager.CreateServicesForClients | buffet/manager.cc:454-471 | refines Daemon.CreateServices; every pending client is sent its own service, all of the present device |
| Weaved.Manager.Connect | buffet/manager.cc:364-370 | refines Daemon.Connect with and without a device; earlier messages stay as they were |
| Weaved.Manager.CreateDevice | buffet/manager.cc:232-271 | refines Daemon.CreateDevice: an existing device stays, a new one has no handlers and serves everybody waiting |
| Weaved.Manager.Stop | buffet/manager.cc:273-274 | only the device goes |
| Weaved.Manager.OnClientDisconnected | buffet/manager.cc:473-476 | exactly that client's entry goes |
| Weaved.Manager.RegisterNotificationListener | buffet/manager.cc:372-380 | adds exactly that listener |
| Weaved.Manager.OnNotificationListenerDestroyed | buffet/manager.cc:478-481 | removes exactly that listener |
| Weaved.Manager.NotifyServiceManagerChange | buffet/manager.cc:483-489 | for every listener and every list of ids, the number of such notifications sent grows by one if these are the ids and it is registered, and not at all otherwise |
| Weaved.NotesReachTheirWire | buffet/manager.cc:487-488 | what the protocol adds to a client's wire by any step of the daemon is what its listener is sent |
| Weaved.Manager.UpdateValue | buffet/manager.cc:154-163 | writes the one member and appends its id exactly when the value differs, as the next update of the batch being applied |
| Weaved.Manager.OnPairingStart | buffet/manager.cc:320-334 | exposes exactly the session id, mode and code given and notifies every listener of exactly the changed ids |
| Weaved.Manager.OnPairingEnd | buffet/manager.cc:336-347 | exposes nothing after the end of the exposed session, and the same as before after the end of another, with exactly the changed ids |
| Weaved.Manager.OnConfigChanged | buffet/manager.cc:299-318 | leaves each setting in the field whose id belongs to it and the pairing alone, and notifies every listener of exactly the changed ids |
| Weaved.Manager.OnTraitDefsChanged | buffet/manager.cc:285-287 | every listener is told of changed traits |
| Weaved.Manager.OnComponentTreeChanged | buffet/manager.cc:289-291 | every listener is told of changed components |
| Weaved.Manager.OnGcdStateChanged | buffet/manager.cc:293-295 | the state is recorded and every listener is told |
| Libweaved.ServiceImpl.BeginConnect | libweaved/service.cc:378-382 | posts one connection attempt for this instance |
| Libweaved.ServiceImpl.TryConnecting | libweaved/service.cc:407-435 | posts itself again without a daemon; posts a reconnect when the death watch fails; otherwise sends connect, then registers the listener, once each; with the tasks counted off the message loop this is the protocol's OnTryConnecting |
| Libweaved.ServiceImpl.OnWeaveServiceDisconnected | libweaved/service.cc:437-442 | posts one reconnect task, which is the protocol's OnDeathNotice |
| Libweaved.ServiceImpl.ReconnectOnServiceDisconnection | libweaved/service.cc:444-457 | carries out the protocol's Retired, and the subscription owns a fresh instance that is the protocol's NewPeer |
| Libweaved.ServiceImpl.OnServiceConnected | libweaved/service.cc:384-388 | holds the service and runs the connection callback |
| Libweaved.ServiceImpl.AddCommandHandler | libweaved/service.cc:324-344 | appends the handler under component and trait, dot, command, registers that same name with the daemon, and from then on that name runs it unless an earlier one has it |
| Libweaved.ServiceImpl.OnCommand | libweaved/service.cc:390-405 | runs the earliest matching handler, or reports an unexpected command exactly when none matches |
| Libweaved.ServiceImpl.OnNotification | libweaved/service.cc:459-496 | equals the step-by-step reading used by the protocol, and reports to the callback exactly when some fetch succeeded: the triple if it is complete, else nullptr |
| Libweaved.ServiceImpl.SetPairingInfoListener | libweaved/service.cc:368-376 | a new callback hears at once of a complete triple and of nothing else |
| Libweaved.Connect | libweaved/service.cc:498-508 | the subscription returned owns a fresh live instance that is the protocol's NewPeer |
| Libweaved.WeaveClient.OnServiceConnected | libweaved/service.cc:255-262 | reaches the instance only while it is alive |
| Libweaved.WeaveClient.OnCommand | libweaved/service.cc:264-277 | runs the earliest match of a live instance, and aborts the command of a dead one |
| Libweaved.NotificationListener.NotifyServiceManagerChange | libweaved/service.cc:283-289 | is handled by a live instance and ignored for a dead one |
| ShillAttempts.EveryCallAccountedFor | buffet/shill_client.cc:138-198 | over every run, with callbacks that call Connect again, each call is answered exactly once, or held for the attempt under way, or was dropped by a shill reset or a failed signal registration, never two of these |
| ShillAttempts.BusyOnlyWithTimer | buffet/shill_client.cc:142-185 | whenever an attempt is under way its callback is held and a timer bound to that very proxy is queued |
| ShillAttempts.TimerAnswersWithError | buffet/shill_client.cc:187-198 | that timer, when it fires, ends the attempt and answers the held call with a non-empty error |
| ShillAttempts.StaleTimerIsHarmless | buffet/shill_client.cc:187-192 | a timer of any other proxy changes nothing but the task queue |
| ShillAttempts.FinishedStaysFinished | buffet/shill_client.cc:169-185 | an attempt that is over never comes back in any continuation of the run, even if the same service path is configured again |
| ShillAttempts.RunKeeps | buffet/shill_client.cc:466-500 | conservation of calls and the timer of the running attempt are an invariant of every run |
| ShillAnswers.AnsweredWithoutErrorExactly | buffet/shill_client.cc:466-474 | over every run, a step answers the held call without an error, first of all, and ends the attempt if and only if the service being connected comes online by it, signalled or read; every other answer of any step tells of an error |
| ShillAnswers.ConnectAnswers | buffet/shill_client.cc:138-185 | a call during an attempt is answered "busy", one that cannot be configured with that error, and any other is held with a fresh proxy for its path and a timer |
| ShillAnswers.ReentrantCallsMade | buffet/shill_client.cc:466-500 | the Connect calls that a callback makes are all carried out, in order, each like one made on its own |
| ShillAnswers.OrderIsLexicographic | buffet/shill_client.cc:523-530 | the order in which devices are searched is that of their paths as strings |
| ShillAnswers.StatesAsMapped | buffet/shill_client.cc:70-95 | which states of a shill service mean online, connecting and error; any other means offline |
| ShillAnswers.StrengthCallsConnect | buffet/shill_client.cc:502-514 | Connect is called for an attempt exactly by the first signal strength above zero of its own service |
| ShillAnswers.RegistrationReplaysSignals | buffet/shill_client.cc:421-433 | a successful registration reply has the effect of the signals it stands in for, in the order state, strength, error, and none for an unknown service |
| ShillAnswers.FailedRegistrationDrops | buffet/shill_client.cc:407-409 | a failed one ends the attempt it was made for, drops its call, and changes nothing else |
| ShillAnswers.OwnerLossForgets | buffet/shill_client.cc:239-242 | when shill goes devices, connectivity and attempt are forgotten, and a held call is dropped |
| ShillAnswers.ListAdmits | buffet/shill_client.cc:219-309 | a valid list leaves exactly the listed devices that were known or whose interface is in the whitelist, or any with an empty whitelist |
| ShillAnswers.ResetListsDevices | buffet/shill_client.cc:122-136 | when shill comes back exactly the listed devices that the whitelist admits are known, all without a service |
| ShillAnswers.DeselectionClears | buffet/shill_client.cc:356-364 | a device that selects the root path has no service and is offline |
| ShillPaths.ValidPathsExactly | buffet/shill_client.cc:275-278 | a path is valid if and only if it is the root or names of letters, digits and underscores, each led by a slash |
| ShillErrors.ForeignErrorExactly | buffet/shill_client.cc:187-198 | over every run, however an attempt fails, its call is answered with the text last signalled for another attempt if and only if no error was signalled during it, the text left over is not empty, and Connect had been called for it or the text is that for out of range |
| ShillErrors.FailureAnswers | buffet/shill_client.cc:466-500 | a timer, a failure signal or a failure read on registration answers the held call first, with out of range, an internal error, or the stored text |
| ShillErrors.LeftoverReported | buffet/shill_client.cc:456-463 | a concrete run in which the second call is told of the wrong passphrase of the first |
| ShillConnectivity.ConnectivityIsMaximum | buffet/shill_client.cc:533-546 | after every handler connectivity_state_ is the maximum over the devices, Offline without any, also where the code skips the update |
| ShillConnectivity.AggregateIsMaximum | buffet/shill_client.cc:536-542 | the aggregate is a maximum, and the only one |
| ShillConnectivity.NoMissedConnectivityChange | buffet/shill_client.cc:547-556 | connectivity_state_ is what it was at the last listener round, Offline since the last reset, or a round is queued |
| ShillConnectivity.RoundRunsEveryListener | buffet/shill_client.cc:558-562 | a queued round runs every listener registered when it executes, once and in order |
| ShillConnectivity.FreshSelectionIsIdle | buffet/shill_client.cc:381-396 | selecting a new service on an idle device cannot move the aggregate, so skipping the update is right |
| ShillConnectivity.ListKeeps | buffet/shill_client.cc:264-309 | the aggregate stays right through a device list, including the early return after some devices were added |
| ShillDevices.DeviceCacheCorrect | buffet/shill_client.cc:337-454 | while no two devices share a service, each cached state is the mapping of the last valid state observed for the service since the device selected it, Offline if none or without a service |
| ShillDevices.StepCachedExactly | buffet/shill_client.cc:337-454 | a step keeps every cached state right if and only if the devices sharing a service whose state it tells, other than the one it is cached for, have that state already |
| ShillDevices.TableRightExactly | buffet/shill_client.cc:337-454 | over every run the table is right throughout if and only if no step leaves a sharing device behind |
| ShillDevices.StateChangeCachedExactly | buffet/shill_client.cc:516-531 | the same for a state signal, cached for the first device in path order |
| ShillDevices.SelectionCachedExactly | buffet/shill_client.cc:363-382 | the same for a selection, cached for the device that takes over the connecting proxy |
| ShillSharing.TakeoverLeavesFirstStale | buffet/shill_client.cc:370-378 | a concrete run in which the second device finds the shared service online and the first stays connecting |
| ShillDevices.LastSeenMeaning | buffet/shill_client.cc:516-531 | what "last observed since the selection" means, read off the positions of the whole history |
| ShillDevices.ValidListReconciles | buffet/shill_client.cc:264-309 | a valid list, repeats included, leaves exactly the listed devices that were known or are monitored; those that stay keep service and state |
| ShillDevices.InvalidListOnlyAdds | buffet/shill_client.cc:274-278 | an invalid path stops the update: nothing is removed and only monitored paths before it are added |
| Shill.ValidPrefix | buffet/shill_client.cc:274-278 | the entries before the first invalid path |
| ShillClientObject.ShillClient.constructor | buffet/shill_client.cc:97-118 | starts in the state that Init gives |
| ShillClientObject.ShillClient.DoInit | buffet/shill_client.cc:122-136 | refines Shill.Init, with and without a reply from shill |
| ShillClientObject.ShillClient.OnShillServiceOwnerChange | buffet/shill_client.cc:236-246 | everything is forgotten when shill goes, and read afresh when it comes back |
| ShillClientObject.ShillClient.Connect | buffet/shill_client.cc:138-185 | refines Shill.Connect: busy, failed configuration with its error posted, or a new attempt with its callback and its timer |
| ShillClientObject.ShillClient.RunCallback | buffet/shill_client.cc:466-485 | running a callback that calls Connect again any number of times has the effect of those calls in order |
| ShillClientObject.ShillClient.ConnectToServiceError | buffet/shill_client.cc:187-198 | refines Shill.ConnectToServiceError: ignored for another proxy, else answered with a non-empty error |
| ShillClientObject.ShillClient.OnErrorChangeForConnectingService | buffet/shill_client.cc:487-500 | refines Shill.AttemptFailed: the attempt is cleaned up before its callback runs |
| ShillClientObject.ShillClient.OnStateChangeForConnectingService | buffet/shill_client.cc:466-485 | refines Shill.ConnectingStateChanged for all four network states; a state that means online answers the held call first, without an error |
| ShillClientObject.ShillClient.OnStrengthChangeForConnectingService | buffet/shill_client.cc:502-514 | refines Shill.StrengthChanged: Connect is called once per attempt, and only at a strength above zero |
| ShillClientObject.ShillClient.UpdateConnectivityState | buffet/shill_client.cc:533-556 | the loop over devices, in any order, computes the maximum and posts one round |
| ShillClientObject.ShillClient.NotifyConnectivityListeners | buffet/shill_client.cc:558-562 | runs every listener once, in order, and carries out the Connect calls that each listener makes meanwhile |
| ShillClientObject.ShillClient.AddConnectionChangedCallback | buffet/shill_client.cc:214-217 | appends the listener and changes nothing else |
| ShillClientObject.ShillClient.OnStateChangeForSelectedService | buffet/shill_client.cc:516-531 | the search in key order updates exactly the first device that selected the service |
| ShillClientObject.ShillClient.OnServicePropertyChange | buffet/shill_client.cc:436-464 | refines Shill.ServicePropertyChanged for state, strength, error and other properties |
| ShillClientObject.ShillClient.OnServicePropertyChangeRegistration | buffet/shill_client.cc:399-434 | refines Shill.ServiceRegistered: teardown on failure, else the initial properties in order |
| ShillClientObject.ShillClient.OnDevicePropertyChange | buffet/shill_client.cc:337-397 | refines Shill.DeviceSelected, including the state read when the connecting proxy is taken over |
| ShillClientObject.ShillClient.OnManagerPropertyChange | buffet/shill_client.cc:264-309 | the loop with its early return has exactly the effect of Shill.DeviceListChanged |
| ShillClientObject.ShillClient.CleanupConnectingService | buffet/shill_client.cc:564-571 | proxy, callback and flag go; the last error stays |
| AccessPoint.OwnershipLostExactly | buffet/ap_manager_client.cc:50-59 | from any reachable state in which every existing service created by this client is its service_path_, a step keeps that if and only if it is not a failed removal or a departure of the manager while such a service exists |
| AccessPoint.OwnedExactly | buffet/ap_manager_client.cc:50-59 | over every run these services are owned throughout if and only if there is no such step |
| AccessPoint.OwnedUnlessAbandoned | buffet/ap_manager_client.cc:69-80 | so on a run without such a step every service of this client that exists is service_path_ |
| AccessPoint.StepKeepsOneExactly | buffet/ap_manager_client.cc:69-80 | from any reachable state with at most one service of this client, a step keeps it at one if and only if apmanager does not create one while another one exists |
| AccessPoint.AtMostOneExactly | buffet/ap_manager_client.cc:30-94 | over every run there is at most one service of this client throughout if and only if apmanager never creates one while another one exists |
| AccessPoint.AtMostOneAccessPoint | buffet/ap_manager_client.cc:30-94 | in particular if no removal failed and no service was created on a manager whose departure was already queued; it is then service_path_ |
| AccessPoint.OwnServiceFollowed | buffet/ap_manager_client.cc:82-115 | over every run the client has the proxy of its own service unless the report of it is still queued, and its service exists unless the report that it went is still queued |
| AccessPoint.ProxiesBelongTogether | buffet/ap_manager_client.cc:69-94 | a valid service_path_ comes with the manager proxy of the current object manager, and a service proxy is the one for that path |
| AccessPoint.ManagerKnownBeforeServices | buffet/ap_manager_client.cc:82-87 | whenever a service is reported the manager proxy is set, so it can be removed |
| AccessPoint.OnlyOwnServiceRemains | buffet/ap_manager_client.cc:82-87 | once all service reports are processed and no removal failed, no service but service_path_ exists |
| AccessPoint.DepartureForgetsService | buffet/ap_manager_client.cc:117-121 | the manager's departure resets the client and removes nothing |
| AccessPoint.ReplacedManagerLeavesTwo | buffet/ap_manager_client.cc:117-121 | a concrete run in which a replaced manager holds two services of this client |
| AccessPoint.TwoUntilReported | buffet/ap_manager_client.cc:82-87 | continued by the report of the first service, with a removal that works, only the second one is left |
| ApManagerClientObject.ApManagerClient.Start | buffet/ap_manager_client.cc:30-48 | does nothing with a service; else takes the ssid and a new object manager |
| ApManagerClientObject.ApManagerClient.Stop | buffet/ap_manager_client.cc:50-59 | resets everything; between handlers it asks for the removal of the client's own service exactly when there is one |
| ApManagerClientObject.ApManagerClient.OnManagerAdded | buffet/ap_manager_client.cc:69-80 | holds the manager, and takes the reply of one CreateService call exactly when there is no service |
| ApManagerClientObject.ApManagerClient.OnServiceAdded | buffet/ap_manager_client.cc:82-94 | takes the proxy of its own service and sets its ssid, and asks for the removal of any other |
| ApManagerClientObject.ApManagerClient.OnSsidSet | buffet/ap_manager_client.cc:96-107 | starts the client's own service exactly when the ssid was set and the service is still there |
| ApManagerClientObject.ApManagerClient.OnServiceRemoved | buffet/ap_manager_client.cc:109-115 | forgets its own service, ignores others |
| ApManagerClientObject.ApManagerClient.OnManagerRemoved | buffet/ap_manager_client.cc:117-121 | resets everything without any removal |
| MdnsPublish.CacheIsInvisible | buffet/avahi_mdns_client.cc:75-158 | over every run of publishing, stopping and Avahi restarts the entry group equals that of a client that registers afresh on every call |
| MdnsPublish.EarlyReturnIsSafe | buffet/avahi_mdns_client.cc:81-84 | the early return happens only when the group already holds the record asked for |
| MdnsPublish.PublishHolds | buffet/avahi_mdns_client.cc:103-125 | whichever branch is taken, the group ends up holding exactly the new record, committed |
| MdnsPublish.RepublishRegistersAfresh | buffet/avahi_mdns_client.cc:147-158 | republishing takes no short cut: it resets and registers the remembered record in full |
| MdnsPublish.PublishedAsGiven | buffet/avahi_mdns_client.cc:93-125 | after any run, publishing leaves the service type, the port and, entry by entry, the TXT strings given, each up to its first NUL; without one exactly those given |
| MdnsPublish.NoNeedlessRegistration | buffet/avahi_mdns_client.cc:81-125 | after any run, publishing what stands makes no operation, publishing other TXT strings for the port that stands updates them in place, and only the rest registers afresh |
| MdnsPublish.CStringStops | buffet/avahi_mdns_client.cc:93-94 | of a string passed as a C string everything up to the first NUL arrives |
| MdnsPublish.AvahiMdnsClient.PublishService | buffet/avahi_mdns_client.cc:75-126 | the loop over TXT strings and the branches carry out a Publish step: the operations made bring the group and the cache to that state |
| MdnsPublish.AvahiMdnsClient.StopPublishing | buffet/avahi_mdns_client.cc:128-134 | carries out a Stop step: group and cache are empty |
| MdnsPublish.AvahiMdnsClient.RepublishService | buffet/avahi_mdns_client.cc:147-158 | keeps the cache, and makes the specified operations although the fields were moved from |
| MdnsPublish.AvahiMdnsClient.OnAvahiClientStateUpdate | buffet/avahi_mdns_client.cc:136-145 | carries out a Reinitialized step when Avahi runs again, and nothing otherwise |
| BuffetConfig.StoreIsAMapExactly | buffet/buffet_config.cc:169-211 | over every run, whatever fails, each file holds the last successfully written settings of its name throughout if and only if no step is a written save that failed to encrypt or a written recovery that alters the default settings |
| BuffetConfig.StoreIsAMap | buffet/buffet_config.cc:169-211 | so over every run in which the keystore works, whatever reads and writes fail, the files stand for the map of last successfully written settings |
| BuffetConfig.LoadGivesLastWritten | buffet/buffet_config.cc:169-185 | loading a name then gives the text of its last successfully written save, or nothing if the read fails or nothing was saved |
| BuffetConfig.SaveIsLocal | buffet/buffet_config.cc:191-211 | a save changes the contents of its own name only, and only if it is written |
| BuffetConfig.PathsAreDistinct | buffet/buffet_config.cc:213-217 | different names never share a file, if and only if the base name of the settings path is neither empty nor a special one |
| BuffetConfig.PathGivesName | buffet/buffet_config.cc:213-217 | the file of a name is the settings path with a dot and the name inserted before its extension, and the settings path itself for no name |
| BuffetConfig.SpecialPathIsShared | buffet/buffet_config.cc:213-217 | with a special settings path a save under one name is read under another |
| BuffetConfig.LoadLeavesOthers | buffet/buffet_config.cc:177-183 | for every way reading, decrypting, encrypting and writing may go: a load leaves all other names alone if and only if it does not recover a named file by a written save that alters the default settings |
| BuffetConfig.GarbledStaysGarbled | buffet/buffet_config.cc:178-182 | the recovery does not touch the named file |
| BuffetConfig.DefaultsLost | buffet/buffet_config.cc:177-183 | a concrete run in which one failed decryption of good named settings replaces the default settings by the name |
| BuffetConfig.FailedEncryptionEmpties | buffet/buffet_config.cc:197-201 | a failed encryption empties the stored settings unless the write fails too, and is reported |
| BuffetConfig.BuffetConfig.SaveSettings | buffet/buffet_config.cc:191-211 | writes the one file and posts one callback, without an error exactly when encrypting and writing worked, and naming each that did not |
| BuffetConfig.BuffetConfig.LoadSettings | buffet/buffet_config.cc:169-185 | gives the decrypted contents or nothing, and changes files only by the recovery |

## Left out

- `addComponent`, `updateState` and the state setters of libweaved: they forward to libweave. The abort of the client when `registerCommandHandler` fails is not modelled either.
- `buffet/binder_command_proxy.cc` and `libweaved/command.cc`: thin forwarding of one command.
- Balance of death registration and unregistration: the destructor unregisters another binder than the one that was registered.
- Removal of clients that die while waiting for a service, and use of services made for a device that is gone: routes for them are kept or added more freely than the daemon would.
- Getters for fields other than the pairing triple, and the state of traits and components behind their notifications.
- Delays: a delayed task may run at any time after it was posted.
- Progress.EveryScheduleRestores: that queued work is carried out, and notifications finished, is up to the environment.
- The properties given to `ConfigureService` (type, ssid, passphrase, security): only what configuring comes to is modelled.
- D-Bus messages whose outcome the code ignores (Connect on a service proxy, RequestScan's effect), and whether a released shared proxy still gets signals: any signal may arrive at any time.
- Listeners that add listeners during a round; the registration replies of devices and manager, whose effect is that of the signals they replay.
- Memory shared between a device's selected proxy and the connecting proxy: proxies are values told apart by a number.
- `OnServicePropertyChangeRegistration`'s search for a device is a lookup in the model, since only its success matters.
- `Manager::Start`, rebooting, and when `CreateDevice` is called: a device may be created at any time.
- Avahi's threads, name collisions and group errors; failures of Avahi calls abort the program.
- `LoadDefaults`, definition files, sockets and TLS, HTTP, Bluetooth, the web server, `main.cc` and logging.
- BuffetConfig.StoreIsAMap: covers runs in which the keystore works; StoreIsAMapExactly has the condition for all runs.
- Coherence.PairingReportCorrect: covers listeners registered while no pairing was exposed; PairingReportExactly covers all.
- AccessPoint.AtMostOneAccessPoint: its condition is sufficient; AtMostOneExactly has the exact one for all runs.
