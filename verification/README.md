# Verification of pod-proxier

pod-proxier exposes Kubernetes workloads through HAProxy. Its second version watches
services and gives every target port of every allowed service a port of the proxy host;
its first version points one shared HAProxy backend at a requested pod and points it back
after a while. This project models both controllers and the HAProxy client they share,
and proves properties of every run of them.

## The model

**Service controller.** `ServiceSync` describes what one synchronisation does to the mapping
table, the port ledger and the open HAProxy transaction. `ServiceRuns` is the state machine
around it: the informer changes its cache and then calls a handler, the work queue's timers
fire, and the worker collects a batch, opens a transaction, looks up and synchronises each
key, calls `Done`, commits or discards. The informer and the timers may act between any two
steps, also between the lookup of a service and the change of the table. The class
`ServiceController` has the fields and loops of the original; each of its methods is proved
to compute the functions of `ServiceSync`, and `ProcessNextWorkItem` to be a run of the state
machine, whatever happens in between. `ServiceInvariant.Inv` holds in every reachable state,
and the `*Theorems` modules, `Creation`, `Origins`, `Divergence`, `Leftovers` and `Sufficiency`
draw the conclusions. `Episodes` joins undisturbed steps, and `Losses`, `FullRange` and
`Witnesses` build from them the runs in which something is lost.

**Pod controller.** `PodRuns` interleaves any number of `CreateMapping` calls with the expiry
goroutine. Each call reads the server list and then replaces or adds, without a lock in
between. The class `PodController` refines it in the same way. `PodDelivery` says which
events are handed out, and `PodRepeats` builds the run in which a repeated mapping is not
reverted.

**HAProxy.** `HaproxyStore` keeps a committed configuration and, while a transaction is open, a
staged copy. Every request is answered `Done`, `AlreadyExists` or `Failed` by an arbitrary
environment; HAProxy never does what is impossible, and a request that is not answered
`Done` has no effect. `EnsureBackend` and `EnsureFrontend` read the committed configuration,
writes go to the staged one. `HaproxyClient` models how a response becomes such an answer.

**Work queue.** `WorkQueue` is client-go's contract: an ordered queue, a dirty set, a processing
set and the delayed keys. Adding a key that is being processed only marks it dirty; `Done`
queues it again if it is.

**Names.** Namespaces and service names are DNS labels (section 2.3.1 of RFC 1035, section 2.1 of
RFC 1123). `Names` proves that the formatted strings identify what they are used to identify.

State the program does not have, used only to state properties: in the store `clock`, `trail`
(every staged configuration) and `clean`; in the controller `peak` (largest table so far),
`failed` (the services whose last pass had an allocation or a creation that failed) and
`shared` (a mapping was created on a backend that another mapping used); in the queue
`entered` and `delivered`; in the runs `log` (finished batches), `stuck` (keys never
released) and `starts`; in the pod proxy `calls`, `owner`, `requested`, `accurate`,
`reliable` and `once`.

A *clean* run is one in which the answer "already exists" is true, deletes take effect, a bind
of an existing frontend does not fail, and commits succeed. Runs start with an empty table and
without service frontends in HAProxy. Properties that need a clean run say so; the others hold
for every environment. Two objects with the same resource version are equal.

## What the code does differently from what it promises

- A conflict on an add or a replace is not recognised as "already exists": the client's switch
  is over value types, the callers pass pointers, and the text of the error stays empty
  (`HaproxyClient.WriteReply`, `HaproxyClient.ValueConflict`).
- Table and HAProxy part when a commit fails. At the end of a batch with a success, in a run
  that was clean so far, the committed configuration serves the table afterwards if and only if
  the commit succeeded or the batch changed no mapping (`Divergence.CommitAgreement`). A mapping
  lost in this way stays in the table without its frontend until a synchronisation finds its
  service absent (`Divergence.LossLasts`), while nothing is pending and the table is complete
  (`Losses.FailedCommitLoses`).
- They part when a delete is refused, since the answers are ignored: a removed mapping's frontend
  is gone if and only if its delete was answered Done (`Divergence.DeletesDecide`), so a deleted
  service can stay exposed (`Losses.RefusedDeletesStay`). A refused bind leaves a frontend that
  is no mapping's (`Divergence.BindDecides`).
- A failed allocation or creation is reported as success and not retried. With an HAProxy that
  does all it can, a pass maps every target port if and only if enough ports are free, the
  ports not mapped yet have different numbers, and none of their backends has the service's
  server already (`PassTheorems.PassCompleteIff`). An HAProxy that does all it can refuses what
  is impossible, such as adding what exists, and a refusal reads as failure, see above. When
  nothing of this can happen, completeness holds without exception
  (`Sufficiency.ModerateIsComplete`).
- A creation that is refused half way leaves its backend and server behind, and they are
  committed with the batch (`Losses.RefusedFrontendBlocks`). The removal deletes only what
  mappings name, so the leftover blocks the port while the service keeps its address
  (`Leftovers.LeftoverForever`).
- A service that becomes known while the range is full is not tried again
  (`FullRange.FullRangeLoses`, `FullRange.OneTooMany`).
- Existence is read from the committed configuration while writes go to the open transaction.
  The read is current for every service about to be synchronised, and within a pass for every
  port whose number no earlier port has. Otherwise it can lose a creation that would have
  succeeded (`Creation.WillingCreation`, `Creation.StaleReadLosesCreation`).
- A service's frontends keep their backends while it is removed if and only if its mappings in
  the table have distinct service ports (`ProxyAgreement.RemovalClosure`,
  `ServiceTheorems.RemovalInRun`); if a number always goes with one name, they always keep them
  (`Origins.EveryConfigurationSound`).
- The command line passes exactly one target port name (server/cmd.go:219). Then a number always
  has one name and every configuration staged in a clean run is closed
  (`Origins.OneTargetNameStaysClosed`). The following need the controller's wider interface,
  which takes any list of names: two target ports of one number, such as 53/UDP and 53/TCP, are
  not both mapped when they become known together (`Witnesses.SameNumberIsLost`); one refused
  request costs both of them (`Witnesses.AbandonedBackendIsLost`); a port that is renamed
  together with a change of the cluster IP ends on the old backend, and the removal then
  dangles, although each version has distinct numbers (`Witnesses.RenamedPortDangles`). All
  other runs named here need one target port only.
- When a transaction cannot be opened, all keys of the batch but the first stay in processing
  for ever (`BatchTheorems.BatchBookkeeping`, `BatchTheorems.StuckForever`,
  `Episodes.SecondKeySticks`).
- With several servers in the shared backend, changeProxy replaces the first and returns the
  failure of the last, so a mapping that works is reported as failed and never expires
  (`PodRepeats.SeveralServersFail`).
- The expiry loop never calls `Done`, so an event is delivered once only. A pod that is mapped
  again after its expiry is not reverted (`PodRuns.DeliveredOnce`, `PodDelivery.HandedOutIff`,
  `PodRepeats.RepeatIsNotReverted`), although README.md:10 of the repository says mappings
  revert automatically.

## Model

| member | source | states |
|---|---|---|
| ServiceTheorems.LedgerAgreement | controller/service_controller.go:127-146 | in every reachable state, after any failures: taken ports are exactly the mapped ones, no port is used twice, all lie in the range, free ports plus mappings are the size of the range, and allocation fails exactly when the table is full |
| ServiceTheorems.HighWaterBound | controller/service_controller.go:128-139 | no port ever recorded exceeds the range's start plus the largest number of simultaneous mappings so far, minus one |
| ServiceTheorems.CommittedServesTable | controller/service_controller.go:226-301 | clean runs, no open transaction: every mapping has its committed frontend, bind and backend, with a server whose address is its cluster IP and service port; every service frontend belongs to exactly one mapping |
| Divergence.CommitAgreement | controller/service_controller.go:288-298 | clean up to the end of a batch with a success: the committed configuration serves the table after the commit if and only if the commit succeeded or the batch changed no mapping |
| Divergence.LossLasts | controller/service_controller.go:351-353 | any environment: a mapping whose frontend is nowhere keeps its place in the table and stays without the frontend until a synchronisation finds its service absent |
| Losses.FailedCommitLoses | controller/service_controller.go:288-292 | a run with one failed commit that ends with nothing pending, the table complete, and the mapping's frontend nowhere |
| Divergence.DeletesDecide | controller/service_controller.go:402-408 | from a served table, a removed mapping's frontend is gone if and only if its delete was answered Done, and every service frontend left is a mapping's if and only if all were |
| Losses.RefusedDeletesStay | controller/service_controller.go:402-408 | a run that ends with the service deleted, the table empty, nothing pending, and HAProxy still serving it |
| Divergence.BindDecides | controller/service_controller.go:489-497 | a creation whose earlier requests were carried out succeeds if and only if the bind was not refused, serves the mapping if and only if the bind was done, and otherwise leaves a frontend that is no mapping's |
| Origins.EveryConfigurationSound | controller/service_controller.go:402-408 | clean runs: no configuration ever staged binds one port twice; the committed one and, between synchronisations, the staged one have no dangling default backend; none ever staged has one if, in the versions the informer delivered, target ports of a service with one number have one name |
| Origins.OneTargetNameStaysClosed | server/cmd.go:219-219 | with one target port name, every configuration ever staged in a clean run has unique binds and all default backends |
| Origins.MappingsHaveOrigins | controller/service_controller.go:371-384 | every mapping is for a target port, by name and number, of a version of its service that the informer delivered |
| ServiceTheorems.RemovalInRun | controller/service_controller.go:389-410 | clean runs: the configurations that the removal of a service adds all have their default backends if and only if its mappings in the table have distinct service ports |
| ServiceTheorems.DeletionConvergence | controller/service_controller.go:162-197 | any environment: every mapping's service is in the informer's cache or its key is pending |
| ServiceTheorems.CompletenessConvergence | controller/service_controller.go:303-387 | every allowed service in the cache has all its target ports mapped or its key is pending, unless its own last pass had a failed allocation or creation |
| ServiceTheorems.Quiescent | controller/service_controller.go:226-387 | when nothing is pending, the table has no mapping of an absent service; of a present one in an allowed namespace with a cluster IP whose last pass had no failure, every port is mapped whose name is listed, or any when none is listed |
| ServiceTheorems.OnlyAdmitted | controller/service_controller.go:148-159 | every mapping is for an allowed namespace, a listed port name (or any when none is listed) and a cluster IP other than empty and "None" |
| ServiceTheorems.PortStability | controller/service_controller.go:345-353 | over any stretch of a run in which no synchronisation finds the service absent, a mapping keeps its port and all its names |
| ServiceTheorems.ResyncIsIdle | controller/service_controller.go:345-353 | synchronising a fully mapped service changes neither table nor ledger nor store and makes no request |
| PassTheorems.PassCompleteIff | controller/service_controller.go:345-386 | clean runs, willing HAProxy, distinct port names: a pass leaves every target port mapped if and only if the free ports suffice for the unmapped ones, these have different numbers, and none of their backends has the service's server |
| PassTheorems.FailedIffIncomplete | controller/service_controller.go:355-369 | any environment: a service counts as failed after its pass if and only if the pass left a target port unmapped |
| Sufficiency.ModerateIsComplete | controller/service_controller.go:303-387 | willing HAProxy without service backends at the start, commits that succeed, distinct port names, one name per number, no more target ports than the range: nothing ever fails, and every allowed service is complete or pending |
| Leftovers.LeftoverForever | controller/service_controller.go:389-410 | a server without a mapping blocks its port: while the service keeps its address no mapping ever uses the backend, in every run in which conflicts read as failures |
| Losses.RefusedFrontendBlocks | controller/service_controller.go:436-487 | a run in which one refused frontend ends with nothing pending, the port unmapped, and its backend and server committed |
| FullRange.RangeFills | controller/service_controller.go:132-138 | as many one-port services as the range has ports become known one after the other, and all are mapped |
| FullRange.FullRangeLoses | controller/service_controller.go:355-359 | a service with an unmapped target port that becomes known while the range is full ends unmapped and not pending, in any environment |
| FullRange.OneTooMany | controller/service_controller.go:355-359 | a run from the start in which the service after the last free port ends known, unmapped and not pending |
| Witnesses.SameNumberIsLost | controller/service_controller.go:345-386 | with several target port names: for every service with two target ports of one number there is a run that synchronises it once and ends clean, with its key not pending and a target port unmapped |
| ServiceInvariant.ReachableInv | controller/service_controller.go:226-334 | the joint invariant of queue, batches, table, ledger, proxies and convergence holds in every reachable state |
| ServiceInvariant.NextUnapplied | controller/service_controller.go:266-298 | as long as no key of a batch succeeded, table, ledger and staged configuration are as at the opening of the transaction |
| BatchTheorems.DiscardLosesNothing | controller/service_controller.go:288-298 | when the discard branch is taken nothing was staged and neither table nor ledger changed during the batch |
| BatchTheorems.BatchesAreFifo | controller/service_controller.go:226-251 | the keys of all batches followed by the queue are the keys ever queued, in order; a batch has no duplicates, at least one key, and more than one only up to maxBatchSize |
| BatchTheorems.BatchBookkeeping | controller/service_controller.go:256-286 | a finished batch requeued or forgot each key once; it released each once if its transaction opened, and only the first otherwise; the keys never released are counted exactly |
| BatchTheorems.StuckForever | controller/service_controller.go:257-264 | a key left in processing stays there for the rest of the run and is never in line again |
| Episodes.SecondKeySticks | controller/service_controller.go:257-264 | for any two services there is a run whose two-key batch cannot open its transaction: both keys wait for another try, and the second stays in processing |
| BatchTheorems.InnerGetNeverBlocks | controller/service_controller.go:241-251 | when the inner Get is called the queue is not empty |
| BatchInvariant.NextKeepsBooks | controller/service_controller.go:226-301 | every step of informer, timers and worker keeps queue, processing set, batch and log in agreement |
| CoreInvariant.NextKeepsLedger | controller/service_controller.go:337-410 | every step of every run keeps table and ledger in agreement, in any environment |
| CoreInvariant.NextKeepsProxied | controller/service_controller.go:226-334 | every step of a clean run, commit and discard included, keeps the configuration serving exactly the table |
| CoreInvariant.SyncKeyClean | controller/service_controller.go:303-334 | a clean synchronisation of any key leaves the transaction serving exactly the changed table |
| Convergence.NextConverges | controller/service_controller.go:226-334 | every step keeps: each key is either awaited or settled, also when the cache changes between the lookup and the table change |
| Convergence.SyncKeySettles | controller/service_controller.go:303-334 | one synchronisation settles its key for the service it saw and leaves all other services' mappings as they were |
| Convergence.RemovalIsExact | controller/service_controller.go:389-410 | the prefix scan removes all mappings of the service and no other entry, and changes none that stays |
| StaleReadTheorems.StaleReadsHarmless | haproxy/haproxy.go:63-77 | when a key is about to be synchronised, committed and staged configuration agree about every object of its service |
| StaleReadTheorems.StaleReadsInPass | controller/service_controller.go:436-483 | within a pass they agree about a port's backend unless an earlier port has the same number, and a clean run never has the frontend about to be created |
| Creation.WillingCreation | controller/service_controller.go:416-500 | with an HAProxy that does all it can, a creation succeeds if and only if both existence reads agree with the open transaction, the backend does not have the server, and the frontend does not have the bind |
| Creation.ReachableCreation | controller/service_controller.go:416-500 | before every port of a clean pass in a reachable state the creation succeeds if and only if the read of its backend is current and the backend does not have the server |
| Creation.StaleReadLosesCreation | haproxy/haproxy.go:63-77 | with a backend that is staged without the server and not committed a creation fails, and the same creation succeeds when the read sees the open transaction |
| Creation.CandidCreation | controller/service_controller.go:436-497 | were conflicts recognised, a creation would succeed unless its backend or frontend is committed and no longer staged, and leave backend, server, frontend and bind, whether or not they were there |
| Witnesses.AbandonedBackendIsLost | controller/service_controller.go:436-470 | with several target port names: a run in which one refused server leaves both target ports of one number unmapped, clean and not pending |
| Witnesses.RenamedPortDangles | controller/service_controller.go:351-410 | with several target port names: a run in which a one-port service is renamed with a new address and deleted, every request is carried out, and a configuration with a dangling default backend was staged |
| StaleReads.NextUntouched | controller/service_controller.go:266-275 | every step keeps committed and staged configuration equal on the services of the batch still to be synchronised |
| StaleReads.SyncKeyTouches | controller/service_controller.go:361-363 | a synchronisation touches no object of another service and none of the pod proxy |
| ProxyAgreement.CreateProxyClean | controller/service_controller.go:416-500 | in a clean environment a creation serves the table with the new mapping or, on failure, still the old one, with unique binds and no dangling frontend at any request |
| ProxyAgreement.RemovalClosure | controller/service_controller.go:402-408 | a removal stages only closed configurations if and only if the listed mappings have distinct service ports; it ends in a closed one in any case |
| ProxyAgreement.RemoveListedClean | controller/service_controller.go:402-408 | after each removed mapping the configuration serves the rest of the table, up to mappings of the same service that are still to go |
| ProxyAgreement.OneOwner | controller/service_controller.go:361-363 | a service frontend belongs to exactly one mapping |
| PortLedger.SyncKeyKeeps | controller/service_controller.go:303-410 | whatever the lister found and HAProxy answered, a synchronisation keeps table and ledger in agreement |
| PortLedger.OrderUnderFailure | controller/service_controller.go:345-386 | the i-th mapping a pass adds gets the i-th lowest port of the range free at its start, whichever creations fail in between, and records the service as seen |
| PortLedger.Conservation | controller/service_controller.go:132-138 | free ports and mappings add up to the range, and the scan fails exactly when the table is full |
| ServiceSync.FirstFree | controller/service_controller.go:132-138 | the result is free and every lower port of the range is taken; without a result all are taken |
| HaproxyStore.WriteMeans | haproxy/haproxy.go:97-102 | Done means that the request was possible and is achieved in the open transaction, any other answer that the transaction is unchanged; the committed configuration stays |
| HaproxyClient.WriteReply | haproxy/haproxy.go:557-630 | which responses to an add or a replace read as done, as "already exists" and as failed; a conflict reads as failed |
| HaproxyClient.ValueConflict | haproxy/haproxy.go:565-596 | with the resource passed by value a conflict would read as "already exists" |
| HaproxyClient.EnsureAnswer | haproxy/haproxy.go:63-77 | for a truthful response the client's answer is the store's read of the committed configuration: present if and only if answered and committed, so a failed query reads as absence; codes that go with writes read as presence |
| HaproxyClient.ErrorNames | haproxy/haproxy.go:557-597 | errors about a resource passed by name or by value name it |
| HaproxyClient.QueryReads | haproxy/haproxy.go:97-102 | with a transaction the query of a write reads "transaction_id=" and the id, without one "version=" and the version; read back, it is that transaction or that version |
| HaproxyClient.WriteTarget | haproxy/haproxy.go:97-102 | equal queries have the same transaction or the same version |
| Names.MetaKeyRoundTrip | controller/service_controller.go:304-307 | the worker splits exactly what the handlers joined |
| Names.SplitMetaKeyMeans | controller/service_controller.go:304-307 | for any key: no slash is a bare name, one slash a namespace and a name, more an error |
| Names.MappingKeyReads | controller/service_controller.go:350-350 | the mapping key reads back as namespace, service and port name between slashes |
| Names.BackendNameReads | controller/service_controller.go:361-361 | the backend's name reads back as SVC_BACKEND_, namespace, service and service port |
| Names.FrontendNameReads | controller/service_controller.go:362-362 | the frontend's name reads back as SVC_FRONTEND_, namespace, service and mapped port |
| Names.BindNameReads | controller/service_controller.go:363-363 | the bind's name reads back as SVC_BIND_, namespace, service and port name |
| Names.ServerNameReads | controller/service_controller.go:447-451 | name and address of a server are the cluster IP, a colon, and the service port in decimal |
| Names.MappingKeyInjective | controller/service_controller.go:350-350 | a mapping key determines namespace, service and port name |
| Names.PrefixIsExact | controller/service_controller.go:394-399 | a mapping key has the service's prefix if and only if it is the service's |
| Names.BackendNameInjective | controller/service_controller.go:361-361 | equal backend names mean the same service and port number |
| Names.FrontendNameInjective | controller/service_controller.go:362-362 | equal frontend names mean the same service and mapped port |
| WorkQueue.ProcessingKept | controller/service_controller.go:226-232 | only Done takes a key out of processing, and no key in processing is handed out |
| Drain.WavesConserved | controller/service_controller.go:221-251 | transactions opened plus transactions still needed stay constant while nothing is added |
| Drain.WorkDecreases | controller/service_controller.go:221-224 | every step of the worker lowers a measure that is never negative |
| Drain.DrainBound | controller/service_controller.go:221-251 | draining n keys opens exactly the least number of transactions that max(1, maxBatchSize) times covers n, in at most 9n steps |
| Drain.Progress | controller/service_controller.go:221-301 | a worker that is not idle on an empty queue always has a next step |
| DrainTheorems.DrainConverges | controller/service_controller.go:221-301 | draining a queue with nothing outstanding, waiting or stuck, without failed lookups and transactions, ends with the table converged to the informer's cache |
| ServiceRuns.LeadsReachable | controller/service_controller.go:221-224 | what a method leads to from a reachable state is reachable, so the theorems hold of the object |
| ServiceControllerClass.ServiceController.AllocatePort | controller/service_controller.go:128-139 | returns the first free port and marks only it, or nothing when all are taken |
| ServiceControllerClass.ServiceController.ReleasePort | controller/service_controller.go:142-146 | unmarks the port and nothing else |
| ServiceControllerClass.ServiceController.IsNamespaceAllowed | controller/service_controller.go:148-151 | true exactly for the listed namespaces |
| ServiceControllerClass.ServiceController.IsTargetPortName | controller/service_controller.go:153-159 | true exactly for the listed names, and for all when none is listed |
| Examples.WebIsServed | controller/service_controller.go:337-387 | one service spelled out: from an empty HAProxy to the committed names, address and ports, character by character |
| ServiceControllerClass.ServiceController.CreateServiceProxy | controller/service_controller.go:416-500 | issues backend, server, frontend and bind requests as the specification does, early returns included |
| ServiceControllerClass.ServiceController.ProcessPort | controller/service_controller.go:345-386 | one iteration over the service's ports, with release on failure |
| ServiceControllerClass.ServiceController.ProcessServiceWithTx | controller/service_controller.go:337-387 | the pass over all ports computes the specified table, ledger and store |
| ServiceControllerClass.ServiceController.RemoveServiceMappingsWithTx | controller/service_controller.go:389-410 | lists the service's mappings in some order and removes them one after the other |
| ServiceControllerClass.ServiceController.HandleServiceAdd | controller/service_controller.go:162-169 | queues the service's key |
| ServiceControllerClass.ServiceController.HandleServiceUpdate | controller/service_controller.go:172-187 | queues the key unless the resource version is unchanged |
| ServiceControllerClass.ServiceController.HandleServiceDelete | controller/service_controller.go:190-197 | queues the key |
| ServiceControllerClass.ServiceController.SyncService | controller/service_controller.go:303-334 | a lookup step and a table step of the state machine, with the informer acting in between |
| ServiceControllerClass.ServiceController.CollectBatch | controller/service_controller.go:234-251 | gathers between one and max(1, maxBatchSize) keys, the first one first |
| ServiceControllerClass.ServiceController.ProcessNextWorkItem | controller/service_controller.go:226-301 | every execution is a run of the state machine that finishes exactly one batch and keeps reachability |
| PodRuns.SingleServer | controller/pod_controller.go:122-137 | once the backend has one server and no call holds an empty list, it has one in every later state of every interleaving with accurate reads, and it is the default or was requested |
| PodRuns.SingleServerIff | controller/pod_controller.go:129-135 | the number of servers can change next if and only if a call that read an empty list is about to add a server that is not there |
| PodRuns.Reversion | controller/pod_controller.go:193-241 | the live server is the default, or one that some CreateMapping asked for whose expiry is waiting, queued, being handled or about to be added; with none of these the backend is back at the default |
| PodServers.QuietServer | controller/pod_controller.go:230-241 | with nothing waiting, queued or in flight, the one server is named DEFAULT_APP.pod-proxier at 127.0.0.1 and the controller's port |
| PodServers.AfterReplacement | controller/pod_controller.go:211-234 | in every run, a replacement by a mapping makes a server live whose name is POD., the pod's name and IP, at the pod's IP and the requested port; one by a default mapping the proxy's own listener |
| PodServers.LiveServers | controller/pod_controller.go:211-234 | every server ever live is the proxy's own listener or a requested pod at its IP and port |
| PodRuns.DeliveredOnce | controller/pod_controller.go:77-92 | an event that was delivered stays in processing and is never queued again |
| PodDelivery.HandedOutIff | controller/pod_controller.go:223-226 | in every interleaving, the event of a mapping that returns successfully can still be handed out if and only if it was not handed out before |
| PodDelivery.DistinctEventsRevert | controller/pod_controller.go:193-241 | if no event is asked for twice, reads are accurate and default mappings fail only on a server that is gone, every live pod's expiry is on its way |
| PodRepeats.RepeatIsNotReverted | controller/pod_controller.go:77-92 | for every pod, mapping it again after its expiry leaves it live with nothing queued, waiting or in flight |
| PodRepeats.SeveralServersFail | controller/pod_controller.go:129-136 | with several servers in the backend a call replaces the first one it read, fails on the others, returns failure and adds no expiry |
| PodRepeats.LaterReplaceFails | controller/pod_controller.go:129-132 | in any interleaving, a call whose new name is already in the backend replaces no other server by it, and a last such attempt makes it return failure |
| Examples.JprofiledIsMapped | controller/pod_controller.go:193-241 | one pod spelled out: mapped at its IP and named port, and back to the proxy's own listener |
| PodControllerClass.PodController.ChangeProxy | controller/pod_controller.go:122-137 | one read and then one replacement per listed server, or an add, is a run of the state machine; the last result is returned |
| PodControllerClass.PodController.ReplaceNext | controller/pod_controller.go:130-132 | a replacement succeeds only when the old server is there, and then exchanges exactly it |
| PodControllerClass.PodController.FindPort | controller/pod_controller.go:203-213 | over all containers: the last port of the configured name, or the default port when there is none or that port is 0 |
| PodControllerClass.LastNamedIsLast | controller/pod_controller.go:203-210 | the port found is that of an entry of that name behind which no other has it |
| PodControllerClass.PodController.CreateMapping | controller/pod_controller.go:193-228 | an absent pod changes nothing; otherwise the call requests the pod's name and IP at the resolved port and, on success, its expiry waits, or is due when the time is not positive |
| PodControllerClass.PodController.AddAfter | controller/pod_controller.go:72-75 | the event waits for its delay, or is added at once when that is not positive |
| PodControllerClass.PodController.DefaultMapping | controller/pod_controller.go:230-241 | re-points to DEFAULT_APP.pod-proxier at 127.0.0.1 and the controller's port, and returns what changeProxy returned |
| PodControllerClass.PodController.Pop | controller/pod_controller.go:85-89 | takes exactly one event and re-points to the default, without calling Done |

## Left out

- ServiceTheorems.CommittedServesTable: is stated for clean runs; Divergence.CommitAgreement, Divergence.DeletesDecide and Divergence.BindDecides say when a commit, a removal and a bind keep the agreement and when they do not. An "already exists" that is false for a backend or a frontend is not taken further.
- ServiceTheorems.CompletenessConvergence: leaves out services whose own last pass had a failed allocation or creation, because such failures are not retried; PassTheorems.PassCompleteIff says when a pass has none, and Sufficiency.ModerateIsComplete when no pass of a run has any.
- Origins.EveryConfigurationSound: leaves out closure of the configurations staged on the way when a number has gone with two names, because it then fails; ServiceTheorems.RemovalInRun gives the exact condition for each removal.
- PodRuns.Reversion: assumes accurate reads, default mappings that fail only on a server that is gone, and no event added after its delivery; a default mapping that fails is not retried, and PodDelivery.HandedOutIff gives the exact condition for the last.
- Service controller objects that survive a restart: runs start without service frontends, because the code has no reconciliation for them.
- A discard request that fails and leaves its transaction open, transactions of other clients, and version conflicts between the pod proxy's direct writes and an open transaction.
- HTTP, JSON, URLs, authentication and logging in the HAProxy client.
- Internals of informer, lister and work queue, the length of delays, and shutdown except that Get then returns.
- Creation of the pod proxy's own backend, frontend and bind at start-up (controller/pod_controller.go:139-178).
- The cap on mapping times in server/v1.go:52-54, which compares seconds with nanoseconds, and the overflow of the delay for very long times.
- Fixed-width integers: ports stay below 65536.
- Health-check settings, statistics options, bind addresses, creation times and the listing of mappings.
- Server attributes other than name and address.
- Unused parts of the HAProxy client, the HTTP routes, the command line other than the port range (server/cmd.go:162-169), and deployment files.
