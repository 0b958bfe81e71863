# Verification of the YuniKorn Kubernetes shim

A Dafny 4.11 model of the part of the shim that keeps state: the scheduler cache, the informer handlers that keep the
scheduler core in step with it, the state machines of applications and their pods, the sizing of pods, gang scheduling,
the search for preemption victims, and the event dispatcher. `dafny verify dfyconfig.toml` checks all of it.

## What is modelled, and how

**Scheduler cache** (`CacheModel`, `SchedulerCache`, `CacheRuns`, `NodeInfo`). `CacheModel` is a small specification: known
nodes, cached pods, assumed pods; where a pod is follows from the node name it carries. The class
`SchedulerCaches.SchedulerCache` has the fields of the Go type (five maps, the claim index, three memoised node lists) and its
methods update them in place, loops over Go maps running in any order. Every method is proved to do what the
specification says, and to keep `Valid()`: the derived maps are exactly those of the specification, every node holds
exactly its pods, once each, the claim index counts exactly, and each memoised list is exact or empty. `CacheRuns` then
proves what whole runs keep and what operations undo.

**Pods** (`ForeignPods`, `OwnPods`, `Context`). The handlers of the context change the cache and send requests; the core's
foreign allocations are those requests replayed. A new node is handled in two steps, because the context gives up its lock
until the core has answered, and other handlers run in between; anything may be sent of the pods it adopts in that time. Over
all runs core and cache hold the same foreign pods on the same nodes. A run stays in full agreement with the cache, but for the
pods of a node that is registering, exactly when no step of it is silent (`CoreAgreesWithCache`), and in agreement with the cluster
exactly when no step of it misses a pod (`CoreAgreesWithCluster`). Both are stated pod by pod as a condition on the state
before the step, and short runs show that each case happens.

The shim's own pods have the same kind of law: the cache holds each exactly until it ends, as it was last sent but for the node
name, exactly when no new node brings an outdated object back (`OwnPods`).

**Applications and tasks** (`Lifecycle`, `Protocol`, `Safety`, `Progress`, `FailedBind`, `Application`). A step is one section of code that
holds a lock. Where the code gives up a lock (asking the application whether a release must wait, rolling back a failed bind, marking a
recovered pod), the sections are separate steps and anything may come in between. Events arrive in any order, so nothing is
assumed of the dispatcher. The classes in `Application` are the sections as they update their fields; each refines a step.
`Safety` says what no run does, `Progress` what a run achieves: tasks get to their nodes and ended tasks are released, with any
other steps in between.

**Resources** (`Resources`, `PodNeeds`, `PodSizing`, `TaskGroups`, `Placeholders`). Arithmetic is on 64-bit integers with explicit
wrap-around, next to closed forms on unbounded integers. A quantity is a real; `Value` and `MilliValue` round up.
`PodSizing` works on shared objects as the Go code does: no method may change a quantity, so no result can change an earlier one.

**Preemption, dispatcher, node registration** (`Preemption`, `Dispatcher`, `NodeRegistration`).

## Findings

- A foreign pod that ends while its node is unknown to the shim stays in the cache. When the node comes back the pod is adopted and the
  core is told of an allocation that no longer exists; it goes away only when the pod object is deleted or the node is removed. The same happens when
  the end of a placed pod arrives as an addition instead of an update. `ForeignPods.ClusterStep` states exactly when;
  `ForeignPods.EndMissedWhileOrphaned` and `ForeignPods.EndMissedAsAddition` show it.
- A foreign pod that ends or is deleted while its node is being registered comes back: its end is released at once, but the
  adopted object is handed to the cache and reported to the core afterwards (`ForeignPods.EndMissedWhileRegistering`,
  `ForeignPods.DeletedWhileRegistering`). After the core's answer it agrees with the cluster about an adopted pod if and only if the
  pod still fills its node with the size it had when it was adopted (`ForeignPods.AnsweredIff`).
- One of the shim's own pods that ends or is deleted in that time comes back to the cache in the same way
  (`OwnPods.OwnDeletedWhileRegistering`).
- A pod that is resized in that time goes back to its older object in cache and core alike. Then an update that repeats the size sent
  last reaches the cache only, and the two disagree (`ForeignPods.ResizedWhileRegistering`). Core and cache come to disagree if and only if an update
  repeats the size that was sent last while the cache holds another (`ForeignPods.CacheStep`).
- `MarkPreviouslyAllocated` sets the state to Bound before it takes the lock for the fields, so a bound task can be seen without
  a node name. It lacks one if and only if it is marked while its node field is empty (`Safety.NamedStep`,
  `Safety.NamedThroughout`); the allocation key is never missing (`Safety.AllocatedTasksHaveKeys`).
- The gang check compares cpu in whole cores, so it refuses some asks that fit 64 bits (`TaskGroups.FractionOfCoreRefused`); for all other resources
  it is exact (`TaskGroups.AcceptedIff`).
- A task group with a resource of no name is accepted and asked for, but its placeholders do not request it
  (`Placeholders.PlaceholdersHoldTheAsk`, `Placeholders.NamelessIsNotHeld`).
- When two task groups share a name, only the last one counts towards the end of the reservation
  (`Placeholders.CompleteIffReserved`, `Placeholders.RepeatedNameIsShort`).

## Assumptions

- The API server never changes a pod's UID, claims, affinity or owner scheduler, never moves a pod to another node, and
  never takes back a final phase. UIDs and node names are not empty, and the UID of a deleted pod is not used again. The old
  object of an update is what was sent last.
- Calls to the core succeed. The core keeps at most one allocation of a task outstanding and sends non-empty keys and node names.
- A handler of the context runs as one step, but for the handling of a new node. Changes of nodes are handled one after the other. The core
  refuses what is placed on a node that it refuses.
- A plugin of the scheduling framework is a function of the pod, the node and the set of pods on it.

## Model

| member | source | states |
|---|---|---|
| SchedulerCaches.SchedulerCache.UpdatePod | pkg/cache/external/scheduler_cache.go:311-392 | all nine fields again stand for the specification's update; accepted unless the pod is left waiting for an unknown node |
| SchedulerCaches.SchedulerCache.RemovePod | pkg/cache/external/scheduler_cache.go:403-425 | the pod is gone from every map, list and count, and nothing else is |
| SchedulerCaches.SchedulerCache.RemoveFromNode | pkg/cache/external/scheduler_cache.go:405-418 | the node used outside its lookup guard always exists |
| SchedulerCaches.SchedulerCache.UpdateNode | pkg/cache/external/scheduler_cache.go:156-187 | a new node adopts exactly the orphans that name it, each once; a known node is replaced in place |
| SchedulerCaches.SchedulerCache.RemoveNode | pkg/cache/external/scheduler_cache.go:198-239 | assumed pods of the node become pending, all others are returned as orphans, each once |
| SchedulerCaches.SchedulerCache.AssumePod | pkg/cache/external/scheduler_cache.go:455-465 | the pod is on its node and assumed, with what is known of its volumes, in all nine fields; what becomes of both is in CacheRuns.VolumesAsAssumed |
| SchedulerCaches.SchedulerCache.ArePodVolumesAllBound | pkg/cache/external/scheduler_cache.go:296-300 | true if and only if the pod is assumed and its volumes were all bound by then |
| SchedulerCaches.SchedulerCache.ForgetPod | pkg/cache/external/scheduler_cache.go:476-499 | an assumed pod loses its node and its assumption |
| SchedulerCaches.SchedulerCache.IsPodOrphaned | pkg/cache/external/scheduler_cache.go:433-438 | exactly the cached pods that name an unknown node |
| SchedulerCaches.SchedulerCache.UpdatePVCRefCounts | pkg/cache/external/scheduler_cache.go:589-608 | replaces exactly one node's contribution to the claim index and leaves no empty rows |
| SchedulerCaches.SchedulerCache.IsPVCUsedByPods | pkg/cache/external/scheduler_cache.go:584-587 | true if and only if some pod on some known node mounts the claim |
| SchedulerCaches.SchedulerCache.GetNodesInfo | pkg/cache/external/scheduler_cache.go:84-94 | the memoised list holds exactly the known nodes, each once |
| SchedulerCaches.SchedulerCache.GetNodesInfoPodsWithAffinity | pkg/cache/external/scheduler_cache.go:99-111 | exactly the nodes that hold a pod with affinity, each once |
| SchedulerCaches.SchedulerCache.GetNodesInfoPodsWithReqAntiAffinity | pkg/cache/external/scheduler_cache.go:116-128 | exactly the nodes that hold a pod with required anti-affinity, each once |
| SchedulerCaches.InOnePlace | pkg/cache/external/scheduler_cache.go:311-425 | every cached pod is pending, or on its node exactly once and on no other, or an orphan of an unknown node |
| SchedulerCaches.IndexedClaims | pkg/cache/external/scheduler_cache.go:589-608 | a claim is in the index if and only if a placed pod mounts it |
| NodeInfos.CountedMounts | pkg/cache/external/scheduler_cache.go:589-608 | what the index holds for a node and a claim is the number of mounts on that node, and no entry stands for none |
| NodeInfos.WithoutMembers | pkg/cache/external/scheduler_cache.go:408-417 | removal by UID takes out exactly that pod and keeps UIDs distinct |
| CacheRuns.AssumedStep | pkg/cache/external/scheduler_cache.go:311-392 | a step keeps all assumed pods on known nodes if and only if it is not an update that moves one to an unknown node |
| CacheRuns.AssumedStayPlaced | pkg/cache/external/scheduler_cache.go:455-499 | over every run without such an update, every assumed pod is on a known node and no terminated pod is cached |
| CacheRuns.StaleUpdatesKeepNode | pkg/cache/external/scheduler_cache.go:338-353 | updates sent before the pod got its node never drop or move an assumption, in any run |
| CacheRuns.VolumesAsAssumed | pkg/cache/context.go:747-757 | in any run until the pod is seen running, the binder reads of its volumes exactly what was found when it was assumed |
| CacheRuns.SentNodeWins | pkg/cache/external/scheduler_cache.go:338-392 | a node name that is sent is taken, without one only an assumed pod keeps its node, all else is as it was sent, and other pods are untouched |
| CacheRuns.RunningIsSettled | pkg/cache/external/scheduler_cache.go:350-353 | in any run a pod that was seen running is not assumed until it is assumed again |
| CacheRuns.EndedIsGone | pkg/cache/external/scheduler_cache.go:377-425 | in any run a pod that ended or was removed is neither cached nor assumed until it is sent again |
| CacheRuns.AdoptingIsUpdating | pkg/cache/external/scheduler_cache.go:156-187 | a new node is the node itself and an update of every orphan that names it, in any order |
| CacheRuns.StaleUpdatesDoNotRestore | pkg/cache/external/scheduler_cache.go:476-499 | after forgetting, such updates never bring the assignment back, in any run, whatever happens to nodes |
| CacheRuns.AssumeThenForget | pkg/cache/context.go:828-898 | assuming and forgetting restores the whole cache if and only if the pod was not assumed before |
| CacheRuns.NodeBounce | pkg/cache/external/scheduler_cache.go:156-239 | a node that goes and returns gets back exactly its orphans; its assumed pods are pending; nothing else changes |
| ForeignPods.StepKeeps | pkg/cache/context.go:195-248 | every handler, with registrations in progress, keeps core and cache on the same foreign pods and nodes and in step with what was sent |
| ForeignPods.CacheKnowsNodes | pkg/cache/context.go:195-314 | over every run the cache knows exactly the nodes sent and neither deleted nor refused, as they were last sent |
| ForeignPods.CacheStep | pkg/cache/context.go:440-446 | a step leaves core and cache in agreement, sizes included, if and only if it is no update that repeats the size sent last while the cache holds another |
| ForeignPods.CoreAgreesWithCache | pkg/cache/context.go:422-485 | over every run: the core holds exactly the foreign pods the cache places on known nodes, with node and size, throughout, if and only if no step is such an update; pods of a registering node are excepted until the answer |
| ForeignPods.ResizedWhileRegistering | pkg/cache/context.go:212-226 | for every foreign pod and every resize, the resize during registration and one more update make cache and core disagree |
| ForeignPods.AnsweredIff | pkg/cache/context.go:212-226 | after the core's answer it agrees with the cluster about an adopted foreign pod if and only if the pod is still there, still fills its node, and still has the adopted size |
| ForeignPods.AgreesWithClusterIff | pkg/cache/context.go:458-484 | the core holds exactly what fills the known nodes if and only if no pod lingers that has ended or is gone and none is counted with another size than was sent |
| ForeignPods.ClusterStep | pkg/cache/context.go:195-248 | any step, whatever it is about, leaves core and cluster in agreement if and only if it misses no pod |
| ForeignPods.CoreAgreesWithCluster | pkg/cache/context.go:320-352 | over every run: core and cluster agree throughout if and only if no step misses a pod, pods of a registering node excepted |
| ForeignPods.EndMissedWhileOrphaned | pkg/cache/context.go:476-482 | for every foreign pod, ending while its node is unknown leaves it counted once the node returns |
| ForeignPods.EndMissedAsAddition | pkg/cache/context.go:330-351 | for every foreign pod, an end that arrives as an addition leaves it counted |
| ForeignPods.EndMissedWhileRegistering | pkg/cache/context.go:1636-1645 | for every foreign pod, ending during the registration of its node leaves it counted, although the end was released |
| ForeignPods.DeletedWhileRegistering | pkg/cache/context.go:1636-1645 | for every foreign pod, deletion during the registration of its node leaves it in the core although it is gone |
| OwnPods.OwnAtStep | pkg/cache/context.go:354-387 | a step leaves one of the shim's own pods cached exactly as long as it has not ended, and as last sent but for its node, if and only if it does not bring back an outdated object with a new node |
| OwnPods.CacheHoldsOwnPods | pkg/cache/context.go:511-520 | over every run that holds throughout if and only if no step brings back an outdated object |
| OwnPods.OwnDeletedWhileRegistering | pkg/cache/context.go:212-226 | for every own pod, deletion during the registration of its node leaves it in the cache although it is gone |
| Contexts.Context.UpdateForeignPod | pkg/cache/context.go:422-485 | cache and request log move as the handler's specification says, refusals and skipped orphans included |
| Contexts.Context.UpdatePod | pkg/cache/context.go:320-387 | an update of an unknown pod counts as its creation; own and foreign pods go their ways |
| Contexts.Context.DeletePod | pkg/cache/context.go:487-533 | removes the pod from the cache, its own or a foreign one, and releases a foreign one; OwnPods.CacheHoldsOwnPods and ForeignPods.CoreAgreesWithCluster say that nothing of it stays |
| Contexts.Context.StartNode | pkg/cache/context.go:195-201 | the cache knows the node; the pods to adopt are exactly those that waited for it |
| Contexts.Context.FinishNode | pkg/cache/context.go:203-226 | a refused node leaves the cache again; otherwise the adopted pods are reported, in any order with one result |
| Contexts.Context.DeleteNode | pkg/cache/context.go:291-314 | decommissioning drops exactly that node's allocations; an unknown node changes nothing |
| Contexts.Context.AssumePod | pkg/cache/context.go:828-885 | places a known pod on a known node; anything unknown is no error and changes nothing; a failing volume binder is an error and changes nothing |
| Contexts.Context.ForgetPod | pkg/cache/context.go:889-898 | forgets a known pod and ignores an unknown one |
| Lifecycle.FewChanges | pkg/cache/application_state.go:364-448 | an application changes state at most seven times, always to a higher rank |
| Lifecycle.EnteredOnce | pkg/cache/application_state.go:364-448 | no state, Reserving included, is entered twice |
| Lifecycle.AppTable | pkg/cache/application_state.go:364-448 | for every event the states that accept it and where it leads, by rank |
| Lifecycle.TaskTable | pkg/cache/task_state.go:322-375 | for every event the states that accept it and where it leads, by progress |
| Progress.NewTasksGetScheduled | pkg/cache/application.go:359-429 | from every state before Running, the event to run makes each new regular task pending, and from Accepted reserving makes each new placeholder pending, whatever other tasks do |
| Progress.PendingTasksGetBound | pkg/cache/task_state.go:322-375 | a pending task that is submitted, allocated, confirmed and bound ends Bound with the key and node of its allocation, whatever happens in between |
| Progress.StrayAllocations | pkg/cache/task_state.go:334-343 | an allocation that reaches a task in any other state, or whose event is lost, changes nothing and releases nothing |
| Progress.RefusedTask | pkg/cache/scheduler_callback.go:79-89 | when the pod cannot be assumed a regular task loses key and node and is rolled back, a placeholder is left to fail |
| Safety.AppFollowsEvents | pkg/cache/application.go:98-116 | in every run the application's state is determined by its own events |
| Safety.SoundRun | pkg/cache/task_state.go:322-446 | all invariants together hold in every reachable state |
| Safety.AllocatedTasksHaveKeys | pkg/cache/task.go:438-452 | in every run an allocated or bound task has its key; it lacks its node name only between the halves of marking |
| Safety.NamedStep | pkg/cache/task.go:277-279 | a step leaves an allocated or bound task without its node name if and only if it marks the task while its node field is empty |
| Safety.NamedThroughout | pkg/cache/task.go:277-291 | in every run such a task has its node name throughout if and only if it is never marked while it has none |
| Safety.BoundWithoutNode | pkg/cache/task.go:277-291 | this happens for every new task and allocation, and the second half ends it |
| Safety.GangPhases | pkg/cache/application.go:359-429 | in every run regular tasks are scheduled only after Running was reached, placeholders only after Reserving |
| Safety.DeferredReleases | pkg/cache/task.go:497-555 | in every run and interleaving: releases are listed only before acceptance, once per task, and none is sent too early; an early request is listed, forced, dropped or covered exactly once; later requests were sent exactly as often as made, but for one being sent |
| Progress.CompletedTasksAreReleased | pkg/cache/task.go:488-494 | completing from every state ends Completed; the release is listed, and nothing sent, if the application was not accepted when asked, else sent exactly once, with any steps in between |
| Progress.FailedTasksAreReleased | pkg/cache/task.go:478-483 | the same for failing, from every state that may fail |
| Progress.RejectedTasksFail | pkg/cache/task.go:464-473 | a task rejected before it is allocated ends Failed and is released in the same way |
| Progress.KilledTasksEnd | pkg/cache/task_state.go:354-363 | a task killed once it has begun ends Killed |
| Progress.LateAllocationsAreReleased | pkg/cache/task.go:438-452 | an allocation that reaches a completed task is stored and released in the same way |
| Progress.EndedTasksAreReleased | pkg/cache/task.go:478-555 | in every run the release of a completed or failed task is listed, being sent, sent, or overtaken by the end of the application |
| Safety.AcceptanceReleases | pkg/cache/application.go:770-788 | acceptance releases every listed task in that step, or removes the application because all its tasks ended |
| FailedBind.AssumedUntilBound | pkg/cache/scheduler_callback.go:67-98 | from the core's allocation on, the cached pod is on that very node, assumed, with what was found of its volumes, whatever happens elsewhere, while the node stays |
| FailedBind.FailedBindIsUndone | pkg/cache/task.go:689-745 | when the core is about to hear of a failed bind, the fields are cleared, the state is Scheduling, and the cached pod is pending and not assumed, whatever happened elsewhere; the core is told of exactly that allocation |
| FailedBind.NewAllocationAccepted | pkg/cache/scheduler_callback.go:53-98 | from there a new allocation is accepted and bound |
| Applications.Task.HandleAllocated | pkg/cache/task.go:438-452 | an allocation for a completed task is stored and released; one in Scheduling is stored and bound; others are refused |
| Applications.Task.MarkState | pkg/cache/task.go:278-278 | first half of marking: the state only |
| Applications.Task.MarkFields | pkg/cache/task.go:279-291 | second half of marking: the fields only |
| Applications.Task.RollbackOnAssumePodFailure | pkg/cache/task.go:672-680 | clears key and node and leaves the state |
| Applications.Task.RescheduleOnBindFailure | pkg/cache/task.go:726-742 | back to Scheduling from any state, key and node cleared |
| Applications.Application.AddTask | pkg/cache/application.go:227-235 | a task is added once |
| Applications.Application.HandleTask | pkg/cache/task.go:128-137 | an event without a before hook moves the task as its table says, or is refused |
| Applications.Application.RemoveCompletedTasks | pkg/cache/application.go:735-743 | deleting from the map being walked leaves exactly the tasks that have not ended, as a run of removals |
| Applications.Application.TryAddReleasableTask | pkg/cache/application.go:745-762 | records a release before acceptance, once per task, and tells whether it has to wait |
| Applications.Application.AreAllTasksTerminated | pkg/cache/application.go:326-338 | true if and only if every listed task has ended |
| Applications.Application.FlushReleaseableTasks | pkg/cache/application.go:770-788 | sends the recorded releases in order, or removes the application |
| Applications.Application.Handle | pkg/cache/application_state.go:450-522 | state, list and requests after an event, with its hooks; the states are those of Lifecycle.AppTable |
| Resources.SizingClosedForm | pkg/common/resource.go:164-182 | the loop over init containers and sidecars gives max(containers + sidecars, each init container + sidecars before it) if and only if that fits 64 bits |
| Resources.PeakIsMaximum | pkg/common/resource.go:164-182 | the peak of that form is the maximum over the init containers, each with the sidecars before it |
| Resources.RequiredMonotone | pkg/common/resource.go:113-127 | what a container needs grows with what it asks for, through rounding, statuses and infeasible resizes |
| Resources.SizingMonotone | pkg/common/resource.go:56-83 | raising any request of any container or init container never makes the pod smaller, if the larger pod fits 64 bits |
| Resources.ExactBounds | pkg/common/resource.go:273-285 | amounts are rounded up by less than one, cpu in thousandths, and exact if and only if they fit 64 bits |
| PodNeeds.RequiredIsNeed | pkg/common/resource.go:113-127 | what is computed for a container is the largest of asked, given and held, read off its lists, or what is held if a resize is infeasible; the last status of its name counts |
| PodNeeds.PodSizeIsNeed | pkg/common/resource.go:56-109 | the size of a whole pod is, for every resource, what its quantities say on unbounded integers, amounts set for the pod and overhead included, if and only if that fits 64 bits |
| PodSizing.Add | pkg/common/resource.go:331-351 | the sum, in a new object, sharing but never changing quantities; nil counts as empty |
| PodSizing.UpdateMax | pkg/common/resource.go:145-162 | the pointwise maximum, in place |
| PodSizing.GetResource | pkg/common/resource.go:273-285 | amounts by canonical name, whatever the order of the entries; with both cpu and vcore, one of the two |
| PodSizing.ComputeContainerResource | pkg/common/resource.go:113-127 | a container gets the largest of asked, given and held, or only what is held if a resize is infeasible, for every order of the entries |
| PodSizing.CheckInitContainerRequest | pkg/common/resource.go:164-182 | the fold over the init containers that Resources.SizingClosedForm solves, for every order of the entries |
| PodSizing.GetPodResource | pkg/common/resource.go:56-109 | the size of a whole pod, overrides and overhead included: one that it can get, and Resources.PodResource unless a list names both cpu and vcore |
| PodSizing.OneSize | pkg/common/resource.go:56-109 | unless a list of the pod names both cpu and vcore, the order of entries does not matter |
| TaskGroups.ValidateEntry | pkg/cache/utils.go:90-119 | exact condition under which one entry passes, and the new total |
| TaskGroups.ValidateTaskGroupResources | pkg/cache/utils.go:79-121 | accepts a group if and only if it is acceptable and leaves room in the totals, for every order of its entries |
| TaskGroups.GetTaskGroups | pkg/cache/utils.go:45-68 | accepts if and only if every group is acceptable and the unbounded demand of every resource fits 64 bits |
| TaskGroups.GetTGResource | pkg/common/resource.go:259-271 | the same result for every order of the entries; with both cpu and vcore, one of the two |
| TaskGroups.SetTaskGroups | pkg/cache/application.go:172-179 | the ask is one that the groups can give, and the one fold over the groups unless a list names both cpu and vcore |
| TaskGroups.AskIsExact | pkg/cache/application.go:172-179 | for accepted groups every accessor and every product is exact and fits, every partial sum equals the demand so far, is not negative and fits, and the ask equals the demand |
| TaskGroups.AcceptedIff | pkg/cache/utils.go:105-109 | sane groups whose demand fits are accepted if and only if their cpu passes the whole-core comparison |
| TaskGroups.FractionOfCoreRefused | pkg/cache/utils.go:105-109 | an ask that fits and is refused |
| Placeholders.CreateAppPlaceholders | pkg/cache/placeholder_manager.go:72-102 | creates exactly the missing placeholders, in order, or a prefix of them when a creation fails; Placeholders.PlaceholdersTopUp says how many that are |
| Placeholders.CreatedPerGroup | pkg/cache/placeholder_manager.go:82-99 | with distinct names, exactly max(0, MinMember - existing) per group |
| Placeholders.PlaceholdersTopUp | pkg/cache/placeholder_manager.go:76-99 | existing and created placeholders of a group together are max(MinMember, existing) if and only if every other group of its name was full before |
| Placeholders.CreatedSuffice | pkg/cache/placeholder_manager.go:72-102 | once existing and created placeholders are bound the reservation is complete, duplicates or not |
| Placeholders.PlaceholderShare | pkg/cache/placeholder.go:79-137 | the placeholders of a group hold what the group asks for, but for an entry without a name |
| Placeholders.PlaceholdersHoldTheAsk | pkg/cache/gang_utils.go:83-92 | all placeholders together hold exactly the ask if and only if no group asks for a resource without a name |
| Placeholders.NamelessIsNotHeld | pkg/cache/gang_utils.go:83-92 | a group that is accepted, asks for a resource without a name and does not hold it |
| Placeholders.OnReservationStateChange | pkg/cache/application.go:589-626 | moves on to run if and only if every desired count is reached |
| Placeholders.CompleteIffReserved | pkg/cache/application.go:594-619 | this means that every group has its members, for all bound placeholders, if and only if no group asks for more than the last of its name |
| Placeholders.RepeatedNameIsShort | pkg/cache/application.go:594-619 | two accepted groups of one name whose reservation is complete with a member missing |
| Preemption.RunPreFilterPlugins | pkg/plugin/predicates/predicate_manager.go:221-254 | passes if and only if every plugin does and leaves the node eligible; exact skip set |
| Preemption.RunFilterPlugins | pkg/plugin/predicates/predicate_manager.go:260-283 | passes if and only if every plugin that is not skipped does |
| Preemption.PreemptionPredicates | pkg/plugin/predicates/predicate_manager.go:141-179 | the least index from the start on at which the pod fits without the victims so far, or -1; the node is unchanged |
| Preemption.LeftIsRemaining | pkg/plugin/predicates/predicate_manager.go:181-192 | removing victims one by one leaves exactly the pods that are no victims; missing ones do not matter |
| Dispatchers.DispatcherIsSafe | pkg/dispatcher/dispatcher.go:157-201 | under concurrent callers: goroutines within the limit, every event in exactly one place, dropped only after timeout or stop, overtaken only after a detour |
| Dispatchers.DeliveryIsDispatchOrder | pkg/dispatcher/dispatcher.go:212-244 | while nothing took the detour, delivery order is dispatch order |
| Dispatchers.ChannelDrains | pkg/dispatcher/dispatcher.go:212-230 | the loop delivers what is in the channel one by one, in order, each once |
| Dispatchers.DispatchIsTaken | pkg/dispatcher/dispatcher.go:157-168 | an event goes into the channel if there is room, else its caller takes the detour |
| Dispatchers.LimitDecides | pkg/dispatcher/dispatcher.go:172-180 | a turned caller goes on if and only if the counter was below the limit, else the counter is restored and the event refused, whatever others do |
| Dispatchers.GoroutineEnds | pkg/dispatcher/dispatcher.go:181-201 | the goroutine enters its event when there is room, may give up after the timeout counted from its own begin, and is counted until it leaves |
| Dispatchers.StopAbandons | pkg/dispatcher/dispatcher.go:183-187 | once the dispatcher is stopped, every goroutine that is still trying can give up, whatever others do |
| NodeRegistration.Registration.HandleReply | pkg/cache/context.go:1604-1626 | the wait count equals the number of unanswered nodes under repeated and unknown replies |
| NodeRegistration.RegisterNodes | pkg/cache/context.go:1595-1645 | the wait ends if and only if every node has a reply; accepted and rejected partition the request if and only if each node's first reply is one of the two |

## Left out

- Applications.Application.AddTask: does not model a task that is created again for a pod while its removed predecessor still has an allocation or a release under way, because there is one task per identifier.
- Pointers to `NodeInfo` shared between the node map and the memoised lists: nodes are values in the map and the lists hold node names.
- Applications.Application.Handle: does not model the goroutines that create and clean up placeholders, nor the events it dispatches, because events arrive in any order anyway.
- Dispatchers.DispatcherIsSafe: does not say that an event is delivered eventually; a panic in a caller over the limit is a refusal.
- NodeRegistration.RegisterNodes: an unexpected kind of reply ends the wait for its node without putting it on a list, as in the code.
- `Sub`, `IsZero`, `ParseResource`, node resources and string-to-resource conversion: small and independent of the rest.
- Volume binding, Kubernetes clients, informers, event recorder, logging, metrics, admission controller, configuration and state dumps.
- Liveness: leaving Resuming, time limits, backoff.
- Scheduling gates, pod conditions, priority classes and preemption policies.
- Batches of replies from the core: each allocation of a response is its own sequence of steps.
