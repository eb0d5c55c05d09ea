# Naavik in Dafny

Naavik watches Kubernetes workloads and `TrafficConfig` resources in many clusters and writes Istio
objects back to them. This project models the parts of it where the difficulty lies and proves what they
keep.

* **Events, statuses and retries** (`work_queue`, `event_status` and the `controller_*` files). The
  controller is a step system: workers, the deduplicating queue, one status loop per attempt or child
  event, delayed re-adds, and handlers that send on and close bounded channels, all interleaved. What the
  client-go v0.32.3 work queue promises is taken as the definition of the queue. The results are layered by
  what is asked of handlers: `controller_safety` and `controller_wiring` hold whatever handlers send, as
  long as children never ask for a retry; `controller_calm` and `controller_runs` need that no attempt gets
  two requests granted with one of them for later, and `controller_unrest` shows that nothing less will do;
  `controller_accounts` and `controller_callbacks` count attempts and answers when no attempt asks twice.
  The handlers of this repository send only `CreateChild` and `Skip`, so they keep all of it.
* **Fan-out** (`traffic_configs`, `fan_out`). One event becomes child events on real channel objects;
  sending on or closing a closed channel is a violated precondition.
* **Workload indexes** (`workload_index`, `deployments_cache`, `rollouts_store`, `rollouts_cache`,
  `rollouts_lookups`, `workload_handlers`, `orphaned_workloads`). Three-level maps refine a flat map. `rollouts_cache` runs any
  number of threads against the code's locking, where `Delete` loads the cluster's inner map before it
  takes the lock; `rollouts_store` is the same code as classes over a heap, run without interruption.
* **Dependencies** (`dependencies`). Two relations under two locks, sequentially and interleaved.
* **The virtual-service compiler** (`virtual_service`, `route_details`, `routing_rules`, `routing`,
  `winner_destinations`, `shared_names`, `weight_conservation`, `virtual_service_clusters`). The nested
  index builders, the rule builders and the cluster fan-out as methods; what the rule list means under
  first-match evaluation; and that this, down to each destination, is what the configuration asks for. Ranging over a Go map is `InSomeOrder`: any order.
* **Rate limiting and reconciliation** (`path_regex`, `descriptor_keys`, `rate_limits`, `envoy_filters`).
  The two parallel lists, bucket identity through base64 (section 4 of RFC 4648), and an API-server store
  driven to the requested filters.

`wrappers`, `text` and `iteration` hold what several of them share.

Where the code and what it says about itself differ, the model follows the code:

* "Send can be called multiple times" (`event_status.go:107-109`) does not make it safe to ask for a retry
  more than once in an attempt. It is safe exactly as long as no attempt gets two requests granted with one
  of them for later: then no run panics (`ControllerRuns.NobodyPanics`), and any attempt beyond that can be
  continued to a send on a closed channel (`ControllerUnrest.UnrestPanics`).
* The `Updated` handler says it updates the cache (`traffic_config_handler.go:98`) and does not:
  `TrafficConfigs.UpdatesAreNotCached`.
* Without targets the route timeout is read as nanoseconds, with targets as milliseconds:
  `VirtualService.TimeoutUnits`.
* Route names are not required to be unique. Every rule of a route's block is the route's own exactly when
  whatever a route that falls back to environments shares its name with leads the same way
  (`Routing.ServesIffNamesAgree`); for any other configuration `SharedNames.RightlyRoutedIff` says exactly
  which requests are routed as configured.
* A sole config without a selector is given weight 100 whatever its weight says:
  `WeightConservation.WeightsConserved` has the exact condition.
* Requested filter names held outside the selector are neither taken over nor reported:
  `EnvoyFilters.ConvergesIffNamesAvailable`.
* A colon in a group or quota name lets quotas share a bucket: `DescriptorKeys.PairKeyUniqueIffColonFree`,
  `RateLimits.ColonLetsQuotasCollide`.
* Deleting one environment of a workload, or moving it to another identity, drops the whole cluster from
  the fan-out index: `OrphanedWorkloads.CachedIsIndexedIffNotOrphaned` says after which histories a cached
  workload is out of reach.

## Model

| member | source | states |
|---|---|---|
| WorkQueue.AddOk | internal/controller/controller.go:241-256 | adding makes the item due unless the queue is shutting down, and nothing else; the queue's invariant is kept: queued at most once, queued exactly when dirty and not in processing |
| WorkQueue.GetOk | internal/controller/controller.go:155-170 | the item handed out was due and not in processing, goes from due to in processing, and is the first queued; the invariant is kept |
| WorkQueue.DoneOk | internal/controller/controller.go:221 | Done takes the item, and no other, out of processing, queues it again if it became dirty meanwhile, and keeps the invariant |
| WorkQueue.ReAddedOutsideProcessing | internal/controller/controller.go:219-268 | why children must not ask for a retry: an item added while not in processing is handed out at once, and the first Done takes the mark off the second attempt |
| EventStatus.OneCallbackEach | internal/controller/controller.go:223-264 | a loop makes exactly one callback for each status that is neither Skip nor CreateChild |
| EventStatus.HandleStatus | internal/controller/controller.go:219-268 | one loop over all a channel delivers: every status but Skip and CreateChild reaches the callback, in order and unchanged, but that requests carry the retry count and, once it has reached their limit, the kind MaxRetryReached; every child in order; for each request granted one re-add, at once or later as it asks, one count more and a fresh channel |
| EventStatus.CallbacksAnswer | internal/controller/controller.go:223-260 | the same of any loop: the j-th reporting status has the j-th answer, and the retry count is raised by each request granted |
| ControllerSafety.StepSafe | internal/controller/controller.go:155-268 | every step of every participant keeps the invariant, whatever handlers send (children not asking for retries) |
| ControllerSafety.RunSafe | internal/controller/controller.go:114-268 | so does every run, with any number of workers |
| ControllerSafety.AtMostOneLiveAttempt | internal/controller/controller.go:155-194 | in every reachable state an item has at most one live status loop, and an informer item has one only while it is in processing |
| ControllerSafety.NothingInProcessingAfterStop | internal/controller/controller.go:196-215 | once every worker has left, nothing is in processing and no informer item's loop runs, however late retries came |
| ControllerWiring.StepConnected | internal/controller/controller.go:155-268 | whatever handlers send, every step keeps one handler and at most one loop per channel, nothing lost, and a fresh channel for every due item, as long as no item is handed out that is also due later |
| ControllerCalm.RunCalm | internal/controller/controller.go:241-256 | in every run in which no attempt gets two requests granted with one of them for later, no item is ever due twice, so all stays connected |
| ControllerAccounts.RunInv | internal/controller/controller.go:241-260 | every run in which no attempt asks twice keeps the retry accounts besides |
| ControllerAccounts.OnceIsCalm | internal/controller/controller.go:241-256 | asking at most once per attempt is calm |
| ControllerWiring.SendWired | internal/controller/event_status.go:107-116 | a send keeps every channel matched to its one handler and at most one loop, with nothing lost between sent, buffered and consumed |
| ControllerWiring.SendChildWired | internal/controller/event_status.go:131-144 | announcing a child keeps the wiring and gives the child a channel of its own |
| ControllerWiring.CloseWired | internal/controller/event_status.go:96-129 | closing keeps the wiring: only open handlers hold open channels |
| ControllerWiring.DispatchWired | internal/controller/controller.go:172-194 | a dispatched item gets a channel nobody else was given |
| ControllerWiring.AdoptWired | internal/controller/controller.go:226-238 | the loop started for a child is the only one on the child's channel and misses nothing sent before it started |
| ControllerAccounts.AnswerPaid | internal/controller/controller.go:241-260 | answering a retry request, granted or refused, keeps the accounts: k-th request, retry count k, one attempt due per grant, none after giving up |
| ControllerAccounts.DispatchPaid | internal/controller/controller.go:155-194 | starting an attempt uses up what was due |
| ControllerAccounts.EndPaid | internal/controller/controller.go:219-222 | ending an attempt books it as silent unless it asked |
| ControllerRuns.NobodyPanics | internal/controller/event_status.go:96-129 | in every calm run no handler ever sends on or closes a closed channel |
| ControllerRuns.RetryStartsClean | internal/controller/controller.go:248-256 | when an item is handed out, all its earlier attempts have closed their channels, been drained and called Done, and its channel is open, empty and nobody else's |
| ControllerRuns.ReceivedOnceInOrder | internal/controller/controller.go:223-267 | what was sent is what was consumed followed by what is buffered; a finished loop consumed all of it; the callback got each reporting status in that order, as it was sent but for requests, which carry the count and, refused, MaxRetryReached |
| ControllerRuns.NeverOverfull | internal/controller/event_status.go:12-15 | whatever handlers send, no channel ever holds more than five statuses |
| ControllerRuns.EachChildServedOnce | internal/controller/controller.go:226-238 | each announcement names its own channel; a loop ranges over that channel exactly once the announcement has been received, and never two |
| ControllerCallbacks.RunRecorded | internal/controller/controller.go:241-276 | whatever handlers send, the answers to an item's retry requests reach the callback in the order the item's attempts made them, across all its loops |
| ControllerCallbacks.AttemptsBounded | internal/controller/controller.go:241-260 | whatever handlers send, the attempts of an item never exceed one more than the largest limit among the answers to its own requests |
| ControllerCallbacks.ExactRetries | internal/controller/controller.go:241-260 | if every attempt asks with limit M there are exactly M+1 attempts and the callback got exactly M+1 answers, with retry counts 0 to M in order, the last MaxRetryReached, and only the last unless a handler marked its own request so |
| ControllerCallbacks.SettledAccounts | internal/controller/controller.go:241-260 | for any limits, a settled item made one attempt more than it was granted retries and stopped by a silent attempt or a refusal, not both |
| ControllerRuns.FullChannelMoves | internal/controller/controller.go:219-238 | a full channel has a loop that can receive: its own or that of the oldest ancestor still to be served |
| ControllerRuns.LoopMoves | internal/controller/controller.go:223-267 | a running loop can receive, can finish, or its handler has room to send |
| ControllerRuns.StuckMeansFinished | internal/controller/controller.go:137-268 | no deadlock: when only news from outside could move anything, all attempts are over, all channels closed, nothing is in processing or waiting for a timer, and nothing is due unless all workers have left |
| ControllerUnrest.UnrestPanics | internal/controller/controller.go:241-256 | from every state a calm run reaches, with the queue accepting items and a worker left: an attempt that begins there and sends any statuses, children's announcements among them, with two requests granted and one of them for later, has a continuation to a handler on a closed channel |
| ControllerUnrest.AskingTwicePanics | internal/controller/controller.go:241-256 | an instance from the start: the first attempt asks twice, once for later |
| TrafficConfigs.TrafficConfigCache.Add | internal/cache/trafficconfig_cache.go:93-114 | stores under lower-cased identity and environment, nothing without an environment |
| TrafficConfigs.TrafficConfigCache.Delete | internal/cache/trafficconfig_cache.go:116-139 | removes a config only if its name is the cached one's |
| TrafficConfigs.TrafficConfigCache.Get | internal/cache/trafficconfig_cache.go:77-91 | looks up case-insensitively |
| TrafficConfigs.LastWordIsCached | internal/handler/trafficconfig/traffic_config_handler.go:33-170 | after every history of events the cache holds, per identity and environment, the last enabled add not followed by a delete of that name |
| TrafficConfigs.UpdatesAreNotCached | internal/handler/trafficconfig/traffic_config_handler.go:83-129 | a corollary: with the update events left out of a history the cache is the same |
| FanOut.Send | internal/controller/event_status.go:107-116 | sends the status and leaves the channel open; nothing without a channel |
| FanOut.SendClose | internal/controller/event_status.go:118-129 | sends the status, then closes |
| FanOut.SkipClose | internal/controller/event_status.go:96-105 | sends one Skip, then closes; nothing without a channel |
| FanOut.CreateChildEvent | internal/controller/event_status.go:131-144 | announces a new open channel on the parent's; none without a parent channel |
| FanOut.Updated | internal/handler/trafficconfig/traffic_config_handler.go:83-129 | every branch ends in exactly one Skip and one close; processed exactly when enabled, not to be ignored, not read-only and warmed up |
| FanOut.Added | internal/handler/trafficconfig/traffic_config_handler.go:33-81 | the same, with the cache written before the read-only check |
| FanOut.Deleted | internal/handler/trafficconfig/traffic_config_handler.go:131-172 | the same, with the cache written and no check for disabled or ignored configs |
| FanOut.TriggerConfigs | internal/handler/trafficconfig/traffic_config_handler.go:184-189 | one CreateChild per cached environment; each child channel fresh, given one Skip and closed once; each handled with its own config, for the calling identity only if it is a dependent's |
| FanOut.TriggerForIdentity | internal/handler/trafficconfig/traffic_config_handler.go:177-210 | exactly one such child for each environment of the identity and of each dependent, read off the caches, in any order, and for no other |
| FanOut.TriggerAll | internal/handler/dependency/dependency_handler.go:82-89 | a whole triggered event: the children of every identity, a target once for each identity that wants it, then one Skip, then one close |
| FanOut.PlannedIsWanted | internal/handler/trafficconfig/traffic_config_handler.go:193-207 | going through the dependents one by one reaches each wanted config exactly once |
| FanOut.WantedIff | internal/handler/trafficconfig/traffic_config_handler.go:177-210 | a target is wanted exactly when its config is cached and it is the identity's own or that of a recorded dependent |
| FanOut.LinkKeepsLower | internal/cache/identity_dependency_cache.go:61-75 | the dependents cached are lower-case, which the lookup relies on |
| WorkloadIndex.PutRefines | internal/cache/cluster_deployments_cache.go:111-153 | putting an item into the nested maps is one update of the flat map keyed by cluster, identity and environment, and leaves no inner map empty |
| WorkloadIndex.DropRefines | internal/cache/cluster_deployments_cache.go:155-177 | dropping an item with pruning is one removal from the flat map |
| WorkloadIndex.GetRefines | internal/cache/cluster_deployments_cache.go:48-71 | a nested lookup is a flat lookup |
| WorkloadIndex.EntryRefines | internal/cache/cluster_rollouts_cache.go:70-85 | an identity's entry in one cluster holds exactly what the flat map holds there |
| WorkloadIndex.WhichIdentity | pkg/utils/resource_utils.go:28-38 | the identity is the label, else the annotation, and empty only without both |
| WorkloadIndex.WhichEnv | pkg/utils/resource_utils.go:40-61 | the environment is the first of label, annotation, what follows the last dash of the namespace, and the default that is not empty |
| WorkloadIndex.FlatHoldsLastAdd | internal/cache/cluster_deployments_cache.go:111-177 | the flat map holds exactly the workload added last under a lower-cased cluster, identity and environment, unless a later event is about them |
| WorkloadIndex.Count | internal/cache/cluster_deployments_cache.go:179-192 | the nested count is the size of the flat map |
| WorkloadIndex.ListByIdentity | internal/cache/cluster_deployments_cache.go:91-109 | lists exactly the items of the identity, each once, in any order |
| DeploymentsCache.Deployments.Add | internal/cache/cluster_deployments_cache.go:111-153 | the new index is the old one with the deployment put in; ignored without identity or environment |
| DeploymentsCache.Deployments.Delete | internal/cache/cluster_deployments_cache.go:155-177 | the new index is the old one with the deployment dropped and empty maps pruned |
| DeploymentsCache.Deployments.GetByClusterIdentityEnv | internal/cache/cluster_deployments_cache.go:48-71 | case-insensitive lookup in the flat map |
| DeploymentsCache.Deployments.GetByClusterIdentity | internal/cache/cluster_deployments_cache.go:73-89 | the identity's entry in one cluster, never empty |
| DeploymentsCache.Deployments.GetByIdentity | internal/cache/cluster_deployments_cache.go:91-109 | exactly the matching entries over all clusters |
| DeploymentsCache.Deployments.GetNoOfDeployments | internal/cache/cluster_deployments_cache.go:179-192 | the size of the flat map |
| DeploymentsCache.HistoryRefines | internal/cache/cluster_deployments_cache.go:111-177 | after every history the nested maps are well formed and flatten to the flat map's history |
| DeploymentsCache.LastEventDecides | internal/cache/cluster_deployments_cache.go:111-177 | what is cached under a key is exactly the deployment added last whose lower-cased cluster, identity and environment these are, with no later event about them |
| RolloutsCache.EveryRunLinearizable | internal/cache/cluster_rollouts_cache.go:48-186 | every interleaving of adds, deletes and all lookups by any number of threads is linearizable to the flat map: each finished call takes effect once between its call and its return, with the flat map's answer |
| RolloutsCache.ReadIsAnswer | internal/cache/cluster_rollouts_cache.go:48-186 | each lookup's walk through the nested maps gives the flat map's answer |
| RolloutsLookups.EveryLookupTells | internal/cache/cluster_rollouts_cache.go:48-186 | whatever threads do, a finished lookup found exactly the rollouts that were added last under the lower-cased cluster, identity and environment asked for, with no later delete, at one moment between its call and its return; likewise entry, list and count |
| RolloutsCache.RealTimeOrder | internal/cache/cluster_rollouts_cache.go:106-172 | a call that returned before another was made comes before it |
| RolloutsCache.StepKeepsInv | internal/cache/cluster_rollouts_cache.go:106-172 | every step keeps the invariant that ties threads holding a loaded inner map to whether it is still hooked up |
| RolloutsCache.ReachableMaps | internal/cache/cluster_rollouts_cache.go:150-172 | a detached inner map is empty; an attached one is not whenever the lock is free |
| RolloutsCache.UnhookedForever | internal/cache/cluster_rollouts_cache.go:154-172 | a detached inner map is never hooked up or filled again |
| RolloutsStore.Rollouts.Add | internal/cache/cluster_rollouts_cache.go:106-148 | on the heap: the view becomes the old one with the rollout put in |
| RolloutsStore.Rollouts.Delete | internal/cache/cluster_rollouts_cache.go:150-172 | on the heap: the view becomes the old one with the rollout dropped and empty maps unhooked |
| RolloutsStore.Rollouts.DeleteLocked | internal/cache/cluster_rollouts_cache.go:154-172 | the locked half of a delete on the inner map loaded before |
| RolloutsStore.Rollouts.GetByClusterIdentityEnv | internal/cache/cluster_rollouts_cache.go:48-68 | on the heap: case-insensitive lookup in the flat map |
| RolloutsStore.Rollouts.GetByClusterIdentity | internal/cache/cluster_rollouts_cache.go:70-85 | on the heap: the identity's entry in one cluster, never empty |
| RolloutsStore.Rollouts.GetByIdentity | internal/cache/cluster_rollouts_cache.go:87-104 | on the heap: exactly the matching items, each once |
| RolloutsStore.Rollouts.GetNoOfRollouts | internal/cache/cluster_rollouts_cache.go:174-186 | on the heap: the size of the flat map |
| WorkloadHandlers.IdentityClusters.AddClusterToIdentity | internal/cache/identity_cluster_cache.go:31-45 | adds the lower-cased cluster to the lower-cased identity's set |
| WorkloadHandlers.IdentityClusters.DeleteClusterFromIdentity | internal/cache/identity_cluster_cache.go:47-58 | removes it, leaving the set in place |
| WorkloadHandlers.DeploymentHandler.Added | internal/handler/k8shandler/deployment_handler.go:35-64 | accepted deployments are indexed and cached, others change nothing |
| WorkloadHandlers.DeploymentHandler.Updated | internal/handler/k8shandler/deployment_handler.go:66-99 | a changed identity is unindexed and dropped under the old name before the workload is added under the new one; a changed environment alone leaves the old entry behind |
| WorkloadHandlers.DeploymentHandler.Deleted | internal/handler/k8shandler/deployment_handler.go:101-123 | the cluster is unindexed and the deployment dropped |
| WorkloadHandlers.RolloutHandler.Added | internal/handler/k8shandler/rollouts_handler.go:36-66 | the same for rollouts |
| WorkloadHandlers.RolloutHandler.Updated | internal/handler/k8shandler/rollouts_handler.go:68-101 | the same for rollouts |
| WorkloadHandlers.RolloutHandler.Deleted | internal/handler/k8shandler/rollouts_handler.go:103-125 | the same for rollouts |
| WorkloadHandlers.AddedEffect | internal/handler/k8shandler/deployment_handler.go:35-64 | at every identity, cluster and key: a looked-at workload is indexed and cached under its own, and nothing else changes |
| WorkloadHandlers.UpdatedEffect | internal/handler/k8shandler/deployment_handler.go:66-99 | at every identity, cluster and key: the same, with the old identity's cluster and key given up first if the identity changed |
| WorkloadHandlers.DeletedEffect | internal/handler/k8shandler/deployment_handler.go:101-123 | at every identity, cluster and key: a looked-at workload's own cluster and key are given up, and nothing else changes |
| WorkloadHandlers.FanOutTargetsHaveWorkloads | internal/handler/k8shandler/deployment_handler.go:35-123 | after every history of deployment and rollout events an indexed cluster has a cached deployment or rollout of the identity |
| WorkloadHandlers.DeleteOrphansTheRest | internal/handler/k8shandler/deployment_handler.go:120-121 | a delete unindexes the cluster, and leaves a workload cached there exactly when another environment, or a workload of the other kind, was there |
| WorkloadHandlers.MoveOrphansTheRest | internal/handler/k8shandler/deployment_handler.go:88-91 | an update that changes the identity does the same to the old identity's cluster |
| WorkloadHandlers.UpdateAtOldKey | internal/handler/k8shandler/deployment_handler.go:88-96 | what an update leaves under the old key: the new workload if the key is the same, nothing if the identity changed, else the old entry, stale when the environment alone changed |
| OrphanedWorkloads.CachedIsIndexedIffNotOrphaned | internal/handler/k8shandler/deployment_handler.go:35-123 | after every history, the cluster of a cached workload is indexed if and only if no delete or identity change dropped it, leaving a workload there, since it was last added |
| OrphanedWorkloads.OrphansExist | internal/handler/k8shandler/rollouts_handler.go:90-123 | histories of three events, one with a delete and one with an identity change, leave a cached workload out of reach |
| Dependencies.IdentityDependency.AddDependencyToIdentity | internal/cache/identity_dependency_cache.go:45-59 | links identity to dependency, both lower-cased |
| Dependencies.IdentityDependency.AddDependentToIdentity | internal/cache/identity_dependency_cache.go:61-75 | links identity to dependent, both lower-cased |
| Dependencies.IdentityDependency.DeleteDependencyFromIdentity | internal/cache/identity_dependency_cache.go:77-93 | unlinks, dropping an identity left without dependencies |
| Dependencies.UnlinkAt | internal/cache/identity_dependency_cache.go:77-93 | unlinking takes away exactly that link |
| Dependencies.Added | internal/handler/dependency/dependency_handler.go:24-41 | links the source to every destination in both relations; nothing without a source |
| Dependencies.Updated | internal/handler/dependency/dependency_handler.go:43-90 | the same, and triggers each destination the old record did not have, once, in any order |
| Dependencies.LinkAllAt | internal/handler/dependency/dependency_handler.go:36-39 | the loop leaves exactly the old links and those from the source to a destination |
| Dependencies.LinkAllToAt | internal/handler/dependency/dependency_handler.go:36-39 | the same for the reverse relation |
| Dependencies.RelationsStayInverse | internal/handler/dependency/dependency_handler.go:36-63 | under every interleaving a recorded dependent is a recorded dependency; with no handler mid-loop the relations are inverse and hold exactly the union of all records |
| VirtualService.TimeoutUnits | internal/handler/trafficconfig/virtual_service.go:266-271 | a timeout counts milliseconds with targets and nanoseconds without, in normal form, and when it is dropped |
| VirtualService.GetTargetGroupRouteNameMap | internal/handler/trafficconfig/virtual_service.go:413-449 | a group lists a route exactly when a config of a route of that name selects a weight or override weight of a group of that name |
| VirtualService.RefersByPosition | internal/handler/trafficconfig/virtual_service.go:413-449 | the same by position: a config of a route of that name has the name of a weight, or override weight, of a group of that name as its selector |
| VirtualService.BuildTargetGroupRouteNameMap | internal/handler/trafficconfig/virtual_service.go:481-502 | a route's entry is the whole override map of the last group with overrides that lists it; the service dial holds the last weight of each name |
| VirtualService.IndexRefines | internal/handler/trafficconfig/virtual_service.go:413-502 | the two-step index gives the direct definition: the last group with overrides that the route's configs reference |
| VirtualService.LastGroupDecides | internal/handler/trafficconfig/virtual_service.go:481-497 | by position: the overrides are those of the last group that has some and is referred to |
| VirtualService.OverrideMapHolds | internal/handler/trafficconfig/virtual_service.go:484-490 | an app has the weights of its last override |
| VirtualService.DialHolds | internal/handler/trafficconfig/virtual_service.go:498-500 | a name is dialled with the last weight of that name over all groups |
| RouteDetailing.GetMeshDNSForTargetGroup | internal/handler/trafficconfig/virtual_service.go:115-136 | by position: the first target of the selected name decides, by its lower-cased mesh DNS if it has one and else by the lower-cased host of the route's first environment; without such a target the bare environment |
| RouteDetailing.ConstructServiceDialRoute | internal/handler/trafficconfig/virtual_service.go:169-191 | by position: the configs that select a weight, in order, each with its endpoint and that weight; a sole config without a selector takes 100 |
| RouteDetailing.OneNameMore | internal/handler/trafficconfig/virtual_service.go:193-211 | collecting destinations name by name, in any order, is collecting them config by config |
| RouteDetailing.ConstructAppDialRoutes | internal/handler/trafficconfig/virtual_service.go:193-211 | for every iteration order the apps are those with a destination, and each app's destinations are as a multiset one (endpoint, weight) per config whose selector its override names |
| RouteDetailing.AppsByConfig | internal/handler/trafficconfig/virtual_service.go:193-211 | the apps are exactly those with an override weight that some config selects |
| RouteDetailing.SelectedDraws | internal/handler/trafficconfig/virtual_service.go:193-211 | whatever the order: each of an app's destinations comes from a config of its own, with its endpoint and the weight selected, and no selecting config is left out |
| RouteDetailing.GetCombinedRouteDetails | internal/handler/trafficconfig/virtual_service.go:138-167 | one record per route, in order, with those service and app destinations |
| RoutingRules.BuildAppDialRules | internal/handler/trafficconfig/virtual_service.go:234-264 | one rule per app, in any order, field by field: name, prefix, rewrite, timeout, and the app's destinations with their weights cut to 32 bits |
| RoutingRules.BuildServiceDialRule | internal/handler/trafficconfig/virtual_service.go:273-299 | the rule field by field, with the service destinations in order |
| RoutingRules.BuildRuleWhenRouteConfigEmpty | internal/handler/trafficconfig/virtual_service.go:301-332 | by position and field by field: a rule for each environment of each route of the name, in order |
| RoutingRules.BuildBlock | internal/handler/trafficconfig/virtual_service.go:215-230 | a route's rules: apps in any order, then the service rule, and only without both the environments |
| RoutingRules.LongestTimeoutIsLongest | internal/handler/trafficconfig/virtual_service.go:335-342 | the default timeout is a longest rule timeout in whole seconds, none if all are below a second |
| RoutingRules.AddAllowAllRule | internal/handler/trafficconfig/virtual_service.go:334-376 | one default rule per workload environment goes after all others, field by field: that environment's host as authority and destination, any path from "/" on, and the longest timeout |
| RoutingRules.ConstructHosts | internal/handler/trafficconfig/virtual_service.go:513-523 | the hosts of the workload environments, each once |
| RoutingRules.BuildVirtualServiceForMeshDependents | internal/handler/trafficconfig/virtual_service.go:451-476 | with and without targets the rule list is a block per route in order, then the defaults; errors without routes |
| Routing.FirstMatchIsFirst | internal/handler/trafficconfig/virtual_service.go:213-232 | first-match evaluation: the winner matches and nothing before it does |
| Routing.RoutingByBlocks | internal/handler/trafficconfig/virtual_service.go:213-376 | for any route names: the first block with a matching rule wins, the defaults come last |
| Routing.BlockMeansRoute | internal/handler/trafficconfig/virtual_service.go:213-332 | a route's block is non-empty exactly when the configuration says the route gets a rule, and when names agree every rule in it has the route's prefix, rewrite and timeout |
| Routing.TimeoutCounts | internal/handler/trafficconfig/virtual_service.go:391-408 | which unit a route's rules use: milliseconds with targets, nanoseconds without, and no timeout up to a millisecond |
| Routing.ServesIffNamesAgree | internal/handler/trafficconfig/virtual_service.go:301-332 | every rule of every block serves its route if and only if every route that falls back to environments has the prefix and rewrite of each route with environments that shares its name |
| Routing.RoutingPreserved | internal/handler/trafficconfig/virtual_service.go:138-376 | when names agree, as they do when unique, for every iteration order and request, the winner is the first rule of the first configured route that takes the path and gets a rule; otherwise the default of the first environment whose host starts the authority, for paths from "/" on, which sends to that host |
| Routing.FirstRouteIsFirst | internal/handler/trafficconfig/virtual_service.go:138-167 | the configured route of a request takes it, and none before it does |
| Routing.FirstHostIsFirst | internal/handler/trafficconfig/virtual_service.go:334-376 | the default's environment has a host the authority starts with, and none before it does |
| WinnerDestinations.WinnerSendsTo | internal/handler/trafficconfig/virtual_service.go:213-332 | the first rule of a route's block sends to the destinations of some app with overrides, else by the service weights; without either, or without targets, to the first environment of the route's name |
| WinnerDestinations.WinnerByPosition | internal/handler/trafficconfig/virtual_service.go:115-299 | the same config by config: one destination for each config that selects one of the app's weights, or in order a service weight, with the endpoint its targets give it and that weight; else the host of the first environment |
| WinnerDestinations.FallsByConfig | internal/handler/trafficconfig/virtual_service.go:215-230 | a route falls back to environments exactly when no config selects a service or override weight and it is not a sole config without a selector |
| SharedNames.WinnerIsTaker | internal/handler/trafficconfig/virtual_service.go:213-332 | for any names: the winner stands in the block of the first route with an offer for the path, and leads the way of the route that makes the offer |
| SharedNames.RightlyRoutedIff | internal/handler/trafficconfig/virtual_service.go:301-332 | for any configuration and request: the winner is a rule of the configured route and leads its way, or a default wins where no route is configured, if and only if the first offer is the configured route's and leads its way |
| SharedNames.SharedNameMisroutes | internal/handler/trafficconfig/virtual_service.go:301-332 | an instance: two routes of one name send a path to another route than the first one configured for it |
| WeightConservation.DialIsWeightMap | internal/handler/trafficconfig/virtual_service.go:498-500 | the service dial is the map of all groups' weights together |
| WeightConservation.DialledConserves | internal/handler/trafficconfig/virtual_service.go:180-190 | configs that refer to each weight of one group once, in any order, share out exactly the group's total |
| WeightConservation.WeightsConserved | internal/handler/trafficconfig/virtual_service.go:169-191 | the service destinations sum to the total if and only if the group is not a sole nameless weight other than 100 |
| WeightConservation.RuleConservesTotal | internal/handler/trafficconfig/virtual_service.go:289-296 | the emitted rule carries the group's total if and only if a sole nameless weight is 100 and, otherwise, the casts of the weights to int32 cancel out |
| VirtualServiceClusters.WhyACluster | internal/handler/trafficconfig/virtual_service.go:60-87 | a cluster is targeted exactly when a dependent that is not ignored, and is the one triggered for if there is one, runs there |
| VirtualServiceClusters.Fleet.CreateUpdateDelete | internal/handler/trafficconfig/virtual_service.go:564-577 | a disabled config's virtual service is deleted, any other replaces the one of its name; no other object and no other cluster changes |
| VirtualServiceClusters.Fleet.HandleForMeshDependents | internal/handler/trafficconfig/virtual_service.go:44-105 | exactly the targeted clusters in scope get the compiled virtual service, named after its environment's host, with the hosts of the workload environments; no other cluster, and no other object, changes |
| PathRegex.CollapseUndoesExpand | internal/handler/trafficconfig/rate_limiting_helper.go:79-82 | collapsing `.*` undoes expanding `*` on every string |
| PathRegex.ExpandUndoesCollapse | internal/handler/trafficconfig/rate_limiting_helper.go:79-82 | and the other way round where every `*` has its dot |
| PathRegex.PathRegexIdempotent | internal/handler/trafficconfig/rate_limiting_helper.go:79-82 | the path regex is idempotent on all strings |
| PathRegex.PathRegexFixedIffDotted | internal/handler/trafficconfig/rate_limiting_helper.go:79-82 | every `*` in the result is preceded by a dot, and exactly such paths are left alone |
| PathRegex.SameRegexIffSameGlob | internal/handler/trafficconfig/rate_limiting_helper.go:79-82 | two paths give one regex exactly when they collapse to one glob |
| DescriptorKeys.Base64RoundTrip | internal/handler/trafficconfig/rate_limiting_helper.go:74-77 | decoding the encoded key gives the bytes back |
| DescriptorKeys.Base64Injective | internal/handler/trafficconfig/rate_limiting_helper.go:74-77 | different bytes have different encodings |
| DescriptorKeys.TestVectors | internal/handler/trafficconfig/rate_limiting_helper.go:74-77 | the encoding is the standard one: test vectors of section 10 of RFC 4648 |
| DescriptorKeys.PairKeyUniqueIffColonFree | internal/handler/trafficconfig/rate_limiting_helper.go:74-77 | a group and quota have a key of their own among all pairs if and only if neither name has a colon |
| RateLimits.Contains | internal/handler/trafficconfig/rate_limiting_helper.go:64-71 | true exactly when the key is among the keys |
| RateLimits.GetMethodRegex | internal/handler/trafficconfig/rate_limiting_helper.go:84-95 | `.*` without methods, else the alternation of each method in lower and then in upper case, in order |
| RateLimits.CreateRoutePatchLists | internal/handler/trafficconfig/rate_limiting_handler.go:164-212 | the two lists realize, index by index, the parseable quotas of the selected groups, per app in app groups |
| RateLimits.SourcesAreConfigured | internal/handler/trafficconfig/rate_limiting_handler.go:164-212 | the lists are for exactly the quotas of groups selected for the environment whose period parses, per app in app groups |
| RateLimits.ListsInLockstep | internal/handler/trafficconfig/rate_limiting_handler.go:164-212 | equal lengths, the sum over selected groups of parseable quotas (times apps), and what limit i generates is exactly descriptor i |
| RateLimits.EntriesIdentifySource | internal/handler/trafficconfig/rate_limiting_handler.go:328-355 | with colon-free groups two quotas share descriptor entries exactly when group, quota and app names agree |
| RateLimits.EachQuotaItsOwnBucket | internal/handler/trafficconfig/rate_limiting_handler.go:328-411 | limit i draws on bucket i and no other, for exactly the requests that pass the quota's path, its methods, every one of its headers by its own condition, and the app's identity header |
| RateLimits.EachBucketHoldsItsQuota | internal/handler/trafficconfig/rate_limiting_handler.go:328-355 | bucket i holds the quota's amount, cut to 32 bits, at once and again in every period, under the encoded names of group, quota and app |
| RateLimits.PassesByMatcher | internal/handler/trafficconfig/rate_limiting_helper.go:97-140 | a header's condition tells how its value is compared; an unknown one leaves the matcher without a pattern |
| RateLimits.ColonLetsQuotasCollide | internal/handler/trafficconfig/rate_limiting_helper.go:74-77 | with a colon two different quotas can share a bucket |
| EnvoyFilters.IstioClient.ApplyEnvoyFilters | pkg/clients/clientset/istio/envoy_filter.go:97-140 | requested filters are created or updated and stale ones deleted, as the plan says |
| EnvoyFilters.CheckIfPresent | pkg/clients/clientset/istio/envoy_filter.go:55-62 | present exactly when a name agrees up to case |
| EnvoyFilters.ReconciledAt | pkg/clients/clientset/istio/envoy_filter.go:97-140 | the store after apply, name by name, for every request and store |
| EnvoyFilters.ConvergesIffNamesAvailable | pkg/clients/clientset/istio/envoy_filter.go:97-140 | listing after apply gives exactly the requested filters if and only if no requested name was held outside the selector |
| EnvoyFilters.ApplyFrame | pkg/clients/clientset/istio/envoy_filter.go:97-140 | objects outside the selector are untouched and no unrequested name appears |
| EnvoyFilters.SecondApplyOnlyUpdates | pkg/clients/clientset/istio/envoy_filter.go:97-140 | once converged, applying again only updates and leaves every filter as it was, up to the time-stamp annotation an update rewrites |
| EnvoyFilters.RequestsMatchTheirSelector | internal/handler/trafficconfig/rate_limiting_helper.go:28-37 | filters are created with exactly the labels they are listed by |
| EnvoyFilters.BuildFilters | internal/handler/trafficconfig/rate_limiting_handler.go:77-113 | by position and field by field: one filter per workload environment that has a workload, and per proxy version, in order, with that environment's name, labels and spec |
| EnvoyFilters.RequestedIff | internal/handler/trafficconfig/rate_limiting_handler.go:63-113 | a filter is requested exactly when some environment with a workload and some version have its name, labels and spec |
| EnvoyFilters.DistinctIffApart | internal/handler/trafficconfig/rate_limiting_handler.go:73-74 | the requested names are distinct exactly when no two environments and versions make one name |
| EnvoyFilters.DashFreeNames | internal/handler/trafficconfig/rate_limiting_handler.go:73-74 | versions without a dash keep names apart whenever they or the environments differ in more than case |
| EnvoyFilters.HandledClusterConverges | internal/handler/trafficconfig/rate_limiting_handler.go:63-119 | in a handled cluster the config's filters are exactly those of its environments with a workload and its versions, if and only if none of their names was held by another's filter, when no two of the names coincide; filters of others never change, and disabled or deleted configs leave none |
| EnvoyFilters.HandleRateLimiter | internal/handler/trafficconfig/rate_limiting_handler.go:26-61 | every allowed, known cluster of the identity is reconciled and no other changes |

## Left out

- Condition variables inside the work queue: a worker waiting in Get or in a drain is a step that is not enabled yet; whether client-go wakes the right waiter is not part of this model.
- Fairness and time: delays fall due at any moment, and progress is the absence of stuck states, not a bound on steps.
- ControllerRuns.NobodyPanics: assumes that children never ask for a retry, because Done on a child takes no processing mark off (WorkQueue.ReAddedOutsideProcessing).
- RolloutsCache.EveryRunLinearizable: excludes the test-only Reset; the entry pointers GetByClusterIdentity hands out can change after the call, which the model's copies do not show.
- RolloutsStore.Rollouts.Delete: states the uninterrupted delete; interleavings are in RolloutsCache.
- FanOut.TriggerForIdentity: requires a status channel, because without one the child's context is nil and logging to it panics.
- FanOut.Updated: what processing a config does to clusters is in the rate-limit and virtual-service parts and does not touch the channel.
- RoutingRules.BuildVirtualServiceForMeshDependents: annotations, labels and namespace of the object are left out.
- App-dial rules carry no source condition, so nothing is claimed about which caller an app rule serves.
- Upper and lower case cover ASCII only; strings for base64 are bytes.
- EnvoyFilters.IstioClient.ApplyEnvoyFilters: failing API calls, resource versions and conflicts; the client discards joined errors, and every call is taken to succeed.
- EnvoyFilters.SecondApplyOnlyUpdates: the lastUpdated annotation, which every update rewrites, is not part of a filter here.
- Type assertions that fail and nil elements in configuration lists, which the source answers with a skip or a panic.
- EnvoyFilters.BuildFilters: which workloads count (an app label; rollouts only when enabled) is a parameter.
- Inbound ports, Envoy struct literals and protobuf conversion: only descriptor entries, actions and token counts are kept.
- The cached copies of routes (getRoutesFromEdgeService, Copy) and the services, controllers and remote-cluster caches: plain maps.
- DeleteDependency handlers: no event removes a dependency in the source, so the relations only grow.
- HTTP server, flags, logging, profiling and remote-cluster start and stop.
