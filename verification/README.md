# Verified model of the plugin platform's coordination code

Six parts of the platform keep state that several plugins depend on at once. This project models
each of them in Dafny, step by step as the Go code performs it, and proves what the code promises.

* **Dependency graph** (`Plugins`, `GraphIndex`, `InDegree`, `Impact`, `DepGraph`, `Changes`). The
  class `DepGraph.Graph` holds the three linked maps. `Plugins` and `Impact` say, without any
  index, what a startup sequence, a cycle and a failure cascade are. Kahn's algorithm and the impact
  search are proved against those definitions, and `Changes` relates the calls to each other.
* **Platform operations** (`Platform`): adding, removing and replacing plugins over graph, registry,
  plugin table and router endpoints, rollback included.
* **Service registry** (`Registry`, `EventBuilds`, `ServiceWatch`, `AnnouncedEvents`, `RegistryServer`): the two
  provider indexes, selection, and the bounded watcher queues. `Registry` gives each operation's meaning as a
  function. Health states are read provider by provider, with reports between the reads; `EventBuilds` says what an
  event built that way tells. `ServiceWatch` is a state machine of registry and watchers together, whose steps
  interleave freely, and `AnnouncedEvents` is about the events of its runs. `RegistryServer.ServiceRegistry` is the
  mutable object. Its methods are proved to be runs of the state machine, in which watchers take turns and plugins
  report between any two reads or offers.
* **Health watch** (`HealthWatch`, `HealthServer`): the one-slot mailboxes, drained and refilled under
  the lock and read without it. The state machine interleaves atomic actions. The class methods are
  proved to be runs of it, with watchers free to run their loops between any two actions.
* **Rate limiter** (`TokenBucket`, `RateLimiter`): lazy refill, the cap, and eviction of idle buckets, which
  may fall between the lookup of a call's bucket and the take from it.
* **Circuit breaker** (`Breaker`): admission and recording as separate steps, any number of calls in flight.

`Ordering`, `Streams`, `WatcherLists`, `Runs`, `Division`, `Rotation` and `Wrappers` hold the shared notions:
sorted and lexicographic order, subsequences, lists of distinct watchers, runs of a state machine, integer
division, and options.

## Assumptions

* Generated identities are fresh. They enter as parameters. `GraphIndex.AddKeepsExactIff` says exactly what
  happens to the graph when a runtime ID is reused.
* A map is walked in an arbitrary order. Each walk picks any key that is left.
* Clock readings, random numbers, request validation and the outcome of remote calls are parameters.
* Strings are ordered by code point, as comparison of Go strings orders valid UTF-8. Versions are compared as
  plain strings (`registry.go:295-296`), so nothing here is about semantic versions.
* Token arithmetic is over exact reals, where the code has `float64`.
* A platform operation runs without another one in between. Methods that hold the lock of a server exclude each
  other, while its watchers run on and plugins report their health, for which they need no more than the health
  server's own lock (`lifecycle.go:51-59`). Calls of the rate limiter on one key follow each other, while calls on other keys
  and evictions come in between.

## Where the code differs from what one might expect

* `AffectedServices` is described as the services that become unavailable "if no other providers"
  (`internal/depgraph/depgraph.go:260-261`), but the code lists every declared type of the plugin
  (`internal/depgraph/depgraph.go:183-186`). The model does what the code does: `Changes.ListedServiceSurvives` is an
  example, and by `DepGraph.AffectedServicesAreLostIff` the description is right exactly when the plugin is the only
  provider of every type it declares.
* With several providers of one type, `GetImpact` treats each of them as an alternative to the others even when they fail
  together. What it lists is then too small: `Changes.SharedTypeEscapesImpact` gives an example. `Changes.DoomedIsExact`
  says what really fails, and `Changes.ImpactIsCompleteIff` and `Changes.ImpactIsDoomedIff` when the two agree.
* `AddPlugin` checks that needs are provided, and that is not enough to keep the graph startable: a second provider
  of a needed type can close a cycle (`Changes.AdditionCanCloseCycle`). `Changes.AdditionKeepsStartableIff` gives
  the exact condition.
* Half-open breakers admit every call (`circuitbreaker.go:170-172`), although the comments speak of limited probes.
* `RemovePlugin` and `ReplacePlugin` leave the old endpoint in the router (`platform.go:197-231`, `platform.go:305-311`).
* `HasService` on the registry is a selection, so it moves the round-robin cursor (`registry.go:350-353`).
* `Allow` gives up the limiter's lock before it takes from the bucket (`ratelimit.go:63-79`), so a cleanup in between
  can evict the bucket of a call under way, and what the call takes is lost. `RateLimiter.EvictionLosesToken` is an
  example, and by `RateLimiter.EvictionAnywhereIsInvisibleIff` no limit that allows anything is safe from it. When no
  call loses its bucket, evictions under one limit can be noticed exactly when its burst is at least 1 and exceeds what 300
  seconds refill (`RateLimiter.EvictionIsInvisibleIff`).
* `filterAvailable` reads the health states one by one (`registry.go:312-318`), and plugins can report in between. So an
  event can announce that a service is unavailable although a selection would have found a provider at every moment of
  its building (`AnnouncedEvents.FlappingMisleads`), or name a provider that no selection would have returned at any.
  `AnnouncedEvents.EventTellsInEveryRunIff` is exact: only without health tracking, or when all the entries of the list
  make one and the same endpoint, are all events right about some moment of their building. That the entries belong to
  one plugin is not enough (`EventBuilds.OnePluginIsNotEnough`).
* A watcher of the health server can have taken the current status without ever sending it, because the send comes
  later and can fail (`health.go:111-122`): `HealthWatch.TakenNeedNotBeSent`.

## Model

| member | source | states |
|---|---|---|
| DepGraph.Graph.StartupOrder | internal/depgraph/depgraph.go:101-165 | An order is returned only if every startup need is provided and there is no cycle, and it is the lexicographically least startup sequence; an error names a truly unprovided need, or comes with a real cycle and the number of plugins that the greedy run reaches |
| DepGraph.Graph.BuildEdges | internal/depgraph/depgraph.go:106-127 | Whatever the walk order, the in-degrees count the providers of every need with multiplicity and the adjacency lists hold exactly those edges; or the reported need has no provider |
| DepGraph.Graph.LinkRequirer | internal/depgraph/depgraph.go:113-126 | One plugin's in-degree grows by the number of its sources and its edges are the only ones added; otherwise the first of its needs without a provider list is reported |
| DepGraph.Graph.Release | internal/depgraph/depgraph.go:149-155 | Each in-degree drops by its number of released edges, and the sorted queue gains exactly the dependents that reached zero |
| DepGraph.Graph.StartNext | internal/depgraph/depgraph.go:142-156 | One round of the loop keeps the greedy run, the pending counts and the ready queue in step, and makes progress |
| DepGraph.Graph.DrainQueue | internal/depgraph/depgraph.go:140-156 | The loop ends with a greedy run after which nothing is ready |
| DepGraph.HeadIsLeastReady | internal/depgraph/depgraph.go:142-146 | The head of the sorted queue is the least plugin all of whose providers have started |
| Ordering.LeqByFirstDifference | internal/depgraph/depgraph.go:137-154 | The order of the sorts: at the first difference the lesser character comes first, and a prefix before what it begins |
| DepGraph.ReleaseKeepsProgress | internal/depgraph/depgraph.go:142-156 | The loop invariant of Kahn's algorithm over the multigraph, duplicate edges and self-dependencies included |
| DepGraph.OutcomeOfRun | internal/depgraph/depgraph.go:158-164 | Comparing lengths at the end tells a least startup sequence from a cycle |
| InDegree.SettledIffPredecessorsDone | internal/depgraph/depgraph.go:149-155 | The number of unsettled edges into a plugin is zero exactly when all its providers are done |
| Plugins.GreedyRunIsLeast | internal/depgraph/depgraph.go:137-156 | The greedy order comes no later, lexicographically, than any other startup sequence |
| Plugins.PartialRunHasCycle | internal/depgraph/depgraph.go:158-162 | A greedy run that gets stuck early means that a cycle exists |
| Plugins.SequenceIffAcyclic | internal/depgraph/depgraph.go:98-100 | A startup sequence exists exactly when no plugin transitively precedes itself |
| Changes.OutcomeIsDetermined | internal/depgraph/depgraph.go:129-156 | Any two runs over the same nodes agree on success, on the order and on the counts of a cycle error, whatever the walk order or the order of Add calls; only the choice of the unprovided need is free |
| Changes.SucceedsIffStartable | internal/depgraph/depgraph.go:101-165 | StartupOrder succeeds exactly when some startup sequence exists and every need is provided |
| Changes.StartableIffAcyclic | internal/depgraph/depgraph.go:98-100 | Being startable is the same as every need being provided and there being no cycle |
| DepGraph.Graph.Add | internal/depgraph/depgraph.go:52-68 | The new maps, list order included; a fresh ID keeps the index exact |
| GraphIndex.AddedLookup | internal/depgraph/depgraph.go:64-67 | Each type's list is extended at its end by the plugin, as often as the plugin declares the type |
| GraphIndex.StartupTypesInOrder | internal/depgraph/depgraph.go:56-62 | The edges of a plugin keep the order in which it declares its startup needs |
| DepGraph.Graph.Remove | internal/depgraph/depgraph.go:71-96 | The new maps; the index stays exact; an unknown ID changes nothing |
| DepGraph.Graph.HasService | internal/depgraph/depgraph.go:294-296 | True exactly when some node of the graph declares the type |
| GraphIndex.AddKeepsExactIff | internal/depgraph/depgraph.go:52-68 | The index stays exact exactly when the ID is new or the overwritten node declared nothing |
| GraphIndex.RemoveKeepsExact | internal/depgraph/depgraph.go:71-96 | After a removal each ID still occurs in a type's list as often as its node declares it, no list is empty, and edges are keyed like nodes |
| GraphIndex.RemovedLookup | internal/depgraph/depgraph.go:83-95 | Every provider list becomes the old one without the plugin, order kept, even when it had declared a type more than once |
| GraphIndex.RemoveUndoesAdd | internal/depgraph/depgraph.go:52-96 | Adding a new plugin and removing it restores all three maps, list order included |
| GraphIndex.BuiltGraphsAreExact | internal/depgraph/depgraph.go:43-96 | Every graph that Add with fresh IDs and Remove can build has an exact index |
| GraphIndex.LookupFindsProviders | internal/depgraph/depgraph.go:286-296 | In an exact index a type's list holds exactly the plugins that declare it |
| DepGraph.Graph.GetImpact | internal/depgraph/depgraph.go:168-198 | For any graph, cyclic ones too, terminates with sorted lists without duplicates: the affected plugins are exactly those reachable by sole-provider steps, the optional ones exactly the remaining one-step dependants of target and affected plugins, and the services all declared types |
| DepGraph.ImpactIsDetermined | internal/depgraph/depgraph.go:192-197 | Whatever the walk order, two analyses of the same nodes return the same three lists |
| DepGraph.AffectedServicesAreLostIff | internal/depgraph/depgraph.go:183-186 | All listed services lose their last provider with the plugin if and only if it is the only provider of every type it declares |
| DepGraph.Graph.FindDependents | internal/depgraph/depgraph.go:201-242 | The recursive search keeps its invariant: everything recorded is reachable, and every visited plugin not still being scanned is settled |
| DepGraph.Graph.VisitDependency | internal/depgraph/depgraph.go:221-239 | Each match of a dependency with a service is recorded in the right list and, when it strands the other plugin, followed |
| DepGraph.OtherProvidersMeanNotSole | internal/depgraph/depgraph.go:223-226 | The list of other providers is empty exactly when the plugin is the only provider, duplicates notwithstanding |
| DepGraph.AppendUnique | internal/depgraph/depgraph.go:271-278 | Appends exactly when the item is not there yet |
| Impact.FinishedSearch | internal/depgraph/depgraph.go:201-242 | When the search is over, the two lists are exactly the cascade and its optional fringe |
| Changes.OrderAfterRemove | internal/depgraph/depgraph.go:71-198 | On a graph that starts, StartupOrder after Remove succeeds if and only if GetImpact before it listed no affected plugin |
| Changes.RemovalKeepsStartable | internal/depgraph/depgraph.go:71-198 | The same about the collections themselves |
| Changes.FailureCascade | internal/depgraph/depgraph.go:168-253 | With at most one provider per type, removing the target and the affected plugins leaves a startable graph, and every startable part without the target avoids all of them |
| Changes.StartableAvoidsFailing | internal/depgraph/depgraph.go:168-253 | With any number of providers, no startable part without the target contains an affected plugin |
| Changes.SurvivorsStartableIff | internal/depgraph/depgraph.go:223-233 | With several providers, what is left is startable if and only if no survivor needs a type whose several providers all fail |
| Changes.ListedServiceSurvives | internal/depgraph/depgraph.go:183-186 | A graph in which a listed service still has a provider once the plugin is gone |
| Changes.DoomedIsLeast | internal/depgraph/depgraph.go:200-242 | The true cascade contains the target, contains whoever loses every provider of a startup need, and is the least such set |
| Changes.DoomedIsExact | internal/depgraph/depgraph.go:101-198 | With any number of providers per type, removing the true cascade leaves a startable graph, and every startable part without the target avoids all of it |
| Changes.ImpactIsDoomedIff | internal/depgraph/depgraph.go:223-233 | What GetImpact lists is inside the true cascade; it is all of it exactly when no survivor needs a type whose several providers all fail, and in particular with one provider per type |
| Changes.ImpactIsCompleteIff | internal/depgraph/depgraph.go:223-233 | The same on the true cascade alone: GetImpact lists all of it exactly when each of its members is stranded by some single one of them |
| Changes.SharedTypeEscapesImpact | internal/depgraph/depgraph.go:226-228 | A startable graph in which removing the target and its affected plugins leaves a graph that does not start |
| Changes.ReplacementKeepsStartable | platform.go:260-311 | Adding a replacement with the same types and no new startup needs, then removing the original, keeps the graph startable at both points and every provided type provided |
| Changes.AdditionKeepsStartableIff | platform.go:115-121 | When the startup needs of a newcomer are met, the graph stays startable if and only if the newcomer does not come to precede itself |
| Changes.AdditionCanCloseCycle | platform.go:115-121 | A startable graph and a newcomer that passes AddPlugin's check, after which the graph does not start |
| Changes.UnneededTypesAreSafe | platform.go:115-121 | A newcomer whose needs are met and whose types nobody needs keeps the graph startable |
| Platform.Platform.AddPlugin | platform.go:82-193 | Which result each handshake gets, decided by graph and handshake alone; any failure leaves graph, table and endpoints as they were; on success the plugin provides and needs in the graph just what its metadata declare, table and router know it as described, and a startable graph stays startable exactly when no cycle is closed |
| Platform.JustAddedServes | platform.go:115-121 | After a success, the next plugin is refused for a missing service exactly when it needs one at startup that neither the plugin just added declares nor anybody before it provides |
| Platform.AddOutcomeIsUnique | platform.go:82-193 | No handshake fits two results of AddPlugin, so each result is characterised in both directions |
| Platform.Platform.FindMissing | platform.go:115-121 | The first unmet startup need, or the certainty that there is none |
| Platform.Platform.JoinGraph | platform.go:177-186 | A failed health wait restores the graph exactly; the collections on the way are those after the addition and after its undoing |
| Platform.Platform.RemovePlugin | platform.go:197-231 | Unknown plugins change nothing; otherwise graph, registry and table lose the plugin and all its registrations and nothing else, while the endpoint stays, and a startable graph stays so exactly when the computed impact was empty |
| Platform.Platform.ReplacePlugin | platform.go:235-314 | Which result each case gets; a failure changes nothing; on success the new version has joined with what its configuration declares and the old one has gone with all its registrations; if the configuration declares what the old plugin offers and needs nothing new, startup works and nothing lacks a provider after every single write to the graph |
| Platform.Platform.AddToDependencyGraph | platform.go:328-358 | The graph gains the node; the platform stays consistent exactly when the index does |
| Platform.ReplacementLosesNothing | platform.go:260-311 | The graphs that ReplacePlugin is proved to go through, successful or rolled back, all start, and provide every type that was provided |
| Platform.ReplacementGraphsAreCalls | platform.go:278-307 | Those graphs are the ones that the calls of Add and Remove produce |
| Registry.RegisterKeepsAgreement | registry.go:171-175 | A registration with a fresh ID keeps both indexes describing the same providers, each once under its own type |
| Registry.FilterKeepsAgreement | registry.go:194-213 | Filtering both indexes by one criterion, as unregistering does, keeps them in agreement |
| Registry.RunKeepsAgreement | registry.go:171-252 | The indexes agree after every run with fresh registration IDs |
| RegistryServer.SplicedOut | registry.go:202-213 | Cutting one entry out of its list and its registration out of the map is filtering both indexes by its ID |
| RegistryServer.FilterByPlugin | registry.go:227-251 | Dropping all registrations of a plugin is filtering every list by runtime ID, order kept |
| RegistryServer.ServiceRegistry.RegisterService | registry.go:108-183 | Which error each request gets; a refusal changes nothing; success extends both indexes by what was requested and, whatever turns watchers and plugins take meanwhile, makes one announcement, of the event that the reads find among just the reports of those turns, and offers it once to each listed watcher of the type and to nobody else; the health states end as those reports make them |
| RegistryServer.ServiceRegistry.AddProvider | registry.go:171-175 | The provider comes last in the list of its type, no other list changes, and it is registered under its ID |
| RegistryServer.ServiceRegistry.WriteProvider | launch_inmemory.go:141-144 | The launcher's direct write with a fresh ID keeps the registry valid: it is a step of the protocol that notifies nobody |
| RegistryServer.ServiceRegistry.ReportHealth | lifecycle.go:51-59 | A report is a step of the protocol whoever holds the registry's lock |
| RegistryServer.ServiceRegistry.UnregisterService | registry.go:186-219 | Unknown IDs change nothing; otherwise both indexes lose exactly this entry, and the listed watchers of its type, and only they, are offered the event that the reads find among just the reports of the turns taken meanwhile; the health states end as those reports make them |
| RegistryServer.ServiceRegistry.UnregisterPluginServices | registry.go:223-252 | Whatever the walk order, every list becomes the old one without the plugin's entries |
| RegistryServer.ServiceRegistry.FilterAvailable | registry.go:305-318 | With watchers and health reports between the reads, the list left is that of the providers found routable, each at its own read; the reports are those of the turns, and no others |
| RegistryServer.FilterFollowsTurns | registry.go:305-318 | For any turns, the filter reads the whole list and leaves, in their order, just the entries whose plugin has not reported unhealthy last before their own turn is over; all of them without health tracking |
| Registry.RoutableIff | lifecycle.go:85-109 | Traffic is kept from a plugin exactly when health is tracked and its last report was unhealthy; silence and every other state let it through |
| RegistryServer.ServiceRegistry.SelectProvider | registry.go:256-347 | The result and the cursor's new position for every strategy and each of the three errors, as they follow from the health reports that the turns put between the reads, and from no others |
| RegistryServer.QuietSelection | registry.go:256-283 | If no plugin on the list reports in the turns, the result and the cursor are those of a selection made all at once in the state it began in |
| RegistryServer.ServiceRegistry.HasService | registry.go:350-353 | True exactly when some provider that is new enough was routable at its own read, after the reports of the turns up to it; moves the cursor like a selection |
| RegistryServer.ServiceRegistry.DiscoverService | registry.go:415-442 | Finds an endpoint exactly when the selection, with the reports of its turns between the reads, finds a provider, and names the selected one; whether it is a single provider is looked up later, after other methods may have had the lock |
| Registry.CandidatesAreEligible | registry.go:266-278 | When nobody reports meanwhile, the two filters leave exactly the registered providers that are new enough and routable |
| Registry.ChooseIsEligible | registry.go:256-283 | When nobody reports meanwhile, selection fails exactly when no provider is eligible, and returns an eligible one otherwise |
| Registry.StrategiesChoose | registry.go:323-347 | The first candidate without a strategy, under weighted selection and at the beginning of a round robin; under random selection any candidate can be returned |
| Registry.ChooseFinds | registry.go:256-283 | In general, selection succeeds exactly when its reads found some provider routable |
| Registry.PicksRotate | registry.go:331-335 | Whatever happens in between, round-robin selections whose reads find the same candidates go round them from any stale cursor |
| Registry.RoundRobinIsFair | registry.go:331-335 | Over k such selections of n candidates each is chosen k/n times, rounded down or up |
| Registry.CandidatesAreDistinct | registry.go:256-283 | In agreeing indexes the candidates of a selection are distinct, as fairness asks, whatever is reported between its reads |
| Registry.EventMatchesSelection | registry.go:521-567 | An event built while nobody reports says unavailable exactly when a selection without version demand would fail, and otherwise names the provider that first-selection returns |
| EventBuilds.EventTellsReads | registry.go:521-567 | With any reports between the reads, the event says unavailable exactly when each listed provider was unroutable at its own read, and otherwise names the first one that was routable at its own |
| EventBuilds.DegradedIffReported | registry.go:540-549 | The event says degraded exactly when it names a provider whose last report was that |
| EventBuilds.UndisturbedBuild | registry.go:521-567 | When no listed plugin reports meanwhile, the event tells the selection of every state of its building |
| EventBuilds.UndisturbedChoice | registry.go:256-283 | When no plugin on the list reports meanwhile, a selection that reads provider by provider is one that reads them all at once |
| EventBuilds.EventTellsIff | registry.go:305-318 | Whatever is reported, the event tells the selection of some state of its building if and only if health is not tracked or all entries make one endpoint |
| EventBuilds.AvailabilityTellsIff | registry.go:305-318 | Availability alone is right about some state if and only if, besides, the entries belong to one plugin or none is routable at the outset |
| EventBuilds.OnePluginIsNotEnough | registry.go:305-318 | One plugin registered at two versions, and reports under which the event tells the selection of no state |
| RegistryServer.ServiceRegistry.BuildServiceEvent | registry.go:521-567 | The event that the reads make, with watchers and health reports before each of them and before the last look at the first provider's state; the reports are those of the turns, and the health states end as they make them |
| RegistryServer.QuietEvent | registry.go:521-567 | If no plugin on the list reports in the turns, the event is that of the state its building began in and of the one it ended in, and tells their selections |
| RegistryServer.ServiceRegistry.StartWatch | registry.go:453-472 | The initial event, as its reads made it among the reports of the turns, is in the new watcher's channel, the watcher is at the end of its list, and nobody else is told anything |
| RegistryServer.ServiceRegistry.NotifyWatchers | registry.go:507-517 | With watchers taking, sending, failing and closing, and plugins reporting, before each read and offer and after the last, the loop is a run of the watch protocol that offers the event once to each listed watcher; event and health states follow from the reports of the turns |
| RegistryServer.ServiceRegistry.TakeTurn | registry.go:488-502 | Whatever a watcher does without the lock is a run of the watch protocol that tells nobody anything |
| RegistryServer.ServiceRegistry.LeaveList | registry.go:474-482 | The first half of the cleanup is the step that leaves the list, under the lock |
| RegistryServer.ServiceRegistry.CloseChannel | registry.go:483-485 | The second half closes the channel, without asking whether it is listed |
| ServiceWatch.RunKeepsInvariant | registry.go:446-517 | In every interleaving each watcher is faithful to what was emitted to it, is listed exactly until it leaves, and has until then been emitted everything announced since its registration |
| ServiceWatch.DeliveriesAreFaithful | registry.go:453-517 | What a watcher sends is an in-order selection of what was emitted to it, from the initial event on, lacking just what it still holds and one event for each offer that found ten pending; what was emitted is the initial event and then every single announcement since registration, a beginning of that once it has left |
| ServiceWatch.SendsHitOpenChannels | registry.go:474-517 | In no interleaving does an offer go to a closed channel |
| ServiceWatch.MissedIffTenPending | registry.go:467-516 | In every interleaving at most ten events are pending for a watcher, and an offer is missed exactly when it finds ten |
| ServiceWatch.LeavingIsForGood | registry.go:474-486 | A watcher that has left its list gets into no list again and is never offered anything more |
| AnnouncedEvents.EventsTellTheState | registry.go:305-567 | In every interleaving of registry operations, health reports and watchers, each announced event tells what the reads of its building found, its building being the one reading that ended with the announcement; it tells the selection in the state it was made in if no listed plugin reported meanwhile, and that of some state of its building if the entries make one endpoint; it says degraded exactly when the last report of the plugin it names was that |
| AnnouncedEvents.CandidatesFollowReports | registry.go:266-318 | In every run a listed provider that is new enough is a candidate exactly when health is not tracked, or its plugin has not reported, or its last report was not unhealthy |
| AnnouncedEvents.ReadsFollowReports | registry.go:312-318 | In every interleaving each single read keeps its provider under that condition, for the reports up to then |
| AnnouncedEvents.InitialEventsTellTheState | registry.go:465-470 | The same for the initial event of each watcher, its building being the reading that ended with its registration |
| AnnouncedEvents.ReadingBeganOnce | registry.go:521-567 | The step at which the building of an event began is settled by the one at which it ended |
| AnnouncedEvents.AnnouncedOnce | registry.go:507-517 | The step that announced an entry of the log is unique |
| AnnouncedEvents.EventTellsInEveryRunIff | registry.go:305-318 | From any state in which an event begins to be built, all runs make it tell the selection of some state on the way if and only if health is not tracked or the entries make one endpoint |
| AnnouncedEvents.SomeRunMissesAll | registry.go:305-318 | From any state in which an event begins to be built over several plugins, one of them routable, some run announces the service as unavailable although a selection would have succeeded in every state on the way |
| AnnouncedEvents.FlappingMisleads | registry.go:305-318 | Such a run from a reachable state with two plugins, one of them unhealthy |
| AnnouncedEvents.LastEventIsCurrent | registry.go:507-567 | Whenever nobody holds the lock, the last event emitted to a listed watcher, made by the last announcement of its type or by its registration, is that of the registry, unless a direct write of that type, or the removal or a tracked health report of a plugin then listed for it, has come since its building began |
| ServiceWatch.StepKeepsAgreement | registry.go:171-252 | Every step of the protocol keeps the two indexes in agreement |
| HealthWatch.RunKeepsInvariant | health.go:60-178 | The protocol's invariant holds after every interleaving of setters, shutdown, registration, receives and cleanup |
| HealthWatch.NoLostUpdate | health.go:67-178 | Whenever no notification is in progress a listed watcher has what its service shows in its channel or took exactly that status last; in the latter case the last one sent is that one exactly when nothing is in hand or just a repetition |
| HealthWatch.StatusIsShown | health.go:70-73 | In every interleaving a service shows the status set last, by a setter or a shutdown; never set, the server as a whole shows SERVING and any other service SERVICE_UNKNOWN |
| HealthWatch.TakenNeedNotBeSent | health.go:111-122 | A run in which a watcher that is still listed has taken the current status, failed to send it, and sent nothing |
| HealthWatch.PutNeverSkips | health.go:137-150 | In every interleaving the put after a drain finds the channel empty |
| HealthWatch.SentFollowsHistory | health.go:105-123 | What a watcher has sent, even one that has left, is an in-order selection of its service's statuses from registration on, with no two adjacent equal |
| HealthWatch.HistoryBeginsAtRegistration | health.go:67-88 | That history begins with what the service showed at the step that registered the watcher, and goes on with just the statuses set since |
| HealthWatch.ShutdownIsFinal | health.go:129-162 | Once a shutdown has released the lock no later step changes any status, and all known services are NOT_SERVING |
| HealthServer.HealthServer.Put | health.go:143-148 | The default branch is never taken: the status is in the channel afterwards |
| HealthServer.HealthServer.SetServingStatus | health.go:129-151 | A run of the protocol, whatever the readers do in between, that sets this status and no other; nothing after a shutdown |
| HealthServer.HealthServer.Shutdown | health.go:154-162 | A run of the protocol in any service order that sets every known service to NOT_SERVING and adds none |
| HealthServer.HealthServer.Register | health.go:67-88 | The registration step of the protocol: the status of the service is in the channel, SERVICE_UNKNOWN if it has none |
| HealthServer.HealthServer.Take | health.go:111 | The loop's receive, without the lock |
| HealthServer.HealthServer.Send | health.go:112-120 | The status in hand is sent and remembered as the last one, or dropped if it repeats that |
| HealthServer.HealthServer.FailSend | health.go:118-122 | A failed send leaves the loop with the status in hand |
| HealthServer.HealthServer.Cleanup | health.go:91-102 | The cleanup step of the protocol |
| TokenBucket.LevelIsTightestWindow | ratelimit.go:125-151 | From any bucket, with each call bringing its own limit, the tokens at hand are what the tightest window over the earlier calls leaves |
| TokenBucket.AllowedIffWindowsHaveRoom | ratelimit.go:125-151 | With each call bringing its own limit, a bucket allows a request if and only if it fits the burst of its own limit and, for the creation and every earlier call as window start, what was allowed since and this one stay within the burst of that moment plus what is refilled, stretch by stretch, at the rates then in force |
| TokenBucket.ChangedLimitAtOnce | ratelimit.go:130-150 | From any bucket a changed limit lets through at once exactly as many calls as fit into both the tokens at hand and the new burst |
| TokenBucket.SteadyGain | ratelimit.go:138 | Under a fixed limit, what is refilled in a window is rate × length |
| TokenBucket.NoWindowExceeds | ratelimit.go:125-151 | On a monotone clock no window that opens with a call lets more through than the burst of that call plus what is refilled since, whatever limits the calls bring |
| TokenBucket.DeniedCallsAreInvisible | ratelimit.go:135-150 | Under a fixed limit a denied call changes no later answer |
| TokenBucket.DeniedCallIsForgotten | ratelimit.go:130-150 | Nor does it if the limits change, as long as the next call brings the limit of the denied one |
| TokenBucket.DeniedCallCanShow | ratelimit.go:130-138 | A denied call that refills at another rate than the next one, and turns its answer |
| RateLimiter.BucketObject.Take | ratelimit.go:125-151 | The answer and the new fields, after adopting a changed limit, refilling and capping |
| RateLimiter.TokenBucketLimiter.Lookup | ratelimit.go:61-77 | The key's bucket is found, or made on first use; no other changes |
| RateLimiter.TokenBucketLimiter.TakeFrom | ratelimit.go:79 | The answer of the bucket that was looked up, whether or not it is still in the map |
| RateLimiter.TokenBucketLimiter.Allow | ratelimit.go:61-80 | A whole call with any number of cleanups in the middle: its answer and the new state of all buckets |
| RateLimiter.TokenBucketLimiter.RemoveOldBuckets | ratelimit.go:109-121 | Whatever the walk order, exactly the buckets last refilled more than 300 seconds ago go, and the others stay as they are |
| RateLimiter.EvictionIsInvisible | ratelimit.go:67-142 | If on each key all limits that the calls bring have 0 ≤ burst ≤ 300 × rate, or all of them allow nothing, evicting at arbitrary moments changes no answer of any run in which no eviction takes a bucket away from a call under way, calls on different keys overlapping freely |
| RateLimiter.EvictionIsInvisibleIff | ratelimit.go:109-142 | For one limit, evictions change no answer of any such run if and only if burst ≤ 300 × rate or burst < 1; the same for the runs without evictions between a lookup and its take |
| RateLimiter.EvictionAnywhereIsInvisibleIff | ratelimit.go:61-121 | With evictions anywhere, even between a lookup and its take, they change no answer of any run if and only if burst < 1 |
| RateLimiter.EvictionLosesToken | ratelimit.go:61-121 | Burst 1 and rate 1: a run whose mid-call eviction lets three requests through where two are due |
| RateLimiter.KeysAreIndependent | ratelimit.go:61-80 | Without evictions, the answers to a key in the whole limiter, whatever calls on other keys come in between and whatever limits the calls bring, are those of a bucket of its own |
| RateLimiter.LimiterAllowsIffWindowsHaveRoom | ratelimit.go:61-80 | So in the whole limiter a request is allowed if and only if it fits the burst of its limit and every window over the earlier calls on its key, each with the limit it brought |
| Breaker.CircuitBreaker.AllowRequest | circuitbreaker.go:152-177 | Refused exactly when open and less than Timeout after the last failure; and the new fields |
| Breaker.CircuitBreaker.RecordResult | circuitbreaker.go:180-229 | The new fields in each state, late results included |
| Breaker.CircuitBreaker.Call | circuitbreaker.go:135-149 | Rejected exactly when open and less than Timeout after the last failure, and then nothing changes; otherwise the call runs and its result is recorded |
| Breaker.RunKeepsConsistent | circuitbreaker.go:152-229 | In every interleaving the counters count the results recorded since the last state change |
| Breaker.TransitionsAreLegal | circuitbreaker.go:152-229 | Only Closed to Open, Open to HalfOpen, and HalfOpen to Open or Closed ever happen, each by its own kind of step |
| Breaker.OpensExactlyAtThreshold | circuitbreaker.go:186-195 | A closed breaker opens exactly when FailureThreshold consecutive failures have been recorded since it closed |
| Breaker.ClosesExactlyAtThreshold | circuitbreaker.go:209-227 | A half-open breaker closes exactly when SuccessThreshold successes have been recorded since it became half-open, and reopens exactly on a failure |
| Breaker.OpenAdmitsAfterTimeout | circuitbreaker.go:159-167 | An open breaker admits exactly from Timeout after the latest recorded failure on, late failures included |
| Breaker.RefusedIffRecentFailure | circuitbreaker.go:152-177 | In every interleaving a call is refused exactly when the breaker is open and less than Timeout has passed since the latest failure among the recorded results; every other call is in flight afterwards |
| Breaker.Recovers | circuitbreaker.go:152-229 | From any reachable open state, once Timeout has passed, successful calls in a row all reach the service: SuccessThreshold of them close the breaker, fewer leave it half-open, and further ones get through |
| Breaker.SuccessesPass | circuitbreaker.go:152-198 | A closed breaker, a fresh one in particular, refuses none of a row of successful calls and stays closed |
| Breaker.FailingServiceIsSpared | circuitbreaker.go:135-229 | From any reachable state, failing calls reach the service at most FailureThreshold + L / Timeout times in any window of length L |

## Left out

- Breaker.FailingServiceIsSpared: asks for a positive timeout, because the constructor keeps a negative one as it is and an open breaker then admits everything.
- Platform.Platform.AddPlugin: says nothing of registrations that the new plugin makes while its health is awaited; they are calls of their own, and a failed wait does not undo them (`platform.go:183-186`).
- RegistryServer.ServiceRegistry.UnregisterPluginServices: promises no notification, because the code sends none here; the same goes for health reports.
- DepGraph.Graph.Add: keeps nodes as values, so a caller that changes a node after adding it is not modelled; the same goes for two slices that share an array.
- RateLimiter.LimiterAllowsIffWindowsHaveRoom: is about calls on one key that follow each other; concurrent first calls on a key can each make a bucket and lose one (`ratelimit.go:63-77`).
- The breaker's `OnStateChange` callback is taken to be nil: when set, the lock is released in the middle of an update (`circuitbreaker.go:237-242`).
- Overlapping platform operations.
- Rounding of `float64`, the range of machine integers, the `RegisteredAt` time, and the text of error messages other than their data.
- Request validation, token and identity generation, health waiting, draining and shutdown calls: outcomes that enter as parameters, or steps that leave this state alone.
- `Check`, `State`, `GetProvider`, `GetServicesBy` and the other plain accessors, which would only add easy members.
- HTTP handlers, interceptors, routing, process launching, retries, discovery, key-value stores, the in-memory transport and streaming helpers.
