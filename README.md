# Freenet dependency fetching and IP detection scheduling, in Dafny

This project models two parts of the Freenet node and proves properties of
them.

**Dependency-jar fetching of the main-jar updater**
(`src/freenet/node/updater/MainJarUpdater.java`). When a new build of
`freenet.jar` arrives, the dependency checker asks the updater to fetch each
jar the build needs. Each `DependencyJarFetcher` fetches one jar and can
complete along two paths:

- the primary path, where the fetch engine calls `onSuccess` or `onFailure`;
- update-over-mandatory (UOM), where a connected peer is asked for the jar
  and its callback may later report success.

The updater keeps two registries, `fetchers` and `essentialFetchers`. It fans
a UOM request out to every registered fetcher and passes resolved dependency
sets on to the update manager.

**Scheduling of IP address detection and classification of its result**
(`src/freenet/node/IPDetectorPluginManager.java`). The manager keeps an array
of detector plugins. `maybeRun` decides from timers, the peer list and the
clock whether to start a detection. The end of a detection run has three
steps:

- it decides whether the attempt failed;
- it counts the NAT types the plugins reported;
- it picks one connectivity alert by priority.

Files:

- `common.dfy`: module `Common`, the optional value (a nullable Java
  reference), addresses as bytes, and the way a Java call ends (normally or
  with an exception).
- `dependency_fetch.dfy`: module `DependencyFetch`.
  - `Step` and `Run` give the effect of each fetcher event on the fetcher's
    observable state, with lemmas over whole event traces.
  - The classes `DependencyJarFetcher` and `MainJarUpdater` have methods
    proved against `Step`.
- `detection_policy.dfy`: module `DetectionPolicy`.
  - `MaybeRunSpec` gives the detection decision as a function of the plugin
    count, the timers and the environment, with lemmas for each scheduling
    rule.
  - It also holds the peer-scanning loops.
- `detector_results.dfy`: module `DetectorResults`, which covers:
  - gathering the plugins' answers;
  - the failure test;
  - the NAT-type count and the alert choice;
  - the `MyUserAlert` class.
- `ip_detector_plugin_manager.dfy`: module `IPDetectorPlugins`, the class
  `IPDetectorPluginManager`.
  - Its plugin array is rebuilt by `Register` and `Remove`.
  - `MaybeRun` is proved to follow `MaybeRunSpec`.
  - `RealRun` is the end of a detection run.

Inputs from the environment are parameters:

- the clock, as `now`;
- the peer list, with each peer's connection state, last packet time, added
  time and address;
- the node's own addresses;
- the detector's "directly detected", "maybe symmetric" and "old address is
  real" flags;
- the answer of the address validity check;
- the answers of the detector plugins, and whether a plugin threw.

Two things are only events or results:

- the fetch engine, whose success, failure and progress events arrive as
  method calls, and whose exception from `start` is a parameter;
- the dependency checker's `handle`, which becomes the fetch requests it
  issues and the dependency set it returns.

Plugins and fetchers are compared by identity. A plugin is a `nat`
identifier; a fetcher is a Dafny object.

## Model

| member | source | states |
|---|---|---|
| DependencyFetch.Step | src/freenet/node/updater/MainJarUpdater.java:153-215 | every fetcher event adds at most one callback call to the log and never removes one; `fetched` is never cleared; at most one UOM request is issued per event |
| DependencyFetch.SuccessDeliveryBound | src/freenet/node/updater/MainJarUpdater.java:153-212 | over any event trace, the success callback fires at most once more than the number of primary successes; it never fires while the fetcher stays unfetched; `fetched` is never cleared |
| DependencyFetch.FetchedFetcherIgnoresUom | src/freenet/node/updater/MainJarUpdater.java:197-212 | once fetched, a fetcher stays fetched and issues no UOM request; afterwards only primary successes deliver success callbacks, one each when a callback is registered |
| DependencyFetch.NonEssentialNeverAsksUom | src/freenet/node/updater/MainJarUpdater.java:197-201 | a non-essential fetcher never issues a UOM request, whatever happens to it |
| DependencyFetch.LastProgressWins | src/freenet/node/updater/MainJarUpdater.java:169-174 | the progress slot holds the last splitfile progress event of the trace, or its earlier value when the trace holds none |
| DependencyFetch.UomThenPrimaryDeliversTwice | src/freenet/node/updater/MainJarUpdater.java:153-160 | the primary success path does not consult `fetched`: a UOM success followed by a primary success calls the success callback twice |
| DependencyFetch.PrimaryFailureThenUomSucceeds | src/freenet/node/updater/MainJarUpdater.java:162-167 | a primary failure leaves `fetched` false, so a later UOM success still sets it and reports success after the failure |
| DependencyFetch.DependencyJarFetcher.constructor | src/freenet/node/updater/MainJarUpdater.java:114-126 | a new fetcher keeps its descriptor, its essential flag and whether it has a callback; it is unfetched, has delivered nothing and has no progress |
| DependencyFetch.DependencyJarFetcher.Start | src/freenet/node/updater/MainJarUpdater.java:181-183 | the engine's start exception is passed on to the caller; the fetch counts as started only when there is none |
| DependencyFetch.DependencyJarFetcher.Cancel | src/freenet/node/updater/MainJarUpdater.java:128-131 | one more cancellation request reaches the fetch engine |
| DependencyFetch.DependencyJarFetcher.OnSuccess | src/freenet/node/updater/MainJarUpdater.java:153-160 | follows `Step`: a success callback when one is registered, without looking at `fetched`, which is then true |
| DependencyFetch.DependencyJarFetcher.OnFailure | src/freenet/node/updater/MainJarUpdater.java:162-167 | follows `Step`: a failure callback with the engine's error when one is registered, and one deletion of the temporary blob; `fetched` is unchanged |
| DependencyFetch.DependencyJarFetcher.Receive | src/freenet/node/updater/MainJarUpdater.java:169-174 | follows `Step`: the progress slot is overwritten only by a splitfile progress event |
| DependencyFetch.DependencyJarFetcher.FetchFromUom | src/freenet/node/updater/MainJarUpdater.java:197-202 | follows `Step`: a UOM request is issued exactly when the fetcher is unfetched and essential |
| DependencyFetch.DependencyJarFetcher.OnUomSuccess | src/freenet/node/updater/MainJarUpdater.java:205-212 | follows `Step`: when unfetched, sets `fetched` and delivers one success callback if one is registered; when already fetched, delivers nothing |
| DependencyFetch.MainJarUpdater.constructor | src/freenet/node/updater/MainJarUpdater.java:84-85 | both registries start empty, and the registry invariant holds |
| DependencyFetch.MainJarUpdater.Fetch | src/freenet/node/updater/MainJarUpdater.java:219-235 | the new fetcher is added to `fetchers`, and to `essentialFetchers` exactly when essential; nothing else in the registries changes; it is started, the start exception is passed on, and it asks UOM at once when UOM is active and the start succeeded |
| DependencyFetch.MainJarUpdater.ParseDependencies | src/freenet/node/updater/MainJarUpdater.java:87-95 | `fetchers` becomes exactly the fetchers the checker created during the call; `essentialFetchers` keeps its old members and gains the essential new ones; the update manager is notified once, with the checker's result, exactly when there is one |
| DependencyFetch.MainJarUpdater.Deploy | src/freenet/node/updater/MainJarUpdater.java:97-100 | the dependency set is passed on to the update manager |
| DependencyFetch.MainJarUpdater.OnStartFetchingUom | src/freenet/node/updater/MainJarUpdater.java:237-244 | every registered fetcher gets a UOM request event; exactly the essential, unfetched ones issue a request, so fetchers outside the essential registry never do; nothing but the UOM request counts changes, so the primary completion can still follow |
| DependencyFetch.FanOutThenBothSucceed | src/freenet/node/updater/MainJarUpdater.java:153-244 | on the classes themselves: a fetched essential jar with a callback, after the UOM fan-out, a UOM success and then a primary success, has called the success callback twice |
| DetectionPolicy.MaybeRunSpec | src/freenet/node/IPDetectorPluginManager.java:235-425 | the decision never changes the failure flag or the end time of the last attempt; it starts at most two detections; the runner is active afterwards exactly when it was before or something started; a failure retry that is due always starts |
| DetectionPolicy.NothingStartsWhenBlocked | src/freenet/node/IPDetectorPluginManager.java:243-257 | with no plugins, an active runner, or a failure less than 5 minutes old, nothing starts and no timer changes |
| DetectionPolicy.FailedAttemptIsRetried | src/freenet/node/IPDetectorPluginManager.java:254-261 | a failure at least 5 minutes old starts a detection |
| DetectionPolicy.RetryCanStartTwice | src/freenet/node/IPDetectorPluginManager.java:254-261 | after the failure retry, control falls through: with no peers and a 6-hour-old attempt, one call starts two detections |
| DetectionPolicy.DirectIPRecentlyChecked | src/freenet/node/IPDetectorPluginManager.java:262-268 | with a directly detected address checked less than 12 hours ago, only the failure retry can start, and the condition timers are unchanged |
| DetectionPolicy.ExternalAddressesMembers | src/freenet/node/IPDetectorPluginManager.java:270-301 | an address is among the distinct external addresses exactly when some connected peer seen in the last day has it valid and not one of the node's own |
| DetectionPolicy.DirectIPWithThreeExternalPeers | src/freenet/node/IPDetectorPluginManager.java:270-301 | with a directly detected address, three connected external peers on pairwise different addresses suppress every start beyond the failure retry |
| DetectionPolicy.DirectIPWithoutOldPeers | src/freenet/node/IPDetectorPluginManager.java:306-316 | with a directly detected address and no peer seen in the last day that was added more than 30 minutes ago, only the failure retry can start, and the condition timers are unchanged |
| DetectionPolicy.NoPeersRule | src/freenet/node/IPDetectorPluginManager.java:319-328 | with no peers, a detection beyond the retry starts exactly when the address was not directly detected and the last attempt ended at least 6 hours ago |
| DetectionPolicy.HourlyLimitWithPeers | src/freenet/node/IPDetectorPluginManager.java:412-419 | with peers, a detection beyond the retry needs the last attempt to have ended at least an hour ago |
| DetectionPolicy.ConditionTimers | src/freenet/node/IPDetectorPluginManager.java:354-410 | the urgency and possibly-fake timers change only when the peer rules are reached; there, each is set to `now` when its condition first holds, kept while it holds, and reset to 0 when it lapses |
| DetectionPolicy.NewUrgencyWaits | src/freenet/node/IPDetectorPluginManager.java:354-362 | urgency that has just appeared, with a real old address, starts nothing by itself |
| DetectionPolicy.UrgencyWithoutRealAddressDetects | src/freenet/node/IPDetectorPluginManager.java:354-362 | urgency triggers at once when the old address is not a real internet address, subject only to the hourly limit |
| DetectionPolicy.PersistentUrgencyDetects | src/freenet/node/IPDetectorPluginManager.java:354-359 | urgency that has held for more than 2 minutes triggers, subject to the hourly limit |
| DetectionPolicy.UrgencyStillWaiting | src/freenet/node/IPDetectorPluginManager.java:354-362 | urgency that has held for at most 2 minutes, with a real old address, starts nothing by itself |
| DetectionPolicy.NewMaybeFakeWaits | src/freenet/node/IPDetectorPluginManager.java:397-410 | a suspicion of fake addresses that has just appeared starts nothing by itself |
| DetectionPolicy.MaybeFakeStillWaiting | src/freenet/node/IPDetectorPluginManager.java:397-405 | a suspicion of fake addresses that has held for at most 2 minutes starts nothing by itself |
| DetectionPolicy.PersistentMaybeFakeDetects | src/freenet/node/IPDetectorPluginManager.java:397-405 | a suspicion of fake addresses that has held for more than 2 minutes triggers, subject to the hourly limit |
| DetectionPolicy.DisconnectedPeersAlwaysCounted | src/freenet/node/IPDetectorPluginManager.java:383-389 | because the test uses `||`, every disconnected peer counts as recently connected, however long it has been silent |
| DetectionPolicy.StalePeersRaiseSuspicion | src/freenet/node/IPDetectorPluginManager.java:377-395 | one connected peer plus two peers silent for a whole day raise the suspicion of fake addresses |
| DetectionPolicy.IsOwnAddress | src/freenet/node/IPDetectorPluginManager.java:285-292 | the inner scan answers whether the address is one of the node's own addresses |
| DetectionPolicy.ScanPeers | src/freenet/node/IPDetectorPluginManager.java:270-312 | the scan stops exactly when there are more than two distinct external addresses; otherwise it reports whether some peer seen in the last day is older than 30 minutes |
| DetectionPolicy.AnyEnabledPeer | src/freenet/node/IPDetectorPluginManager.java:338-349 | the scan finds a peer exactly when some peer is enabled |
| DetectionPolicy.CountRecentPeers | src/freenet/node/IPDetectorPluginManager.java:382-389 | the count equals the number of peers that are disconnected or heard from in the last 5 minutes |
| DetectorResults.Count | src/freenet/node/IPDetectorPluginManager.java:523-545 | one answer raises the counter of its category by one and leaves the others; an unsupported or unlisted NAT type is ignored |
| DetectorResults.ChooseAlert | src/freenet/node/IPDetectorPluginManager.java:548-560 | no alert exactly when all counters are 0; otherwise the chosen category was counted, and no more permissive category was |
| DetectorResults.TallyCountsPresent | src/freenet/node/IPDetectorPluginManager.java:523-545 | a category's counter is positive exactly when some answer falls under it |
| DetectorResults.ChosenAlertIsMostPermissivePresent | src/freenet/node/IPDetectorPluginManager.java:548-560 | an alert is chosen exactly when some answer reports its category and none reports a more permissive one (open, full cone, restricted, port-restricted, symmetric, no UDP) |
| DetectorResults.NoAlertIffNothingCounted | src/freenet/node/IPDetectorPluginManager.java:548-560 | no alert exactly when every answer is of an ignored type; the no-UDP alert exactly when no-UDP is the only category reported |
| DetectorResults.CountNatTypes | src/freenet/node/IPDetectorPluginManager.java:513-546 | the six counters are those of the category count over all answers |
| DetectorResults.IsFailedAttempt | src/freenet/node/IPDetectorPluginManager.java:466-480 | an attempt fails exactly when no answer has a non-null, valid public address, including when there is no answer |
| DetectorResults.FlattenMembers | src/freenet/node/IPDetectorPluginManager.java:451-463 | the gathered answers are exactly the answers of the plugins that answered |
| DetectorResults.CollectDetected | src/freenet/node/IPDetectorPluginManager.java:451-463 | gathers the answers in plugin order, skipping plugins that threw or answered null |
| DetectorResults.AlertPriority | src/freenet/node/IPDetectorPluginManager.java:112-132 | no-UDP and symmetric alerts are errors; restricted, full cone and connected alerts are minor |
| DetectorResults.SuggestsPortForward | src/freenet/node/IPDetectorPluginManager.java:112-132 | an alert advises port forwarding exactly when its category is port-restricted or worse, which are exactly the alerts that are not minor |
| DetectorResults.MyUserAlert.constructor | src/freenet/node/IPDetectorPluginManager.java:33-38 | a new alert is valid |
| DetectorResults.MyUserAlert.GetPriorityClass | src/freenet/node/IPDetectorPluginManager.java:55-57 | the priority is the alert table's; errors are exactly the symmetric-or-worse alerts |
| DetectorResults.MyUserAlert.IsValid | src/freenet/node/IPDetectorPluginManager.java:71-73 | reports the validity flag, which starts true and is changed only by `SetValid` and `OnDismiss` |
| DetectorResults.MyUserAlert.SetValid | src/freenet/node/IPDetectorPluginManager.java:75-77 | sets the validity flag to the given value |
| DetectorResults.MyUserAlert.OnDismiss | src/freenet/node/IPDetectorPluginManager.java:79-81 | dismissing makes the alert invalid |
| DetectorResults.MyUserAlert.ShouldUnregisterOnDismiss | src/freenet/node/IPDetectorPluginManager.java:83-85 | dismissing never unregisters the alert |
| DetectorResults.MyUserAlert.UserCanDismiss | src/freenet/node/IPDetectorPluginManager.java:87-89 | the user can dismiss exactly the alerts that do not advise port forwarding, which are those for a restricted cone NAT or better |
| IPDetectorPlugins.Without | src/freenet/node/IPDetectorPluginManager.java:177-191 | the intended removal: the result is shorter by the number of entries equal to the plugin, no longer holds it, and keeps every other plugin; with no such entry it is unchanged |
| IPDetectorPlugins.CountOccurrences | src/freenet/node/IPDetectorPluginManager.java:179-182 | counts the entries identical to the plugin |
| IPDetectorPlugins.CopyWithout | src/freenet/node/IPDetectorPluginManager.java:184-188 | the corrected rebuild loop fills the shorter array with the other entries in order |
| IPDetectorPlugins.RemoveUndoesRegister | src/freenet/node/IPDetectorPluginManager.java:163-191 | registering a new plugin and then removing it (as intended) gives back the registry as it was |
| IPDetectorPlugins.IPDetectorPluginManager.constructor | src/freenet/node/IPDetectorPluginManager.java:106-108 | no plugins, no runner, no failure and all times 0 |
| IPDetectorPlugins.IPDetectorPluginManager.IsEmpty | src/freenet/node/IPDetectorPluginManager.java:570-572 | true exactly when no plugin is registered |
| IPDetectorPlugins.IPDetectorPluginManager.Register | src/freenet/node/IPDetectorPluginManager.java:163-172 | a null plugin throws and changes nothing; otherwise the registry is the old one with the plugin appended, and then the scheduling decision runs as `MaybeRunSpec` says for the new plugin count |
| IPDetectorPlugins.IPDetectorPluginManager.Remove | src/freenet/node/IPDetectorPluginManager.java:177-191 | the intended removal: the registry loses every entry identical to the plugin and keeps the rest in order; it is untouched when there is none; the timers are unchanged |
| IPDetectorPlugins.IPDetectorPluginManager.RemoveAsWritten | src/freenet/node/IPDetectorPluginManager.java:177-191 | the removal as written: it throws an index-out-of-bounds exception exactly when the plugin is registered, and returns normally otherwise; the registry never changes |
| IPDetectorPlugins.IPDetectorPluginManager.StartDetect | src/freenet/node/IPDetectorPluginManager.java:427-435 | a runner is active and one more detection has started |
| IPDetectorPlugins.IPDetectorPluginManager.MaybeRun | src/freenet/node/IPDetectorPluginManager.java:235-425 | the new timers and the number of detections started are those of `MaybeRunSpec` for the current plugin count, old timers and environment |
| IPDetectorPlugins.IPDetectorPluginManager.ApplyPeerRules | src/freenet/node/IPDetectorPluginManager.java:329-422 | the timers and starts follow the peer rules of `MaybeRunSpec` |
| IPDetectorPlugins.IPDetectorPluginManager.UpdateUrgency | src/freenet/node/IPDetectorPluginManager.java:336-367 | the urgency timer is armed or cleared by the urgency condition; it asks for a detection exactly when urgent and either held over 2 minutes or without a real old address |
| IPDetectorPlugins.IPDetectorPluginManager.UpdateMaybeFake | src/freenet/node/IPDetectorPluginManager.java:375-410 | the possibly-fake timer is armed or cleared by its condition; it asks for a detection exactly when the condition has held over 2 minutes |
| IPDetectorPlugins.IPDetectorPluginManager.RealRun | src/freenet/node/IPDetectorPluginManager.java:449-566 | the end time is recorded and the runner cleared on every exit; the failure flag is set exactly when no answer checks out; otherwise the gathered answers are reported and the most permissive counted category's alert is shown, if any |

## Left out

- `src/freenet/clients/http/ConfigToadlet.java` is not part of this model: it is HTML user interface over configuration classes.
- HTML and text rendering is left out because it is presentation and localisation: `DependencyJarFetcher.render`, `renderProperties`, `MyUserAlert.getHTMLText`, `getText`, `getTitle` and `dismissButtonText`.
- `cleanupDependencies`, `brokenDependencies` and `addDependency` are left out. They do file and `Properties` I/O, or delegate to classes that are not shown.
- `DependencyFetch.MainJarUpdater.ParseDependencies` drops the start exception of each fetch and goes on with the next request: this assumes the dependency checker, which is not part of this model, catches the exception that `fetch` throws.
- `jarName` is left out: it only returns the constant name `freenet.jar`, which no modelled operation reads.
- The fetch engine (`ClientGetter`), the UOM manager (`fetchDependency`, `fetchingUOM`) and the dependency checker (`handle`) are not modelled. Their effects are events, flags and parameters, as described above.
- The `FetchContext` configuration in the fetcher's constructor is left out: it configures the engine and has no effect on the bookkeeping.
- Threads, the ticker that re-runs `maybeRun` every minute, and `synchronized` blocks are left out. Events are applied one at a time.
  - A second `startDetect` in one `maybeRun` is modelled only as a second count of started detections.
  - `RealRun` is called with the plugins' answers for the current registry.
- Logging, `System.out`, the out-of-memory handler and `detector.hasDetectedPM` are left out: they do not affect the modelled state.
- `detector.processDetectedIPs` is modelled only as the list `RealRun` returns.
- `DetectionPolicy.MaybeRunSpec`: `hasDirectlyDetectedIP` is read twice in the code and is taken as one value per call, and `oldIPAddress.isRealInternetAddress` is one flag.
- `DetectionPolicy.MaybeRunSpec`: times are unbounded integers, so Java `long` overflow of `now - time` is not modelled.
- `DependencyFetch.DependencyJarFetcher.OnUomSuccess` requires an outstanding UOM request: the callback object exists only after a request has been issued.
- `DependencyFetch.DependencyJarFetcher.OnSuccess` and `OnFailure` require a started fetch: the engine calls them only for a running fetch.
- `IPDetectorPlugins.IPDetectorPluginManager.Remove` is the corrected behaviour. The class keeps `RemoveAsWritten` beside it.

## Findings

| source | as written | input that shows it | evidently intended | confidence | as-written member | corrected member |
|---|---|---|---|---|---|---|
| src/freenet/node/IPDetectorPluginManager.java:186-188 | the rebuild loop tests `newPlugins[i]`, a slot of the new, shorter array, instead of `plugins[i]`, and runs over the length of the old array | removing the only registered plugin: the new array has length 0, so reading `newPlugins[0]` throws `ArrayIndexOutOfBoundsException`; in general every removal of a registered plugin throws and leaves the registry unchanged | copy every entry of `plugins` that is not the removed plugin into the new array, in order | not executed | IPDetectorPlugins.IPDetectorPluginManager.RemoveAsWritten | IPDetectorPlugins.IPDetectorPluginManager.Remove |
