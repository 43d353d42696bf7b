# A Dafny model of the Distributed Ability Manager Service's session bookkeeping

The service lets an application on one device connect to, call, and hand itself over to
abilities on other devices. It keeps this in redundant tables that many code paths change in
place: connect, disconnect, caller death, device offline, timeout, late reply. This project
models those tables in Dafny and proves that they agree, with each other and between devices,
over every run. It also proves the Base64 codec that carries parcels.

| file | what it models |
|---|---|
| `Sessions.dfy` | session lists: one list per remote object, one session per destination |
| `ConnectTables.dfy`, `ConnectService.dfy` | the connect tables of one device, as functions and as the service's own loops |
| `ConnectNet.dfy` | any number of devices, one step per locked section, with messages that get lost |
| `ConnectAgreement.dfy`, `ConnectLimit.dfy`, `ConnectLeak.dfy` | agreement between devices; the per-uid limit under interleaving; the counter with two callers |
| `ConnectElements.dfy` | what sessions and served connects hold, told from the steps of a run |
| `CallTables.dfy`, `CallRuns.dfy`, `CallEntries.dfy` | the caller's side of a call, section by section; the wrapping token; what its tables hold |
| `CalleeTables.dfy`, `CalleeRuns.dfy`, `CalleeObservers.dfy` | the callee's side: three maps, call by call and section by section; where state changes are reported |
| `Continuation.dfy`, `FreeInstall.dfy` | the two trackers with their timers |
| `ContinuationRuns.dfy`, `ContinuationAnswers.dfy` | the continuation tracker under every interleaving of sections; what caused each answer |
| `InstallRuns.dfy`, `InstallTasks.dfy`, `InstallReports.dfy` | both trackers together, installations section by section; what tasks hold and what caused each reply; what late completions report |
| `Trackers.dfy`, `TrackerService.dfy`, `CleanFlags.dfy`, `Answers.dfy` | the service functions that drive both trackers, as runs and as code; each answer with its cause |
| `Registry.dfy`, `RegistryCallbacks.dfy`, `RegistryService.dfy` | tokens and callbacks of the continuation manager |
| `Base64.dfy` | the codec |
| `StateFilter.dfy` | the filter on ability state changes |
| `Codes.dfy`, `Collections.dfy` | result codes; picking a member of a set |

Each table is modelled twice: as a class with the code's fields and loops, and as functions on
values. The methods of the class are proved to have the effect of the functions; runs and
theorems are about the functions. A remote object is an opaque identity. What other processes
answer (permission and account checks, the bundle and ability managers, remote devices) is a
parameter or a free choice of the run. A pending timer is a member of a multiset: setting adds
one, removing takes all with that id, firing takes one. Numbers such as `issue`, `stamp`,
`place` and `history` count pushes and issues for the proofs; the code keeps none of them.

What the tables hold is stated against the steps of a run and not against the functions: an
element, an observer, a task, a stored token or an answer is traced back to the step that
supplied it, with result codes written as numbers (`ConnectElements`, `CallEntries`,
`CalleeObservers`, `Answers`, `ContinuationAnswers`, `InstallTasks`).

That nothing is answered twice is stated for single sections of a tracker (`Continuation`), for
whole service functions (`Trackers`) and, as the main result, for the sections of the service
functions in any interleaving (`ContinuationRuns`, `InstallRuns`).

Where the code does not do what one would expect, the code is modelled as it is:

- Two devices agree through a run exactly when its steps are `Harmless`. Any harmful step can
  be continued to a disagreement with nothing on its way. Work done one operation at a time is
  harmless; accepting a connect that was closed while the remote device was between its two
  sections is not, nor is a lost message that nothing else makes up for.
- The leak counter relies on one caller per connect, because only the front session is read.
  `ConnectNet` assumes it (`owner`); `ConnectLeak` shows what happens without.
- The limit of 600 is checked and counted in two sections, so k concurrent calls reach 599 + k.
- The callee's three maps agree when each call is one step. Mixed sections can strand an
  observer; `CalleeRuns` gives the exact condition.
- A continuation can lose its timeout to a result of an earlier one that is late with its
  removal; `ContinuationRuns` says exactly when.
- A mission id that is not positive never times out.
- A continuation task without a positive session reports its failure to mission 29360128.
- The clean flag of a mission is the first one asked for since its callback was last taken
  out, and can be left from before it began.
- Completions of a free install can cross: one that read the launch type before the task was
  taken out still reports a failure, and can answer a later continuation. `InstallReports`
  says exactly when, and which.
- A selection callback can be entered for a token that is being given back;
  `RegistryCallbacks` gives the exact condition.
- The removal loop of the registry can leave a token once tokens repeat; a notifier that
  serves two tokens is cleaned up for one.

## Model

| member | source | states |
|---|---|---|
| `ConnectAgreement.Agreement` | services/dtbschedmgr/src/distributed_sched_service.cpp:1762-1801 | Cross-device agreement, for any number of devices and every harmless interleaving of locked sections (the search and the record of the remote device are two of them), deliveries, losses of messages and of links: when nothing that concerns a connect and a device is on its way, device b serves connect c for device a exactly when a has a session for c to b |
| `ConnectAgreement.AgreementIff` | services/dtbschedmgr/src/distributed_sched_service.cpp:2533-2706 | The exact condition: of all runs from the start, the harmless ones are exactly those in which the devices agree in every state and after every way to commit and deliver what is on its way |
| `ConnectAgreement.AccountedStepIff` | services/dtbschedmgr/src/distributed_sched_service.cpp:1785-1801 | Step by step: a step keeps every pair of connect and device accounted for if and only if it is harmless |
| `ConnectAgreement.AccountedIff` | services/dtbschedmgr/src/distributed_sched_service.cpp:2598-2640 | The invariant is exact: every pair is accounted for if and only if the devices agree after every way to finish what is on its way |
| `ConnectAgreement.HarmfulDisagrees` | services/dtbschedmgr/src/distributed_sched_service.cpp:2822-2895 | Every harmful step, whatever its kind, has a continuation of commits and deliveries that ends with two devices disagreeing and nothing on its way between them |
| `ConnectAgreement.RunKeepsAccounted` | services/dtbschedmgr/src/distributed_sched_service.cpp:2533-2706 | In every state of a harmless run a served connect has a session, an accepted attempt or a pending notice, and a session or accepted attempt is served with no notice pending |
| `ConnectAgreement.OneAtATimeIsHarmless` | services/dtbschedmgr/src/distributed_sched_service.cpp:1754-1801 | Runs in which one connect, disconnect, death or link loss is finished before the next begins, with no message lost, are harmless, so agreement holds for them |
| `ConnectAgreement.CloseCrossesSearch` | services/dtbschedmgr/src/distributed_sched_service.cpp:2560-2578 | A connect closed and forgotten between the search and the record of the remote device is not recorded again, and the commit leaves a session that is not served |
| `ConnectAgreement.ClosedInTime` | services/dtbschedmgr/src/distributed_sched_service.cpp:2606-2637 | The close and the delivery of that run are harmless by themselves |
| `ConnectAgreement.LinkLostCrossesCommit` | services/dtbschedmgr/src/distributed_sched_service.cpp:1785-1789 | A link lost between acceptance and commit always leaves a session that the other device does not serve |
| `ConnectAgreement.NoticeCrossesAccept` | services/dtbschedmgr/src/distributed_sched_service.cpp:2628-2637 | A connect accepted while the notice of an earlier disconnect is on its way always ends in a session that is not served |
| `ConnectAgreement.AnswerLostStrands` | services/dtbschedmgr/src/distributed_sched_service.cpp:1783-1798 | A lost answer for a connect that was not known, followed by giving up, leaves the remote device serving a connect without a session |
| `ConnectNet.EveryRunIsExact` | services/dtbschedmgr/src/distributed_sched_service.cpp:1642-1713 | Conservation of the leak counter and shape of the session lists after any run of any number of devices, messages lost or not: per uid the number stored is the number of its connects, the key is present exactly when that is positive; lists are non-empty, one session per destination, no element twice |
| `ConnectNet.StepKeepsWellFormed` | services/dtbschedmgr/src/distributed_sched_service.cpp:2598-2754 | Every locked section of every device keeps tables well formed, sessions with their one caller, and counters exact |
| `ConnectLimit.InterleavedBound` | services/dtbschedmgr/src/distributed_sched_service.cpp:1737-1743 | With at most k connects of a uid between check and commit, committed and in-flight connects never exceed 599 + k in any interleaving; one at a time never exceeds 600 |
| `ConnectLimit.BoundIsReached` | services/dtbschedmgr/src/distributed_sched_service.cpp:1674-1686 | The bound is tight: for every k >= 1 there is a run that commits 599 + k connects |
| `ConnectLimit.CommitOwns` | services/dtbschedmgr/src/distributed_sched_service.cpp:1785-1789 | A commit turns at most one attempt in flight into one committed connect of its uid, and never gives a uid more in total |
| `ConnectElements.SessionElements` | services/dtbschedmgr/src/distributed_sched_service.cpp:1642-1670 | After any run from the start the session of connect c to device b holds exactly the elements that were begun and committed for that pair since the last close, death or link loss that ended such a session, each once and in their order; and there is a session exactly when there is such an element |
| `ConnectElements.SessionOrigin` | services/dtbschedmgr/src/distributed_sched_service.cpp:1660-1666 | After any run every session names the caller that owns its connect, and that caller's device as its source |
| `ConnectElements.ServedOrigin` | services/dtbschedmgr/src/distributed_sched_service.cpp:2560-2579 | After any run whatever a device serves for a connect names the owner of the connect, and the wrapper and element of one of its accepts |
| `ConnectElements.AttemptsAreRequests` | services/dtbschedmgr/src/distributed_sched_service.cpp:1754-1801 | After any run the attempts under way are exactly those begun and neither given up nor committed, each for its own connect, device and element, with its three tries less one for each refusal and each lost answer |
| `ConnectTables.CheckCodes` | services/dtbschedmgr/src/distributed_sched_service.cpp:1674-1686 | 29360159 exactly for a negative uid, 29360160 exactly for another uid with 600 connects or more, 0 exactly otherwise |
| `ConnectTables.RecordedContents` | services/dtbschedmgr/src/distributed_sched_service.cpp:2560-2579 | A served connect keeps its wrapper and element through every further accept; one that is entered gets those of its accept; no other entry changes |
| `ConnectTables.MappedExact` | services/dtbschedmgr/src/distributed_sched_service.cpp:1649-1670 | A commit keeps the leak counter exact, whoever calls |
| `ConnectTables.ShrunkExactIff` | services/dtbschedmgr/src/distributed_sched_service.cpp:2712-2736 | A section that removes connects or sessions leaves the counter exact if and only if, for every uid, as many surviving connects had that uid at the front before as have it after |
| `ConnectTables.OfflineExact` | services/dtbschedmgr/src/distributed_sched_service.cpp:2712-2736 | With one caller per connect the offline sweep keeps the counter exact |
| `ConnectTables.OfflineLeaks` | services/dtbschedmgr/src/distributed_sched_service.cpp:1707-1713 | Without it: when the front session of one connect goes offline and the next has another uid, the counter is no longer exact |
| `ConnectLeak.LeakWithTwoCallers` | services/dtbschedmgr/src/distributed_sched_service.cpp:2606-2621 | From empty tables: two callers commit one connect, the device of the first goes offline, the connect is closed; nothing is connected and uid 1 has a count of one |
| `ConnectLeak.ExcessStays` | services/dtbschedmgr/src/distributed_sched_service.cpp:1688-1713 | What a uid is counted too often stays the same through every run of commits, closes, deaths and sweeps that gives no connect a second caller |
| `ConnectLeak.ExactIsOffByNothing` | services/dtbschedmgr/src/distributed_sched_service.cpp:1688-1705 | The counter is exact if and only if no uid is counted too often, so the excess measures the leak |
| `ConnectLeak.LeakStays` | services/dtbschedmgr/src/distributed_sched_service.cpp:1674-1713 | So after that run uid 1 is counted once too often through every later run with one caller per connect |
| `ConnectTables.DeviceLeftKeeps` | services/dtbschedmgr/src/distributed_sched_service.cpp:2715-2735 | Removing the first match per list leaves no session to the device, keeps all others and all list shapes |
| `ConnectTables.SettledStep` | services/dtbschedmgr/src/distributed_sched_service.cpp:1688-1705 | Erasing one connect more counts exactly its front uid down once, so a loop of decreases is the count of erased connects per uid |
| `Sessions.AddSessionKeeps` | services/dtbschedmgr/src/distributed_sched_service.cpp:1660-1670 | Adding a session keeps the list shape, reaches one destination more and no other, and keeps who is at the front |
| `Sessions.DropToKeeps` | services/dtbschedmgr/src/distributed_sched_service.cpp:2715-2725 | In a well-formed list dropping the first session to a device drops all of them, keeps the rest, and empties the list exactly when it was the only one |
| `Sessions.AddSessionContents` | services/dtbschedmgr/src/distributed_sched_service.cpp:1660-1670 | An element is in the session to the device exactly when it is the new one or was there, and those that were there are a prefix; every other session is unchanged; a new session is the last one, with the source device and the caller given |
| `Sessions.ElementsAdded` | services/dtbschedmgr/src/distributed_sched_service.cpp:2906-2914 | The elements kept for any device: those of the destination grow by the new element when it is new, those of other devices stay |
| `Sessions.ElementsDropped` | services/dtbschedmgr/src/distributed_sched_service.cpp:2715-2725 | Dropping a device forgets its elements and those of no other device |
| `Sessions.AddElement` | services/dtbschedmgr/src/distributed_sched_service.cpp:2906-2914 | The elements that were there are a prefix of those that are there after; one element is last, and is the new one, exactly when it was not there; nothing else of the session changes |
| `ConnectService.DistributedSchedService.CheckDistributedConnectLocked` | services/dtbschedmgr/src/distributed_sched_service.cpp:1674-1686 | Refuses negative uids and uids with 600 connects or more |
| `ConnectService.DistributedSchedService.RemoteConnectAbilityMappingLocked` | services/dtbschedmgr/src/distributed_sched_service.cpp:1642-1672 | The in-place commit has the effect of the section that the run theorems use; `Sessions.AddSessionContents` and `ConnectElements.SessionElements` say what it puts into the sessions |
| `ConnectService.DistributedSchedService.DecreaseConnectLocked` | services/dtbschedmgr/src/distributed_sched_service.cpp:1688-1705 | Counts one down and drops the key at zero |
| `ConnectService.DistributedSchedService.TryConnectRemoteAbility` | services/dtbschedmgr/src/distributed_sched_service.cpp:1762-1801 | At most three tries, each but the last ended in a retryable quick failure; commits exactly on success, otherwise changes nothing |
| `ConnectService.DistributedSchedService.DisconnectRemoteAbility` | services/dtbschedmgr/src/distributed_sched_service.cpp:2598-2640 | Erases the connect, counts its front uid down, and returns the sessions whose devices are told |
| `ConnectService.DistributedSchedService.RemoveSessionsTo` | services/dtbschedmgr/src/distributed_sched_service.cpp:2711-2737 | The erase-while-iterating sweep over own connects, in any order, has the effect of the offline section |
| `ConnectService.DistributedSchedService.RemoveServedFrom` | services/dtbschedmgr/src/distributed_sched_service.cpp:2739-2753 | Removes exactly the served connects whose caller is on the lost device |
| `ConnectService.DistributedSchedService.ProcessConnectDied` | services/dtbschedmgr/src/distributed_sched_service.cpp:2822-2871 | Removes exactly the connects owned by the dead caller; the notify list has no device twice and its devices are exactly the destinations of the removed sessions |
| `ConnectService.AddRemotes` | services/dtbschedmgr/src/distributed_sched_service.cpp:2846-2857 | The notify list grows by exactly the destinations not told yet |
| `ConnectService.DistributedSchedService.RecordServed` | services/dtbschedmgr/src/distributed_sched_service.cpp:2571-2579 | Second section: records the connect unless the first one had found it, and never over an entry |
| `ConnectService.DistributedSchedService.ConnectAbilityFromRemote` | services/dtbschedmgr/src/distributed_sched_service.cpp:2533-2581 | With nothing between the two sections: records a connect once, exactly when the local ability was connected; all error codes |
| `ConnectService.DistributedSchedService.DisconnectAbilityFromRemote` | services/dtbschedmgr/src/distributed_sched_service.cpp:2642-2678 | Forgets the connect; error codes for null, bad device and unknown connect |
| `ConnectService.DistributedSchedService.NotifyProcessDiedFromRemote` | services/dtbschedmgr/src/distributed_sched_service.cpp:2680-2706 | Removes exactly the served connects of the dead remote caller |
| `CallRuns.TokenHasSession` | services/dtbschedmgr/src/distributed_sched_service.cpp:1844-1872 | No stale call token: in every interleaving of calls, failures, releases, deaths and offline sweeps, a stored token for device d belongs to a connect with a session to d whenever no operation that concerns it is under way |
| `CallRuns.RunKeepsNoStaleToken` | services/dtbschedmgr/src/distributed_sched_service.cpp:1990-2068 | The invariant behind it, section by section |
| `CallRuns.SameStoredToken` | services/dtbschedmgr/src/distributed_sched_service.cpp:2070-2087 | In every reachable state two stored tokens are equal if and only if their issues are a whole number of cycles of 100000000 apart |
| `CallRuns.LookupFindsIssuer` | services/dtbschedmgr/src/distributed_sched_service.cpp:3666-3680 | While stored tokens were issued less than one cycle apart, the only entry with a token is the connect it was issued for, so the first match is the right one |
| `CallEntries.EntryIff` | services/dtbschedmgr/src/distributed_sched_service.cpp:1990-2087 | Over every interleaving: a connect has a stored token exactly when one was stored for it and nothing has removed it since (a failed call, an early failure, a finished removal of the connect, a finished sweep of the device in the entry); the entry is that of the latest store |
| `CallEntries.EntryStep` | services/dtbschedmgr/src/distributed_sched_service.cpp:2057-2067 | Step by step: an entry goes exactly when the step removes it, changes only by a new store for its connect, and comes only with a store, carrying token and device of that call |
| `CallEntries.CallIssued` | services/dtbschedmgr/src/distributed_sched_service.cpp:2070-2087 | A call under way carries the connect and device it was issued for, and the token that was next then |
| `CallEntries.CallerElements` | services/dtbschedmgr/src/distributed_sched_service.cpp:1957-2055 | Over every interleaving: the caller's session for connect c to device d holds exactly the elements of the calls for that pair that succeeded since a removal of c or a sweep of d last ended such a session, each once and in their order |
| `CallTables.TokenStep` | services/dtbschedmgr/src/distributed_sched_service.cpp:2074-2080 | The wrapping increment produces the token of the next issue, always in 1..100000000 |
| `CallTables.SameTokenIff` | services/dtbschedmgr/src/distributed_sched_service.cpp:2074-2080 | Two issues get the same token if and only if they are a whole number of cycles apart |
| `CallTables.CallerSavedKeeps` | services/dtbschedmgr/src/distributed_sched_service.cpp:1957-1988 | Saving the caller's session reaches exactly one more pair of connect and device and keeps list shapes |
| `CallService.CallerSide.SaveConnectToken` | services/dtbschedmgr/src/distributed_sched_service.cpp:2070-2087 | Advances the token and overwrites the entry of the connect |
| `CallService.CallerSide.SaveCallerComponent` | services/dtbschedmgr/src/distributed_sched_service.cpp:1957-1988 | In-place form of the saved session |
| `CallService.CallerSide.RemoveCallerComponent` | services/dtbschedmgr/src/distributed_sched_service.cpp:1990-2023 | Both tables forget the connect and nothing else |
| `CallService.CallerSide.ProcessCalleeOffline` | services/dtbschedmgr/src/distributed_sched_service.cpp:2025-2068 | Both sweeps: every list loses its session to the device; an entry stays exactly when its own device is another one, and what stays is unchanged |
| `CallService.CallerSide.StartRemoteAbilityByCall` | services/dtbschedmgr/src/distributed_sched_service.cpp:2089-2137 | Result code and both tables for every outcome: rejected before, failed early, refused by the remote device, accepted |
| `CallService.CallerSide.FindConnect` | services/dtbschedmgr/src/distributed_sched_service.cpp:3666-3680 | The walk finds an entry with the token exactly when there is one |
| `CalleeRuns.MapsAgreeIff` | services/dtbschedmgr/src/distributed_sched_service.cpp:2196-2220 | Over every interleaving of sections: the three maps agree in every state, once pending drops are done, if and only if every observer was recorded while its call ran with that wrapper and its bundle had that observer, and every bundle was freed while unused, or what used it was about to be dropped |
| `CalleeRuns.AccountedSectionIff` | services/dtbschedmgr/src/distributed_sched_service.cpp:3566-3611 | Section by section: the observers stay covered if and only if the section is harmless |
| `CalleeRuns.AccountedIff` | services/dtbschedmgr/src/distributed_sched_service.cpp:3523-3611 | The invariant is exact: it holds if and only if the maps agree once pending drops are done, in any order |
| `CalleeRuns.UndisturbedIsHarmless` | services/dtbschedmgr/src/distributed_sched_service.cpp:2196-2220 | Runs are harmless in which no connect is erased or stored by another call between look-up and record, no bundle is freed while an observer for it is about to be recorded, and none is recorded while the bundle is about to be freed |
| `CalleeRuns.OneAtATimeIsHarmless` | services/dtbschedmgr/src/distributed_sched_service.cpp:2170-2225 | Runs that finish one operation before the next begins are undisturbed and harmless |
| `CalleeRuns.HarmlessRunAgrees` | services/dtbschedmgr/src/distributed_sched_service.cpp:1907-1923 | In a harmless run, whenever no call is ending, each observer belongs to the running call with its wrapper, its bundle has the same observer, and no other observer has its connect |
| `CalleeObservers.ObserverSupplied` | services/dtbschedmgr/src/distributed_sched_service.cpp:3523-3562 | Over every interleaving: an observer carries the source device, connect token, bundle, ability and connect of the call last recorded under its wrapper, and the observer object of that call; and that call brought a token other than -1 |
| `CalleeObservers.StateChangeGoesBack` | services/dtbschedmgr/src/distributed_sched_service.cpp:3630-3659 | Over every interleaving: a state change that finds an observer goes to the source device of the call last recorded under its wrapper, with the connect token of that call, and that call was for this bundle and ability |
| `CalleeObservers.ReportsToCaller` | services/dtbschedmgr/src/distributed_sched_service.cpp:3640-3642 | With one caller per connect an observer whose call is running reports to the source device in the entry of that call |
| `CalleeObservers.CalleeSupplied` | services/dtbschedmgr/src/distributed_sched_service.cpp:2206-2214 | Over every interleaving: a running call is entered with the caller, the element and the wrapper of the call that stored it |
| `CalleeObservers.TokenSupplied` | services/dtbschedmgr/src/distributed_sched_service.cpp:1907-1923 | The token of an observer, if it has one, is one that a call result set for its wrapper |
| `CalleeObservers.SetsToken` | services/dtbschedmgr/src/distributed_sched_service.cpp:1907-1923 | A call result sets the token of one observer and of no other |
| `CalleeObservers.BundleSupplied` | services/dtbschedmgr/src/distributed_sched_service.cpp:3523-3552 | The observer object of a bundle is the new one of a call for that bundle |
| `CalleeObservers.CallProceeds` | services/dtbschedmgr/src/distributed_sched_service.cpp:3523-3562 | How a call goes on, section by section: to the bundle exactly with a token other than -1 and an application manager; to the observer exactly when the bundle was known or registers; and then it is recorded |
| `CalleeObservers.EndProceeds` | services/dtbschedmgr/src/distributed_sched_service.cpp:1803-1842 | How an end goes on: it drops the observer of the call's wrapper, or of the connect itself when no such call runs, and frees the bundle exactly when that observer was its last |
| `CalleeObservers.GoesIff` | services/dtbschedmgr/src/distributed_sched_service.cpp:3566-3611 | A running call goes exactly with its end or its caller's death, an observer exactly when the end of a call for its wrapper drops it, a bundle exactly when it is freed |
| `CalleeTables.ThreeMapsAgree` | services/dtbschedmgr/src/distributed_sched_service.cpp:3523-3611 | After any run of whole calls, releases and deaths: each observer's call is running with that wrapper, its bundle maps to the same observer, and no other observer has the same source connect |
| `CalleeTables.EndedIsExact` | services/dtbschedmgr/src/distributed_sched_service.cpp:2246-2260 | Ending a call removes its own observer and no other, and frees a bundle exactly when its last observer went |
| `CalleeTables.CallerGoneIsExact` | services/dtbschedmgr/src/distributed_sched_service.cpp:1803-1842 | So does the death of a caller; for an unknown connect it removes what is recorded under that object as a wrapper |
| `CalleeTables.RegisteredContents` | services/dtbschedmgr/src/distributed_sched_service.cpp:3523-3564 | A call gets an observer exactly when it brings a token other than -1, the application manager is there and its bundle is known or registers; the bundle is entered before it registers; nothing else changes |
| `CalleeTables.StartedKeeps` | services/dtbschedmgr/src/distributed_sched_service.cpp:2196-2220 | A call as one step keeps the three maps in agreement, also when registration fails or the connect is known |
| `CalleeTables.MixedCallsStrandObserver` | services/dtbschedmgr/src/distributed_sched_service.cpp:2197-2217 | Why a call must be one step: two first calls on one connect whose sections mix leave an observer that outlives its callee |
| `CalleeTables.MixedBundleIsLost` | services/dtbschedmgr/src/distributed_sched_service.cpp:3594-3598 | A registration that mixes with the removal of the last observer of the bundle leaves an observer whose bundle is unregistered |
| `CalleeService.CalleeSide.RegisterAppStateObserver` | services/dtbschedmgr/src/distributed_sched_service.cpp:3523-3564 | Effect and result for every outcome, the bundle kept after a failed registration included; `CalleeObservers.ObserverSupplied` says what the observer then holds |
| `CalleeService.CalleeSide.UnregisterAppStateObserver` | services/dtbschedmgr/src/distributed_sched_service.cpp:3566-3611 | The loop with early break decides exactly whether the bundle is still in use |
| `CalleeService.CalleeSide.FindReportTarget` | services/dtbschedmgr/src/distributed_sched_service.cpp:3633-3646 | The walk of a state change: device and token of an observer for that bundle, ability and token; an empty device and token 0 exactly when there is none |
| `CalleeService.CalleeSide.StartAbilityByCallFromRemote` | services/dtbschedmgr/src/distributed_sched_service.cpp:2170-2225 | Changes the maps exactly on success, keeping the wrapper of a known connect |
| `CalleeService.CalleeSide.ReleaseAbilityFromRemote` | services/dtbschedmgr/src/distributed_sched_service.cpp:2227-2260 | Ends a known call; error for unknown, null or bad device |
| `CalleeService.CalleeSide.ProcessCallerDied` | services/dtbschedmgr/src/distributed_sched_service.cpp:1803-1842 | Ends the call of the dead caller; an unknown connect is tried as a wrapper |
| `CalleeService.CalleeSide.ProcessCalleeDied` | services/dtbschedmgr/src/distributed_sched_service.cpp:1874-1905 | Ends the call; an unknown connect changes nothing |
| `CalleeService.CalleeSide.ProcessCallResult` | services/dtbschedmgr/src/distributed_sched_service.cpp:1907-1923 | The first observer found for a connect is the wrapper of its running call; none is found exactly when none exists |
| `Trackers.ContinuationOnce` | services/dtbschedmgr/src/distributed_sched_service.cpp:1513-1534 | With each service function as one step (`ContinuationRuns.AnsweredOnce` and `ContinuationRuns.ArmedExactly` are the results about sections), in every reachable state: each pushed callback got at most one result, and its own; one still in the table got none, and for a positive mission its timeout is pending |
| `Trackers.EveryPushAccounted` | services/dtbschedmgr/src/distributed_sched_service.cpp:972-996 | Conservation: the pushes of a run are those in the table, those answered and those abandoned because installation could not be asked for |
| `Trackers.TimeoutAnswersIff` | services/dtbschedmgr/src/distributed_sched_continuation.cpp:341-358 | A fired timeout answers the mission if and only if its id is positive; otherwise the callback stays unanswered |
| `Answers.StepAnswers` | services/dtbschedmgr/src/distributed_sched_service.cpp:1428-1453 | One service function sends exactly the answer of its cause, if it has one and the mission is in progress: 0 for success, 29360152 for a failure told by the remote device, 29360153 for a timeout, 29360206 when the remote device cannot install, 29360205 for a failed installation, the status of a rejection |
| `Answers.AnswerHasCause` | services/dtbschedmgr/src/distributed_sched_service.cpp:1513-1534 | Over every run of the service functions each answer has the step that caused it; it goes to the callback in the table then and carries the code of that cause |
| `Answers.StepTimers` | services/dtbschedmgr/src/distributed_sched_service.cpp:985-994 | How many timeouts of a mission are pending after each service function, for every mission |
| `Answers.PushSupplied` | services/dtbschedmgr/src/distributed_sched_continuation.cpp:185-211 | Over every run a mission in progress has the callback, target device and free-install flag that the step which began it gave |
| `Answers.TaskSupplied` | services/dtbschedmgr/src/distributed_sched_service.cpp:3310-3321 | Over every run a live task has the callback, device, launch type and session of the step that started it, under the id that was next then |
| `Answers.StepReplies` | services/dtbschedmgr/src/distributed_sched_service.cpp:3336-3341 | One service function sends exactly these replies, once each: to the callback of a task whose request failed or whose plain start completed or timed out, with the code brought; to each callback of a task on a lost device, 29360142 |
| `Answers.TaskGoesIff` | services/dtbschedmgr/src/dms_callback_task.cpp:92-107 | A live task leaves exactly with its own failed request, completion or timer, or with its device |
| `Trackers.FreeInstallOnce` | services/dtbschedmgr/src/dms_callback_task.cpp:47-107 | With each service function as one step, in every reachable state: live tasks are exactly the ids with a pending timer, pending once; each item carries its key; no task is answered twice |
| `Trackers.FailedInstallAnswers` | services/dtbschedmgr/src/distributed_sched_service.cpp:3477-3486 | With each service function as one step, over fewer than 2^63 - 1 steps: a failed installation reports to exactly the mission of its own task; without a positive session it reports to mission 29360128, the error code of the look-up |
| `Trackers.TimeoutIsCompletion` | services/dtbschedmgr/src/dms_callback_task.cpp:183-200 | A task timer that fires was the only one, belongs to a live task with positive id, and acts as a completion |
| `InstallRuns.RepliedOnce` | services/dtbschedmgr/src/dms_callback_task.cpp:47-107 | Over every interleaving of the sections of starts, completions, timers and offline sweeps: each task entered is answered at most once, by at most one reply, and not while it is in the table; each item carries its key |
| `InstallRuns.LiveTasksAreTimed` | services/dtbschedmgr/src/dms_callback_task.cpp:183-200 | Over every interleaving: a pending timer is pending once and belongs to a live task; a live task has its timer pending or its fired event is under way |
| `InstallRuns.TakenIff` | services/dtbschedmgr/src/dms_callback_task.cpp:92-107 | A live task leaves the table exactly by the take of a completion or refusal for it, or with its device |
| `InstallRuns.TakenForGood` | services/dtbschedmgr/src/dms_callback_task.cpp:92-107 | A task that was taken out never comes back in any later state; whatever is entered later is another one |
| `InstallTasks.TaskSupplied` | services/dtbschedmgr/src/dms_callback_task.cpp:47-90 | Over every interleaving a live task holds the callback, device, launch type and session that its own start was issued with, under the id of that start |
| `InstallTasks.EnterIff` | services/dtbschedmgr/src/dms_callback_task.cpp:47-90 | A start enters its task exactly when the id is positive and free, the timer could be set, and a plain start has a callback; it goes on exactly then, first to the mission if it is a continuation |
| `InstallTasks.OfflineIsExact` | services/dtbschedmgr/src/dms_callback_task.cpp:166-181 | When a device goes offline exactly the live tasks that were started for it go; each callback that was given is told 29360142, once, and nobody else is told anything |
| `InstallTasks.ReplyHasCause` | services/dtbschedmgr/src/distributed_sched_service.cpp:3489-3495 | Over every interleaving each reply has the step that sent it: the device of a live task went offline and the code is 29360142, or an operation that had taken the task out replied with its code |
| `InstallTasks.ReplyCode` | services/dtbschedmgr/src/distributed_sched_service.cpp:3463-3475 | Such an operation took the task out itself, and a failed request, a completion or a timer brought it the code |
| `InstallTasks.TakeFate` | services/dtbschedmgr/src/distributed_sched_service.cpp:3471-3487 | What follows when a live task is taken out: a refusal, or a completion that read a plain start, is about to reply to the task's callback with its code; one that read a continuation forgets the mission on success and looks it up on failure |
| `InstallTasks.PromiseKept` | services/dtbschedmgr/src/distributed_sched_service.cpp:3336-3341 | Over every interleaving a reply that an operation is about to send is still about to be sent, or was sent, in every later state |
| `InstallReports.LateReportIff` | services/dtbschedmgr/src/distributed_sched_service.cpp:3471-3487 | The exact condition: a completion that takes nothing out goes on to report to a mission if and only if its code is an error and it had read, while the task was still there, that it belongs to a continuation; otherwise it sends nothing |
| `InstallReports.TakenBetween` | services/dtbschedmgr/src/distributed_sched_service.cpp:3471-3472 | In that case a take of another operation or the loss of the device came between the read and the take |
| `InstallReports.NamesOwnMission` | services/dtbschedmgr/src/distributed_sched_service.cpp:3483-3485 | Before ids wrap, a completion names the positive session of its own task if the entry is there, and otherwise mission 29360128 |
| `InstallReports.ReportTakesCurrent` | services/dtbschedmgr/src/distributed_sched_service.cpp:3484-3485 | Which push a report answers: the one in the table when the report pops; that is the push of an earlier state if and only if it has been in the table ever since |
| `InstallReports.SweepCrossesCompletion` | services/dtbschedmgr/src/dms_callback_task.cpp:166-181 | A run: the offline sweep takes the task between read and take, and the completion still sends the mission a failure |
| `InstallReports.SuccessCrossesFailure` | services/dtbschedmgr/src/distributed_sched_service.cpp:3471-3481 | A run: a first completion succeeds and takes the task, a second that had read the type sends the mission a failure |
| `InstallReports.NewContinuationAnswered` | services/dtbschedmgr/src/distributed_sched_service.cpp:3483-3485 | A run: a first completion has answered and the mission is continued again before its entry is erased; the second completion answers the new push |
| `InstallReports.ReadyIsReached` | services/dtbschedmgr/src/distributed_sched_service.cpp:3310-3321 | A run reaches a state from which these three runs start |
| `ContinuationRuns.ArmedExactly` | services/dtbschedmgr/src/distributed_sched_continuation.cpp:319-322 | The exact condition over every interleaving of sections: a positive mission in the table that no operation is about to arm or pop has no pending timeout if and only if, since its push, an operation that had looked or popped before that push removed the timeouts and nobody armed it after |
| `ContinuationRuns.AnsweredOnce` | services/dtbschedmgr/src/distributed_sched_continuation.cpp:319-339 | Over every interleaving of the sections of the service functions each push is answered at most once, by its own callback, and not while it is in the table |
| `ContinuationAnswers.AnswerHasCause` | services/dtbschedmgr/src/distributed_sched_continuation.cpp:319-339 | Over every interleaving of sections each answer goes back to a result or a fired timeout that brought its code, 29360153 for a timeout, and to the pop with which that operation took the answered push out |
| `ContinuationAnswers.PushSupplied` | services/dtbschedmgr/src/distributed_sched_continuation.cpp:185-211 | Over every interleaving a mission in progress has the callback, target device and free-install flag that the step which began it gave |
| `ContinuationAnswers.TimersStep` | services/dtbschedmgr/src/distributed_sched_continuation.cpp:105-121 | How many timeouts of a mission are pending after each section, for every mission |
| `ContinuationRuns.RunWatched` | services/dtbschedmgr/src/distributed_sched_service.cpp:1513-1534 | The invariant behind it: a positive mission in the table is armed, was disarmed late, or an operation under way will arm or pop it |
| `ContinuationRuns.LateResultDisarms` | services/dtbschedmgr/src/distributed_sched_service.cpp:1529-1532 | A run: a result that found no callback, finishing after a new continuation began, leaves that one with no timeout and no operation for it |
| `ContinuationRuns.LatePopDisarms` | services/dtbschedmgr/src/distributed_sched_continuation.cpp:321-322 | A run: so does a result that popped an earlier push and removes its timeouts after a new continuation began |
| `ContinuationRuns.RefusalTakesOther` | services/dtbschedmgr/src/distributed_sched_service.cpp:985-993 | A run: the refusal of a second request takes out the callback of the first, which nobody holds then and nobody answered |
| `ContinuationRuns.RefusalDiscardsOwnIff` | services/dtbschedmgr/src/distributed_sched_service.cpp:985-993 | Whose callback a refusal discards: the request's own if and only if its own push succeeded and has been in the table ever since |
| `CleanFlags.FirstFlagCounts` | services/dtbschedmgr/src/distributed_sched_continuation.cpp:360-376 | In every state of every run of the service functions a mission has a clean flag if and only if one was asked for since its callback was last taken out, and it is the first of those; the look-up says clean exactly when no such flag says otherwise |
| `CleanFlags.StaleFlag` | services/dtbschedmgr/src/distributed_sched_service.cpp:1350-1360 | The run of a start, a continuation and its start: the flag of the first start overrides that of the second |
| `TrackerService.Drivers.NotifyContinuationCallbackResult` | services/dtbschedmgr/src/distributed_sched_service.cpp:1513-1534 | In-place form of the mission-centre result |
| `TrackerService.Drivers.ContinueAbilityWithTimeout` | services/dtbschedmgr/src/distributed_sched_service.cpp:1050-1072 | Pushes and arms, or reports a continuation in progress and changes nothing |
| `TrackerService.Drivers.AskForInstall` | services/dtbschedmgr/src/distributed_sched_service.cpp:985-986 | Pushes, ignoring the outcome, and arms |
| `TrackerService.Drivers.CannotAskForInstall` | services/dtbschedmgr/src/distributed_sched_service.cpp:989-994 | Disarms and discards the callback |
| `TrackerService.Drivers.OnQueryInstallationFinished` | services/dtbschedmgr/src/bundle/bundle_manager_callback_stub.cpp:47-65 | Reports the failure, or replaces the timeouts by one |
| `TrackerService.Drivers.StartContinuation` | services/dtbschedmgr/src/distributed_sched_service.cpp:1328-1377 | Rejection reports the status; otherwise arms when needed, sets the clean flag and, for free install, registers the task |
| `TrackerService.Drivers.NotifyContinuationResultFromRemote` | services/dtbschedmgr/src/distributed_sched_service.cpp:1428-1453 | Refuses a session id that is not positive and changes nothing; otherwise completion by the remote device, whose two codes `Answers.StepAnswers` states |
| `TrackerService.Drivers.ProcessContinuationEvent` | services/dtbschedmgr/src/distributed_sched_continuation.cpp:341-358 | A fired event is consumed and ignored unless its id is positive |
| `TrackerService.Drivers.RegisterInstall` | services/dtbschedmgr/src/distributed_sched_service.cpp:3310-3321 | Issues an id, enters the task and, for a continuation, its mission |
| `TrackerService.Drivers.RemoteInstallFailed` | services/dtbschedmgr/src/distributed_sched_service.cpp:3336-3341 | Takes the task out and replies with the error |
| `TrackerService.Drivers.NotifyCompleteFreeInstallFromRemote` | services/dtbschedmgr/src/distributed_sched_service.cpp:3463-3487 | The two launch types, success and failure, and the unknown task |
| `TrackerService.Drivers.ProcessTaskEvent` | services/dtbschedmgr/src/dms_callback_task.cpp:183-200 | A fired task event is consumed and becomes a completion with the timeout code |
| `TrackerService.Drivers.ProcessFreeInstallOffline` | services/dtbschedmgr/src/distributed_sched_service.cpp:2784-2791 | The offline sweep of the tasks |
| `Continuation.AnsweredAtMostOnce` | services/dtbschedmgr/src/distributed_sched_continuation.cpp:319-339 | Under every interleaving of the tracker's single sections each push is answered at most once and by its own callback; a push in the table has no answer |
| `Continuation.LookupsReportCurrentPush` | services/dtbschedmgr/src/distributed_sched_continuation.cpp:123-154 | Under every interleaving the target device and the free-install flag of a mission are those of its current push, and the defaults when there is none |
| `Continuation.RunKeeps` | services/dtbschedmgr/src/distributed_sched_continuation.cpp:185-261 | The invariant behind both: device keys are callback keys, flag keys among them |
| `Continuation.DSchedContinuation.PushCallback` | services/dtbschedmgr/src/distributed_sched_continuation.cpp:185-211 | In-place push with its refusals |
| `Continuation.DSchedContinuation.PopCallback` | services/dtbschedmgr/src/distributed_sched_continuation.cpp:237-261 | In-place pop of all four tables; null when unknown |
| `Continuation.DSchedContinuation.NotifyMissionCenterResult` | services/dtbschedmgr/src/distributed_sched_continuation.cpp:319-339 | Pop, disarm, then send to what was popped |
| `Continuation.DSchedContinuation.SetTimeOut` | services/dtbschedmgr/src/distributed_sched_continuation.cpp:105-112 | Adds one pending event |
| `Continuation.DSchedContinuation.RemoveTimeOut` | services/dtbschedmgr/src/distributed_sched_continuation.cpp:114-121 | Removes all pending events of the mission |
| `Continuation.DSchedContinuation.SetCleanMissionFlag` | services/dtbschedmgr/src/distributed_sched_continuation.cpp:360-364 | Places the flag only where there is none |
| `FreeInstall.PushKeeps` | services/dtbschedmgr/src/dms_callback_task.cpp:47-90 | Entering a task keeps live ids and timers equal and answers unique |
| `FreeInstall.AnswerKeeps` | services/dtbschedmgr/src/dms_callback_task.cpp:92-107 | Taking out and answering a task keeps them too |
| `FreeInstall.OfflineKeeps` | services/dtbschedmgr/src/dms_callback_task.cpp:166-181 | So does the offline sweep, which answers each task on the device at most once |
| `FreeInstall.IdsCycle` | services/dtbschedmgr/src/dms_callback_task.cpp:37-45 | Ids run from 1 to the largest 64-bit number and start again |
| `FreeInstall.MissionRecordedContents` | services/dtbschedmgr/src/dms_callback_task.cpp:134-148 | The first mission recorded for a task stays; a mission is recorded exactly when both ids are positive and none is there; no other task is touched |
| `FreeInstallService.DmsCallbackTask.GenerateTaskId` | services/dtbschedmgr/src/dms_callback_task.cpp:37-45 | Returns the counter and advances it, from the largest 64-bit value back to 1 |
| `FreeInstallService.DmsCallbackTask.PushCallback` | services/dtbschedmgr/src/dms_callback_task.cpp:47-90 | Arms and enters the task, or changes nothing, with each refusal; `InstallTasks.TaskSupplied` says what the task then holds |
| `FreeInstallService.DmsCallbackTask.PopCallback` | services/dtbschedmgr/src/dms_callback_task.cpp:92-107 | Takes the task and its timers out; the default item when unknown |
| `FreeInstallService.DmsCallbackTask.SetContinuationMissionMap` | services/dtbschedmgr/src/dms_callback_task.cpp:134-148 | Records the mission of a task only where there is none |
| `FreeInstallService.DmsCallbackTask.NotifyFreeInstallResult` | services/dtbschedmgr/src/distributed_sched_service.cpp:3489-3495 | Replies only to a callback that is there |
| `FreeInstallService.DmsCallbackTask.NotifyDeviceOffline` | services/dtbschedmgr/src/dms_callback_task.cpp:166-181 | The erase-while-iterating sweep, in any order: exactly the tasks on the device go, with their timers and one reply each that has a callback |
| `Registry.EveryRun` | services/dtbabilitymgr/src/distributed_ability_manager_service.cpp:144-273 | In every reachable state, all operations interleaved section by section, tokens are in 1..100000000, no list is empty, and no callback record is empty |
| `Registry.RegisterBound` | services/dtbabilitymgr/src/distributed_ability_manager_service.cpp:155-173 | With at most k registrations of an application between check and entry, what it holds and has under way never exceeds 599 + k; one at a time it never holds more than 600 |
| `Registry.SameTokenExactly` | services/dtbabilitymgr/src/distributed_ability_manager_service.cpp:160-173 | In every reachable state two registered tokens are equal if and only if a positive whole number of cycles lies between their issues |
| `Registry.RecentTokensApart` | services/dtbabilitymgr/src/distributed_ability_manager_service.cpp:158-173 | While registered tokens were issued less than 100000000 issues apart all tokens across all lists are distinct |
| `Registry.SweepLeavesIff` | services/dtbabilitymgr/src/distributed_ability_manager_service.cpp:196-205 | The removal loop with its early break leaves a copy of the token if and only if a list holding that token alone comes before another list holding it |
| `Registry.SweepExact` | services/dtbabilitymgr/src/distributed_ability_manager_service.cpp:196-205 | With distinct tokens every application keeps exactly its other tokens, in order |
| `Registry.UnregisterIsExact` | services/dtbabilitymgr/src/distributed_ability_manager_service.cpp:178-210 | In every run, while tokens are less than a cycle apart: giving a token back leaves no copy and no callbacks of it and takes nothing from anyone else; an application that does not hold it changes nothing |
| `Registry.TokenComesBack` | services/dtbabilitymgr/src/distributed_ability_manager_service.cpp:160-206 | Without that condition it fails: a run leads two applications to token 1, and giving it back leaves the copy of the second |
| `Registry.DeathCleansIff` | services/dtbabilitymgr/src/distributed_ability_manager_service.cpp:713-772 | The death of a notifier leaves none of its callbacks if and only if it served at most one token |
| `Registry.RegisterCodes` | services/dtbabilitymgr/src/distributed_ability_manager_service.cpp:144-158 | Which code each outcome of a registration gives, as numbers |
| `Registry.CallbackCodes` | services/dtbabilitymgr/src/distributed_ability_manager_service.cpp:212-273 | Which code each outcome of setting and of removing a callback gives, as numbers, and exactly when |
| `Registry.NotifiersChange` | services/dtbabilitymgr/src/distributed_ability_manager_service.cpp:231-273 | Who is told of either event of any token after a callback is set, removed, or its token forgotten: the other event and all other tokens stay |
| `Registry.NotifierStep` | services/dtbabilitymgr/src/distributed_ability_manager_service.cpp:212-273 | Section by section, who is told of an event of a token: set by the entry of its callback, gone by its removal or the erasure of its token, otherwise as before |
| `Registry.ForgettingBegun` | services/dtbabilitymgr/src/distributed_ability_manager_service.cpp:178-193 | Over every run a token is being given back only because an application that held it then asked for that, or because a notifier died for which it was the least token |
| `Registry.SelectingBegun` | services/dtbabilitymgr/src/distributed_ability_manager_service.cpp:212-230 | Over every run a callback is set only for an application that held the token when it asked, for one of the two events, with the notifier given |
| `RegistryCallbacks.CallbacksRegisteredIff` | services/dtbabilitymgr/src/distributed_ability_manager_service.cpp:178-243 | Over every interleaving of sections: all tokens with callbacks are registered in every state, once pending erasures are done, if and only if every callback was entered while its token was registered or about to be forgotten, and every token was swept while it had no callbacks, a copy stayed, or another operation was about to forget it |
| `RegistryCallbacks.AccountedSectionIff` | services/dtbabilitymgr/src/distributed_ability_manager_service.cpp:185-206 | Section by section: every token with callbacks stays covered if and only if the section is harmless |
| `RegistryCallbacks.AccountedIff` | services/dtbabilitymgr/src/distributed_ability_manager_service.cpp:746-772 | The invariant is exact: it holds if and only if all tokens with callbacks are registered once pending erasures are done, in any order |
| `RegistryCallbacks.OneAtATimeRegistered` | services/dtbabilitymgr/src/distributed_ability_manager_service.cpp:212-273 | When each operation is finished before the next begins, every token with callbacks is registered whenever none is being given back |
| `RegistryCallbacks.SelectionCrossesUnregister` | services/dtbabilitymgr/src/distributed_ability_manager_service.cpp:221-239 | A run: a selection callback passes its checks, the token is given back in full, and the callback is entered for a token nobody holds |
| `Registry.AppendedListed` | services/dtbabilitymgr/src/distributed_ability_manager_service.cpp:170-173 | Registering adds the token to the list of its application and to no other |
| `RegistryService.DistributedAbilityManagerService.Register` | services/dtbabilitymgr/src/distributed_ability_manager_service.cpp:144-176 | Result code, token handed out and tables for every outcome |
| `RegistryService.DistributedAbilityManagerService.Unregister` | services/dtbabilitymgr/src/distributed_ability_manager_service.cpp:178-210 | Result code and tables, callbacks first and then the removal loop |
| `RegistryService.DistributedAbilityManagerService.RemoveToken` | services/dtbabilitymgr/src/distributed_ability_manager_service.cpp:196-205 | The erasing loop with its break, in the order of the access tokens |
| `RegistryService.DistributedAbilityManagerService.RegisterDeviceSelectionCallback` | services/dtbabilitymgr/src/distributed_ability_manager_service.cpp:212-244 | Result code and callback table for every outcome |
| `RegistryService.DistributedAbilityManagerService.UnregisterDeviceSelectionCallback` | services/dtbabilitymgr/src/distributed_ability_manager_service.cpp:246-273 | Result code and callback table; the record goes with its last notifier |
| `RegistryService.DistributedAbilityManagerService.IsExceededRegisterMaxNum` | services/dtbabilitymgr/src/distributed_ability_manager_service.cpp:506-515 | True exactly from 600 tokens on |
| `RegistryService.DistributedAbilityManagerService.IsTokenRegistered` | services/dtbabilitymgr/src/distributed_ability_manager_service.cpp:537-552 | True exactly when the list of the application has the token |
| `RegistryService.DistributedAbilityManagerService.QueryTokenByNotifier` | services/dtbabilitymgr/src/distributed_ability_manager_service.cpp:713-726 | Finds the least token served by the notifier, and nothing exactly when there is none |
| `RegistryService.DistributedAbilityManagerService.HandleNotifierDied` | services/dtbabilitymgr/src/distributed_ability_manager_service.cpp:737-777 | Forgets the first token of the dead notifier |
| `Base64.RoundTrip` | common/src/distributed_sched_utils.cpp:243-343 | Decoding an encoding gives the bytes back, for every byte string |
| `Base64.CanonicalIff` | common/src/distributed_sched_utils.cpp:272-341 | Encoding the decoding of a text gives the text back if and only if it is canonical: whole quads, at most two final pads, no stray bits (sections 4 and 3.5 of RFC 4648) |
| `Base64.CanonicalInverse` | common/src/distributed_sched_utils.cpp:272-341 | Every canonical text survives decoding and encoding |
| `Base64.EncodeIsCanonical` | common/src/distributed_sched_utils.cpp:272-289 | Every encoding is canonical |
| `Base64.DecodeReadsPrefix` | common/src/distributed_sched_utils.cpp:306-341 | On any text the result depends only on the longest alphabet prefix, and its length is 3*(k/4) plus k%4 - 1 for a partial group of k%4 > 0 characters |
| `Base64.EncoderCutsGroup` | common/src/distributed_sched_utils.cpp:258-263 | The masks and shifts cut the 24-bit group, first byte first, into its four six-bit pieces |
| `Base64.BytesOfSextets` | common/src/distributed_sched_utils.cpp:258-337 | Joining the six-bit values of a byte string gives the string |
| `Base64.SextetsOfBytes` | common/src/distributed_sched_utils.cpp:313-337 | Cutting the joined bytes gives the values back if and only if the last group has no stray bits |
| `Base64.FindOfSymbol` | common/src/distributed_sched_utils.cpp:264-266 | Looking up a written symbol gives its value |
| `Base64.SymbolOfFind` | common/src/distributed_sched_utils.cpp:345-348 | Every character that passes the class test is in the alphabet |
| `Base64.Base64Encode` | common/src/distributed_sched_utils.cpp:243-291 | The buffered loop computes the encoding; empty for null |
| `Base64.FlushLast` | common/src/distributed_sched_utils.cpp:325-341 | The decoder's tail: the 0xff that the failed look-up leaves never reaches an emitted byte |
| `Base64.Base64Decode` | common/src/distributed_sched_utils.cpp:293-343 | The buffered loop computes the decoding of the text |
| `StateFilter.ForwardedExactly` | services/dtbschedmgr/src/app_state_observer.cpp:34-61 | Out of any event history exactly these are forwarded, in order: every background event, and each foreground event that has an even number among those of its token since that token's last background event |
| `StateFilter.CounterIsParity` | services/dtbschedmgr/src/app_state_observer.cpp:43-53 | Between events the counter of a token is 0 or 1, the parity of its foreground events since its last background event |
| `StateFilter.TokensIndependent` | services/dtbschedmgr/src/app_state_observer.cpp:42-54 | What is forwarded about a token is what would be forwarded if only its own events had happened |
| `StateFilter.AppStateObserver.OnAbilityStateChanged` | services/dtbschedmgr/src/app_state_observer.cpp:34-61 | One event: forwarded exactly as the history says, counters kept |

## Left out

- The branches under `DMSFWK_INTERACTIVE_ADAPTER`, which go through a loaded library.
- IPC proxies and stubs, parcels, permission and account checks, device, bundle and ability managers, dumping, radar and reporting: their answers are parameters.
- Death recipients, event notifications to applications and `ReportDistributedComponentChange`: calls without effect on the tables.
- `DSchedContinueManager`, `DSchedCollabManager` and the mission managers.
- `PushAbilityToken` and `PopAbilityToken`, which no shown service path calls, and `GenerateSessionId`.
- The list of event listeners in `DSchedContinuation`, and `CleanMission`, whose only effect is outside.
- Version comparison, anonymised strings, configuration and JSON checks: they would only add easy members.
- ConnectService.DistributedSchedService.ConnectAbilityFromRemote: models callers of type `CALLER_TYPE_HARMONY`, the only type the shown code sends; other types compare an iterator that was never set. An iterator whose entry was erased between the two sections counts as found.
- ConnectService.DistributedSchedService.ProcessConnectDied: `TargetComponent` has one value here, as in every session the modelled paths create.
- ConnectService.DistributedSchedService.RemoteConnectAbilityMappingLocked: the counter is an unbounded number; the code's has 32 bits and stays near 600.
- ConnectAgreement.Agreement: assumes that connect objects have one caller; link loss is one step at both ends; an answer is lost after the remote device is done, not while it is at work.
- CalleeTables.ThreeMapsAgree: calls are whole steps; `CalleeRuns.MapsAgreeIff` is about sections.
- Trackers.ContinuationOnce: service functions are steps, split where they wait for another process; `ContinuationRuns` is about sections. Setting a timer is assumed to succeed, and event ids are not narrowed to 32 bits; writing a parcel is assumed to succeed, and an answer counts as sent when `SendRequest` is called, whether it arrives or not.
- Trackers.FreeInstallOnce: service functions are steps; `InstallRuns.RepliedOnce` and `InstallRuns.LiveTasksAreTimed` are about sections.
- Trackers.FailedInstallAnswers: service functions are steps; `InstallReports.LateReportIff`, `InstallReports.NamesOwnMission` and `InstallReports.ReportTakesCurrent` are about sections.
- RegistryService.DistributedAbilityManagerService.RegisterDeviceSelectionCallback: requires a notifier, which the code dereferences and its stub checks; `NotifierInfo` is a map from callback type to notifier.
- RegistryService.DistributedAbilityManagerService.QueryTokenByNotifier: keeps the least match of a walk in any order, which is the first match of the ascending walk.
- Base64.Base64Decode: lengths up to the largest `int`, characters of the C locale; the buffer that the code shares between characters and their positions is two buffers.
- Maps keyed by objects are walked in any order, so results do not depend on the order of addresses.
- Copies and aliasing of session lists: lists are values that are stored back.
