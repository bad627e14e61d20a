# Zelyo Operator: a verified model of the path from finding to pull request

The operator groups security events into incidents, asks a language model for a fix, and opens
a pull request. This project models the state machines on that path and proves what they keep.

| module | what it models |
|---|---|
| `Correlator`, `CorrelatorEngine` | time-windowed grouping of events into incidents: the step relation with its theorems over runs, and the engine object proved to take exactly those steps |
| `Reconciler` | one remediation cycle (snapshot, budget, dedup, plan, pull request, resolution) and runs of cycles by any set of policies |
| `GitHub`, `RepoPath` | opening a pull request against a server whose every call may work, be refused, or take effect while its response is lost; listing; path escaping |
| `FixPlan`, `DiffText`, `Gitops` | validation and confinement of a model's fixes, the three diff printers with a decoder, branch names |
| `EventBus`, `RemediationStore` | the event bus under every interleaving of its critical sections; the keyed store with two secondary indexes and eviction |
| `CircuitBreaker`, `TokenBudget` | the breaker under late results, the fallback router, the three-window token budget |
| `Anomaly`, `Notifier` | the self-including outlier test; the fixed-window limiter and the expiring dedup cache |
| `Drift` | the tree comparison with ignored paths |
| `Text`, `Severities` | splitting, joining, decimal formatting; severity labels |

Where the source changes things in place, a class has the source's fields, next to counters and
recorded values that only the statements need, and each method is proved against a step function
or relation; the theorems are about runs of those steps. A run is a
datatype (`Begin`, `Then(previous, operation, outcome)`), and clock readings, model answers,
faults of API calls and map iteration orders are parameters, so every theorem holds for all of
them. Times are integers (nanoseconds), floating-point values are reals, strings are byte
sequences.

Where the code and its comments differ, the model follows the code:

- `Upsert` replaces a stored context; it does not merge (internal/events/remediations.go:85, 107-111).
- The first reported drift is the first in map order, not the most severe
  (internal/drift/live_detector.go:212-213); `Drift` therefore speaks of the whole set of results.
- An engine in the dry-run or report strategy returns no result and no error, and the incident is
  resolved all the same (internal/controller/remediationpolicy_controller.go:500-507;
  `Reconciler.ResolvedWithoutOwnPull`).
- `validFixFilePath` is documented to refuse control bytes; it refuses only NUL
  (`FixPlan.ControlBytesAreAccepted`).

Where a promise fails, the project has the failing input and the exact condition:

- `findOpenPRByHeadBranch` is documented to be safe behind a proxy that ignores the head filter,
  but it reads a single page: a pull request beyond that page is missed, and the call commits onto
  it and opens a second one (`GitHub.CrowdedPageIsMissed`). The same happens, filter or not, when
  the repository's URL spells the owner otherwise than the login (`GitHub.OtherSpellingIsMissed`).
  `GitHub.SeenExactlyWhen` says when the lookup sees the pull request; `GitHub.NeverOntoAnOpenPull`
  and `GitHub.AtMostOnePullPerBranch` say that nothing else pollutes or duplicates one.
- `ListOpenPRs` matches on the branch name alone, so the controller's dedup also accepts the pull
  request of a fork (`Reconciler.ForkPullResolvesIncident`). `Reconciler.ResolvedWithoutOwnPull`
  says exactly when an incident is resolved without a pull request of this repository, and
  `Reconciler.ResolvedOnAnothersPull` exactly when on one that was opened for another finding.
- Branch names are not unique: hyphens can be read in two ways, and long names are cut
  (`Gitops.HyphensMakeBranchesCoincide`, `Gitops.LongNamesMakeBranchesCoincide`).
  `Gitops.BranchesCoincideExactlyWhen` says exactly when two findings share one.
- The drift comparison prints values before comparing them, so different values that print alike
  go for equal (`Drift.PrintingAlikeHidesDrift`), as the lists ["a", "b"] and ["a b"] do
  (`Drift.ListsPrintAlike`); `Drift.EmptyExactlyWhenCovered` says exactly when an empty result means
  that nothing is missing.
- A printed diff can be decoded exactly when no path has a newline (`DiffText.DiffRoundTrips`);
  otherwise one file can print like two (`DiffText.NewlinePathsCollide`), and plans may contain such
  a path (`DiffText.PlansCanCollide`).
- Two unresolved incidents can share an event when the scan and the search of one `Ingest` read the
  same instant (`Correlator.SharedEventWithoutALaterReading`); `Correlator.SharedExactlyOnTheEdge`
  says exactly when.

## Model

| member | source | states |
|---|---|---|
| `Correlator.RunKeepsInv` | internal/correlator/engine.go:108-156 | in every reachable state each incident's severity rank is the maximum of its events' ranks, its events are logged events on its resource, unresolved incidents on one resource were last updated at least a window apart, and the numbers 1..incidentSeq are exactly the incidents |
| `Correlator.AtMostOneJoinable` | internal/correlator/engine.go:121-125 | at any moment at most one unresolved incident on a resource was updated within the window |
| `Correlator.IngestIsDeterministic` | internal/correlator/engine.go:121-135 | the outcome of Ingest depends neither on the order in which the incident map is visited nor on the reading taken at each incident, unless the window of the one current incident ends between its two readings |
| `Correlator.RunsAreDeterministic` | internal/correlator/engine.go:108-156 | two runs with the same calls, whose scans visit the map in orders of their own and so read the clock differently, on the same side of the current incident's window end, have the same results and states throughout |
| `Correlator.PruningIsInvisible` | internal/correlator/engine.go:240-249 | for a positive window a run of the engine and a run of one that never forgets an event return the same results and hold the same incidents at every step |
| `Correlator.NothingIsLost` | internal/correlator/engine.go:108-156 | after every Ingest of every run, if at least two events on the resource are no older than the window, each of them belongs to an incident; for a positive window and any timestamps callers supply |
| `Correlator.IncidentsContinue` | internal/correlator/engine.go:210-217 | from any point of a run to any later one no incident is dropped, loses an event or changes its identity, and a resolved one never reopens or changes |
| `Correlator.IngestAnswers` | internal/correlator/engine.go:108-156 | over any run with a positive window, by the calls and answers before it: an Ingest appends the event to the open incident on its resource that was last touched less than a window before the scan looked at it; else it answers with the next incident, made of exactly the events on the resource that are not older than a window, in order, if there are two; else with nothing |
| `Correlator.TouchesAreDecided` | internal/correlator/engine.go:126-132 | an incident exists once an Ingest answered with it, was updated by the last call that touched it, and is resolved once a ResolveIncident named it |
| `Correlator.SeveritiesAreWorstLabels` | internal/correlator/engine.go:251-274 | over any run an incident is critical if and only if one of its events is, high if and only if one is and none is critical, and so on to low; below that it is info and every event is info or carries an unknown label |
| `Correlator.SharedExactlyOnTheEdge` | internal/correlator/engine.go:219-238 | over any run without events from the future, unresolved incidents never share an event if and only if no incident is formed while another one on the resource has just gone stale at the instant that both scan and search read and has an event exactly one window old |
| `Correlator.UnresolvedIncidentsAreDisjoint` | internal/correlator/engine.go:226-238 | in particular, when every search reads a later clock than the scan before it, two unresolved incidents never share an event at any point of the run |
| `Correlator.SharedEventWithoutALaterReading` | internal/correlator/engine.go:219-228 | there is a run of events stamped by the engine, with all readings of a call at one instant, in which two unresolved incidents share an event |
| `Correlator.IncidentIdsNeverCollide` | internal/correlator/engine.go:140-142 | the printed identifiers of different incidents differ |
| `Correlator.HighestIsMaximum` | internal/correlator/engine.go:266-274 | no event ranks above the computed severity and one event has its rank |
| `CorrelatorEngine.HighestOf` | internal/correlator/engine.go:266-274 | the loop computes that severity |
| `CorrelatorEngine.Engine.constructor` | internal/correlator/engine.go:87-98 | the empty engine, with five minutes for a zero window |
| `CorrelatorEngine.Engine.Ingest` | internal/correlator/engine.go:108-173 | takes exactly the Ingest step of the specification and keeps the invariant |
| `CorrelatorEngine.Engine.PruneOldEvents` | internal/correlator/engine.go:240-249 | keeps exactly the events after the cutoff, in order |
| `CorrelatorEngine.Engine.FindRelated` | internal/correlator/engine.go:226-238 | returns exactly the events on the resource that are not before the cutoff, in order |
| `CorrelatorEngine.Engine.GetOpenIncidents` | internal/correlator/engine.go:179-190 | every unresolved incident exactly once and nothing else |
| `CorrelatorEngine.Engine.ResolveIncident` | internal/correlator/engine.go:210-217 | takes exactly the Resolve step and keeps the invariant |
| `GitHub.FindOpenPull` | internal/github/engine.go:236-264 | finds an open pull request on this repository's branch exactly when the one page it reads shows one |
| `GitHub.SeenExactlyWhen` | internal/github/engine.go:236-264 | that is so exactly when the owner is configured in the spelling of the login and either the server honours the head filter and there is one, or one is on the first page of the unfiltered list |
| `GitHub.LabelsIdentify` | internal/github/engine.go:237-262 | a head label determines owner and branch, so a fork's pull request is never mistaken for our own |
| `GitHub.CommitsLand` | internal/github/engine.go:150-162 | for any faults, the files committed are a prefix of the request in order, on usable paths, all of them on success, each marked with whether the branch backed an open pull request |
| `GitHub.CallHasEffect` | internal/github/engine.go:95-182 | for any faults, one call adds at most the head branch, commits as above, and at most one pull request, open on the head branch and opened only after every file was committed; it commits onto an open pull request, or opens a second one, only if its lookup missed the first |
| `GitHub.WorkingCallOpens` | internal/github/engine.go:150-181 | a call in which no request fails and no pull request is found commits every file in order and opens one pull request, from the head to the base branch, with the labels asked for |
| `GitHub.FailedReadStopsDeletesOnly` | internal/github/engine.go:360-420 | a failed read of the old version stops a delete, and a delete only |
| `GitHub.NeverOntoAnOpenPull` | internal/github/engine.go:95-182 | over any run of calls and outside actions no commit lands on a branch that backs an open pull request, if and only if no call committed after a lookup that missed one; every committed path passed the path check |
| `GitHub.FilterOrShortListSuffices` | internal/github/engine.go:236-264 | no lookup misses anything when the owner is spelled as the login and the server honours the filter or the list of open pull requests fits the page |
| `GitHub.AtMostOnePullPerBranch` | internal/github/engine.go:136-145 | over any run in which others leave no branch with two open pull requests, no branch ever has two, if and only if no call opens one after a lookup that missed one; the modelled server itself does not refuse a second one |
| `GitHub.FoundExactlyWhen` | internal/github/engine.go:136-145 | a call returns an existing pull request, changing nothing, exactly when its lookup finds one; any other result is a new one |
| `GitHub.OtherSpellingIsMissed` | internal/github/engine.go:237-262 | on every server and for every branch with an open pull request, an owner configured in another spelling than the login's makes a call without any failure commit onto it and open a second one |
| `GitHub.CrowdedPageIsMissed` | internal/github/engine.go:238-263 | with the filter ignored and a page full of a fork's pull requests before ours, a call without any failure commits onto our open pull request and opens a second one |
| `GitHub.ResultsNameOpenPulls` | internal/github/engine.go:141-181 | a result that is not an error names a pull request that is open on the head branch, either new or found with nothing changed |
| `GitHub.Engine.CreatePullRequest` | internal/github/engine.go:95-182 | the ordered calls with their early returns have exactly the specified effect and result |
| `GitHub.Engine.Prepare` | internal/github/engine.go:102-148 | base lookup, branch creation and, on status 422, the search for an open pull request |
| `GitHub.Engine.CommitFiles` | internal/github/engine.go:151-162 | the commit loop stops at the first failing file |
| `GitHub.ListOpenPulls` | internal/github/engine.go:273-321 | a successful listing is exactly the operator's pull requests among the first thousand open ones, in order; it succeeds exactly when every page it asks for works |
| `GitHub.SnapshotContents` | internal/github/engine.go:289-308 | with at most a thousand open, the listing is exactly the open pull requests whose branch has the prefix "zelyo-operator/" or that carry the label "zelyo-operator" |
| `Gitops.SanitizeBranchName` | internal/gitops/engine.go:153-174 | the loop computes the sanitized title |
| `Gitops.Sanitized` | internal/gitops/engine.go:153-174 | between 1 and 40 characters, all of them lower-case letters, digits or hyphens |
| `Gitops.SanitizedIsStable` | internal/gitops/engine.go:152-174 | a sanitized title is left alone |
| `Gitops.SanitizedBytes` | internal/gitops/engine.go:155-165 | a title of at most forty letters, digits, hyphens, spaces and underscores is taken over byte by byte, in lower case and with hyphens for the last two |
| `Gitops.SanitizedDrops` | internal/gitops/engine.go:155-165 | any other byte is dropped |
| `Gitops.SanitizedCuts` | internal/gitops/engine.go:166-173 | what lies behind the fortieth byte is cut, and a title without a usable byte is "untitled" |
| `Gitops.BranchName` | internal/gitops/engine.go:114-121 | every branch name carries the prefix the listing filters on and has at most 200 bytes |
| `Gitops.BranchesCoincideExactlyWhen` | internal/gitops/engine.go:114-121 | two findings share a branch if and only if their namespace-resource-title texts are equal, or both fill the room behind the prefix and agree there |
| `Gitops.BranchesOfPlainNamesDiffer` | internal/gitops/engine.go:114-121 | for hyphen-free namespaces and resources within the room, the name determines namespace, resource and sanitized title |
| `Gitops.HyphensMakeBranchesCoincide` | internal/gitops/engine.go:115 | different namespace and resource pairs with the same hyphenated text share a branch |
| `Gitops.LongNamesMakeBranchesCoincide` | internal/gitops/engine.go:116-119 | where namespace and resource alone fill the room, nothing behind them counts |
| `RepoPath.SafeRepoPath` | internal/github/engine.go:516-535 | accepts exactly the paths without backslash and without empty, "." or ".." segment, and escapes them segment by segment |
| `RepoPath.EscapingRoundTrips` | internal/github/engine.go:526-534 | percent-decoding the URL form gives the path back |
| `RepoPath.EscapingIsInjective` | internal/github/engine.go:526-534 | different paths never share a URL |
| `RepoPath.EscapingKeepsSegments` | internal/github/engine.go:526-534 | the URL form of a clean path has as many segments and is itself clean |
| `RepoPath.EscapedBytes` | internal/github/engine.go:532 | an escaped segment has only the bytes that url.PathEscape leaves alone and percent signs; the former are taken over, any other byte becomes three |
| `FixPlan.ValidFixFilePath` | internal/remediation/engine.go:592-605 | accepts exactly the clean paths of at most 512 bytes without NUL |
| `FixPlan.AcceptedContents` | internal/remediation/engine.go:525-553 | what survives validation is exactly the acceptable fixes |
| `FixPlan.ExtractFixes` | internal/remediation/engine.go:507-569 | the loop keeps, among the first twenty, exactly the acceptable fixes in order, with the analysis and risk sentinel of each exit |
| `FixPlan.StringTestIsSegmentwise` | internal/remediation/engine.go:458-477 | the string comparison of the filter decides whether the segments of the allowed path begin the segments of the fix's path |
| `FixPlan.FilterFixesToAllowedPaths` | internal/remediation/engine.go:454-479 | keeps exactly the fixes at or below an allowed path, in order; all of them when the whole repository is allowed |
| `FixPlan.GeneratePlan` | internal/remediation/engine.go:172-241 | the plan specified for an answer, or an error when no client, no answer or no fix is left |
| `FixPlan.PlansAreConfined` | internal/remediation/engine.go:172-241 | every plan has 1 to 20 fixes and a risk within 0..100, and each fix has a clean path that lies segment by segment below an allowed one unless the whole repository is allowed |
| `FixPlan.FixesComeFromTheAnswer` | internal/remediation/engine.go:522-553 | every fix of a plan is one of the first twenty of the answer, with its path, its patch, the operation it names and at most 4 KiB of its description |
| `FixPlan.AnalysisIsTheModels` | internal/remediation/engine.go:558-561 | the analysis is the model's, with its risk assessment appended |
| `FixPlan.RiskIsTheModelsOrEstimated` | internal/remediation/engine.go:233-238 | a risk score within 0..100 that comes with the answer is kept, otherwise it is estimated |
| `FixPlan.BlankPatchesAreDropped` | internal/remediation/engine.go:537-542 | a create or update is dropped exactly when its patch has nothing but blanks |
| `FixPlan.WholeRepoExactlyWhen` | internal/remediation/engine.go:455-465 | the whole repository is allowed exactly by an empty list or an entry of slashes only |
| `FixPlan.EndSlashesMakeNoDifference` | internal/remediation/engine.go:460 | a slash at either end of an allowed path makes no difference |
| `FixPlan.SafeFixesAreKept` | internal/remediation/engine.go:454-479 | no acceptable, confined fix among the first twenty is dropped |
| `FixPlan.PlannedPathsAreAccepted` | internal/github/engine.go:516-535 | a planned path without backslash passes the request builder and survives its escaping |
| `FixPlan.ControlBytesAreAccepted` | internal/remediation/engine.go:587-604 | any byte but NUL and the slash may follow in any valid path, control bytes included, against the comment |
| `DiffText.BuildFixPlanDiff` | internal/remediation/engine.go:681-691 | the nested loops print the specified text for the plan's files |
| `DiffText.BuildPresetDiff` | internal/dashboard/presets_handler.go:396-406 | its own loops print the same text as the fix-plan printer for the same files |
| `DiffText.BuildDiff` | internal/dashboard/presets.go:165-174 | its own loops print the text with the line count of lineCount |
| `DiffText.PrintedOneLine` | internal/remediation/engine.go:684-688 | the exact text for a file of one line |
| `DiffText.DiffRoundTrips` | internal/remediation/engine.go:681-691 | a decoder recovers the exact list of paths and contents from either text if and only if no path has a newline |
| `DiffText.NewlinePathsCollide` | internal/remediation/engine.go:681-691 | with newlines in paths one file prints exactly like two, so no decoder can do better |
| `DiffText.PlansCanCollide` | internal/remediation/engine.go:592-605 | such a path of moderate length passes validFixFilePath |
| `DiffText.PrintersAgreeUnlessEmpty` | internal/dashboard/presets.go:165-181 | BuildDiff prints the same text as the others if and only if no file is empty |
| `Reconciler.IncidentMatchesTargets` | internal/controller/remediationpolicy_controller.go:521-535 | true exactly when some event carries a targeted policy name with the policy's namespace, both non-empty |
| `Reconciler.ScopeByPolicy` | internal/controller/remediationpolicy_controller.go:228-234 | an incident is in scope exactly when nothing is targeted or some event comes from a targeted policy name in the policy's own namespace, neither name being empty |
| `Reconciler.FilterByLabel` | internal/controller/remediationpolicy_controller.go:236-241 | which severities pass each filter, label by label, with high as the default |
| `Reconciler.FindingSpeaksOfTheLatest` | internal/controller/remediationpolicy_controller.go:539-559 | the finding takes title, kind and rule from the event that came last, the title only if that event has a message |
| `Reconciler.ChargedExactlyWhen` | internal/controller/remediationpolicy_controller.go:290-297 | an incident is charged exactly when it is severe enough and its branch is not in the dedup map, and counts as created exactly when it is then resolved by an engine that opens pull requests |
| `Reconciler.SmoothIncidentIsFixed` | internal/remediation/engine.go:271-301 | when nothing fails for an incident, it is resolved, and unless the engine finds a pull request on its branch, every fix of its plan is committed in order with its patch as content and its operation, and one pull request is opened from its branch to main, labelled |
| `Reconciler.SmoothIncidentsAreResolved` | internal/controller/remediationpolicy_controller.go:272-298 | a cycle resolves every incident in scope and severe enough that meets no failure, whatever happens to the others, or it spends its whole budget |
| `Reconciler.Controller.SnapshotOpenPRs` | internal/controller/remediationpolicy_controller.go:372-398 | count and branch map of the listing, or nothing when the listing failed |
| `Reconciler.Controller.ApplyPlan` | internal/remediation/engine.go:244-306 | the outcome and server effect of each strategy |
| `Reconciler.Controller.RemediateIncident` | internal/controller/remediationpolicy_controller.go:415-508 | takes exactly the specified step for one incident, including both flags |
| `Reconciler.Controller.ProcessIncidents` | internal/controller/remediationpolicy_controller.go:191-301 | takes exactly one specified cycle |
| `Reconciler.ResolvedWithoutOwnPull` | internal/controller/remediationpolicy_controller.go:415-508 | an incident is resolved while no pull request of this repository backs its branch exactly when none did before, it is severe enough and not under dryRun, and the dedup map has the branch all the same or there is a plan and the strategy opens nothing |
| `Reconciler.ResolvedOnAnothersPull` | internal/controller/remediationpolicy_controller.go:434-508 | an incident is resolved while its branch is backed by pull requests for other findings only, exactly when that was so before, it is severe enough and not under dryRun, and the dedup map has the branch or there is a plan and the strategy opens nothing or the engine's lookup finds one of them |
| `Reconciler.SnapshotBranchesAreOpen` | internal/github/engine.go:289-308 | a branch in the snapshot has an open pull request, which is a fork's when it is none of this repository's |
| `Reconciler.SnapshotBranchesExactly` | internal/controller/remediationpolicy_controller.go:393-395 | a reliable snapshot has exactly the branches of the open pull requests with the operator's prefix or label |
| `Reconciler.BudgetIsWhatIsLeft` | internal/controller/remediationpolicy_controller.go:243-261 | the budget is the maximum, five by default, less the operator's open pull requests; a failed snapshot counts none and knows no branch |
| `Reconciler.ForkPullResolvesIncident` | internal/controller/remediationpolicy_controller.go:434-451 | with only a fork's pull request of that branch name open, a cycle resolves the incident and opens nothing |
| `Reconciler.CycleIsJustified` | internal/controller/remediationpolicy_controller.go:243-300 | a cycle touches an incident only to resolve one that is in scope, severe enough and not under dryRun, and whose branch was in the snapshot, or backs a pull request of this repository at the end, or the strategy opens none; a snapshot branch had a pull request of this repository or of a fork; the cycle generates at most its budget of plans, and every commit it makes has path, content and operation as a model wrote them in one of its answers, is on a clean, confined path and, when its lookups miss nothing and the owner is spelled as the login, never onto an open pull request |
| `Reconciler.DryRunChangesNothing` | internal/controller/remediationpolicy_controller.go:447-479 | a dryRun cycle changes neither server nor correlator |
| `Reconciler.SnapshotCounts` | internal/github/engine.go:266-321 | a listing counts every open pull request of the operator when at most a thousand are open, and otherwise undercounts |
| `Reconciler.OpenPullsStayWithinAllowance` | internal/controller/remediationpolicy_controller.go:243-300 | over any run by any policies, the operator's open pull requests stay within the initial count, raised to a policy's maximum by each reliable cycle and increased by at most that maximum by each cycle whose snapshot failed or was cut short; cycles without an engine change nothing |
| `Reconciler.OpenPullsNeverExceedTheCap` | internal/controller/remediationpolicy_controller.go:243-300 | with reliable snapshots in every cycle that has an engine they never exceed the larger of the initial count and the largest maximum |
| `Reconciler.OperatorPullsAreCounted` | internal/gitops/engine.go:114-121 | over any run every pull request the operator opened is one the listing attributes to it, and with lookups that miss nothing no commit lands on an open pull request |
| `EventBus.NothingPanics` | internal/events/events.go:145-174 | under every interleaving nothing is sent on a closed channel, no channel is closed twice or holds more than 64 events, and the buffer is exactly the last events appended, up to its capacity |
| `EventBus.DeliveryIsOrderedAndOnce` | internal/events/events.go:113-156 | a subscriber gets only published events, each publication at most once, and one publisher's events in publish order |
| `EventBus.FinishedPublishIsAccountedFor` | internal/events/events.go:148-155 | when a publisher is done every subscriber has the event or had a full queue |
| `EventBus.DroppedMeansFull` | internal/events/events.go:148-155 | over any run, whatever a channel dropped was sent to it at a moment when its queue was full |
| `EventBus.GeneratedIdsNeverCollide` | internal/events/events.go:129-132 | generated identifiers with different sequence numbers differ, whatever the clock says |
| `EventBus.SealingKeepsTheEvent` | internal/events/events.go:114-132 | a publication keeps the event as given, except that a missing time is the reading and a missing identifier is generated with the next number |
| `EventBus.MatchingContents` | internal/events/events.go:189-192 | the filtered buffer has exactly the events of the stage, or all of them for an empty stage |
| `EventBus.Bus.constructor` | internal/events/events.go:74-83 | the starting state, with capacity 500 when none is given |
| `EventBus.Bus.Append` | internal/events/events.go:128-143 | takes the Append step and keeps the invariant, in particular the buffer is the tail of all appended events |
| `EventBus.Bus.Send` | internal/events/events.go:149-154 | takes the Send step, which never meets a closed channel |
| `EventBus.Bus.Subscribe` | internal/events/events.go:160-164 | takes the Subscribe step and keeps the invariant |
| `EventBus.Bus.Cancel` | internal/events/events.go:166-173 | takes the Cancel step, a second one doing nothing, and keeps the invariant |
| `EventBus.Bus.Recent` | internal/events/events.go:181-204 | the newest-first tail of the stage-filtered buffer, of exactly the limit or all matches |
| `RemediationStore.SizeIsBounded` | internal/events/remediations.go:129-145 | over any run a positive capacity is never exceeded |
| `RemediationStore.StampsAreFinal` | internal/events/remediations.go:218-240 | without a new Upsert of its context a resolved stamp is never changed |
| `RemediationStore.ResolvingResolves` | internal/events/remediations.go:221-243 | MarkResolved on a non-empty key resolves every finding with that key in every context, with the new stamp unless it was resolved already, notes the key exactly on the contexts that carry it, and changes nothing else |
| `RemediationStore.MergingNotes` | internal/events/remediations.go:209-215 | MarkMerged notes the time on the context of that URL and changes nothing else |
| `RemediationStore.UpsertingStores` | internal/events/remediations.go:88-125 | the given context is stored under its URL, created when it says or else now; everything else is kept or evicted, and nothing is evicted while there is room |
| `RemediationStore.UpsertingEvictsTheOldest` | internal/events/remediations.go:129-145 | whatever an Upsert evicts is no newer than anything that stays, and exactly the capacity stays |
| `RemediationStore.IndexesAnswer` | internal/events/remediations.go:114-123 | the scan index lists exactly the keys whose context has that scan, the resource index those with a finding on that resource |
| `RemediationStore.IndexAgreesWithScan` | internal/events/remediations.go:222-229 | visiting the keys listed in the resource index stamps exactly the contexts a full scan would |
| `RemediationStore.DropOldestIsEviction` | internal/events/remediations.go:133-144 | dropping the first keys by age leaves exactly the capacity, and no survivor is older than an evicted entry |
| `RemediationStore.Store.Upsert` | internal/events/remediations.go:88-125 | replaces the context, evicts, and leaves both indexes exact: no stale, missing, duplicate or empty entry |
| `RemediationStore.Store.EvictIfOverCapacity` | internal/events/remediations.go:129-145 | evicts the oldest down to capacity and keeps both indexes exact |
| `RemediationStore.Store.RemoveLocked` | internal/events/remediations.go:148-171 | removes exactly the key and keeps both indexes exact, even with repeated resource keys |
| `RemediationStore.Store.MarkResolved` | internal/events/remediations.go:221-243 | equals the full scan for a non-empty key, resolving every finding with it as above; does nothing for an empty one |
| `RemediationStore.Store.MarkMerged` | internal/events/remediations.go:209-215 | stamps the matching context only |
| `RemediationStore.Store.List` | internal/events/remediations.go:194-207 | distinct stored contexts newest first; with a positive limit none of the omitted ones is newer than a listed one |
| `CircuitBreaker.StateIsDecidedByHistory` | internal/llm/circuit_breaker.go:57-110 | closed exactly while the trailing run of recorded failures is below the effective threshold; a probe in flight exactly when half open |
| `CircuitBreaker.HalfOpenAdmitsNobody` | internal/llm/circuit_breaker.go:76-82 | the branch that would start a second probe is unreachable |
| `CircuitBreaker.AnswersAreDecidedByHistory` | internal/llm/circuit_breaker.go:53-85 | by the recorded calls alone: outside an outage every request is admitted; during one, the first more than the reset timeout after the latest failure, and then none until some result comes |
| `CircuitBreaker.HalfOpenExactlyWhileProbing` | internal/llm/circuit_breaker.go:64-67 | half open exactly while a probe is out |
| `CircuitBreaker.BreakerRecovers` | internal/llm/circuit_breaker.go:64-109 | a late enough request is let through, and its success closes the breaker |
| `CircuitBreaker.UnsetThresholdIsFive` | internal/llm/circuit_breaker.go:96-103 | without a threshold the breaker is closed exactly below five failures in a row |
| `CircuitBreaker.ProbesAreSpaced` | internal/llm/circuit_breaker.go:53-110 | for any interleaving with late results the k-th request admitted during one outage comes more than k reset timeouts after the failure that opened it |
| `CircuitBreaker.Client.AllowRequest` | internal/llm/circuit_breaker.go:53-85 | takes the Request step and answers as the history foretells |
| `CircuitBreaker.Client.RecordResult` | internal/llm/circuit_breaker.go:87-110 | takes the Result step of the history |
| `CircuitBreaker.Client.Complete` | internal/llm/circuit_breaker.go:42-51 | the provider is contacted exactly when the breaker admits the request |
| `CircuitBreaker.FallbackClient.Complete` | internal/llm/fallback.go:33-56 | the fallback is asked exactly when the primary refused in the open state, never are both providers contacted, and the error still says "breaker open" exactly when both refused in the open state |
| `TokenBudget.OvershootIsBounded` | internal/llm/budget.go:56-119 | with at most k granted requests outstanding, each estimating at most e and recording no more than it estimated, no limited window exceeds its limit by more than (k-1)e |
| `TokenBudget.OvershootIsReached` | internal/llm/budget.go:56-95 | for every k and e some history overshoots by exactly that much |
| `TokenBudget.UsageIsDecidedByHistory` | internal/llm/budget.go:105-119 | by the calls alone: a window's usage is what was recorded since the last call after the reset time then in force, and its reset time is that call's reading plus an hour, a day or a calendar month |
| `TokenBudget.ExpiredWindowHasRoom` | internal/llm/budget.go:107-118 | after its reset time a window refuses no estimate within its limit |
| `TokenBudget.GrantedExactlyWhen` | internal/llm/budget.go:56-76 | in any history of requests a check is granted exactly when every limited window has room, counting from its last renewal |
| `TokenBudget.AlertIsExact` | internal/llm/budget.go:121-129 | for a positive limit the rounded test fires exactly when used·100 >= threshold·limit, and otherwise never |
| `TokenBudget.Tokens.CheckBudget` | internal/llm/budget.go:56-76 | grants exactly when every limited window has room, counting from its last renewal |
| `TokenBudget.Tokens.Record` | internal/llm/budget.go:79-95 | the windows are those the calls decide and, when an alert function is set, it is called for them in order |
| `Anomaly.SelfInclusionBound` | internal/anomaly/detector.go:96-104 | n(value-mean)^2 <= (n-1)·sum of squared distances, for every window whose last value is the observed one |
| `Anomaly.ExceedingNeedsRoom` | internal/anomaly/detector.go:96-133 | a deviation beyond c needs (n-1)^2 > c^2 n |
| `Anomaly.SpikeExceeds` | internal/anomaly/detector.go:120-133 | whenever there is that room some window attains it |
| `Anomaly.CriticalNeedsThirtyEight` | internal/anomaly/detector.go:120-128 | a window of n values whose last one lies more than six standard deviations from the mean exists if and only if n >= 38 |
| `Anomaly.CriticalReportsNeedThirtyEight` | internal/anomaly/detector.go:80-146 | at the default sensitivity some history of observations is reported as critical from a window of n values if and only if 38 <= n <= 1000, with the latest standard deviation exact |
| `Anomaly.BaselineIsHistory` | internal/anomaly/detector.go:84-110 | after any observations the baseline learns until the first one plus the learning period, counts all of them, keeps the latest thousand, and its extremes are those of everything observed |
| `Anomaly.NothingReportedTooEarly` | internal/anomaly/detector.go:112-128 | nothing is reported before the first observation plus the learning period, nor with too few values, nor as critical at the default sensitivity with fewer than 38 |
| `Anomaly.ReportsNeedRoom` | internal/anomaly/detector.go:120-133 | a report at sensitivity S needs (n-1)^2 >= S^2 n |
| `Anomaly.MeanOf` | internal/anomaly/detector.go:166-175 | the accumulator loop computes the mean |
| `Anomaly.VarianceOf` | internal/anomaly/detector.go:177-187 | the accumulator loop computes the sample variance |
| `Anomaly.Detector.Observe` | internal/anomaly/detector.go:80-146 | the whole new baseline, and a finding exactly when learning is over, there are enough values, they vary and this one lies at least the sensitivity above or below their mean, graded by twice and one and a half times the sensitivity |
| `Notifier.AtMostTwiceTheLimit` | internal/notifier/notifier.go:120-136 | for a positive limit any one-minute interval contains at most twice the limit of allowed sends |
| `Notifier.AdmittedExactlyWhen` | internal/notifier/notifier.go:120-136 | by its calls alone: a limiter admits exactly when there is no limit, its window is more than a minute old, or fewer sends than the limit passed in it |
| `Notifier.SilenceReopens` | internal/notifier/notifier.go:125-128 | after a minute of silence a limiter always admits |
| `Notifier.WantedByLabel` | internal/notifier/notifier.go:354-356 | which severities reach a channel with each minimum, label by label |
| `Notifier.CacheIsHistory` | internal/notifier/notifier.go:196-212 | after any history of calls a key is still in the swept cache exactly when it was accepted within the TTL, so sweeps are unobservable |
| `Notifier.DuplicateMeansAcceptedRecently` | internal/notifier/notifier.go:196-212 | a key is refused exactly when it was accepted within the TTL |
| `Notifier.Notifier.IsDuplicate` | internal/notifier/notifier.go:196-212 | the sweeping loop decides exactly that |
| `Notifier.Notifier.Allow` | internal/notifier/notifier.go:120-136 | takes one call of the limiter's history |
| `Notifier.PassingContents` | internal/notifier/notifier.go:175-188 | the channels that pass are those that want the severity and whose limiter admits a send after the earlier channels of that name, each once and by increasing index |
| `Notifier.Notifier.Send` | internal/notifier/notifier.go:159-194 | a duplicate goes nowhere; otherwise exactly the channels that pass, each at a clock reading of its own, are tried, in order |
| `Drift.ShouldIgnoreField` | internal/drift/live_detector.go:279-286 | true exactly when some ignore entry is a prefix |
| `Drift.IgnoredBelow` | internal/drift/live_detector.go:227-229 | an ignored field ignores everything below it |
| `Drift.PathsConcatenate` | internal/drift/live_detector.go:224 | a printed path is read key by key, each with a dot before it |
| `Drift.DiffObjects` | internal/drift/live_detector.go:220-276 | in any map order, every mismatch at a path that is not ignored is reported exactly once, with its path, the desired value and the live value or "<missing>", and nothing else is |
| `Drift.PruningIsFiltering` | internal/drift/live_detector.go:226-229 | as multisets, the pruned results are the unpruned ones filtered by ignored path |
| `Drift.EmptyExactlyWhenCovered` | internal/drift/live_detector.go:220-276 | for all objects and any printing, the live object has every desired value outside the ignored paths if and only if nothing is reported and no two different values, not both objects, that print alike meet at a path that is not ignored |
| `Drift.PrintingAlikeHidesDrift` | internal/drift/live_detector.go:259 | any two different values that print alike, not both objects, make a difference that goes unreported |
| `Drift.ListsPrintAlike` | internal/drift/live_detector.go:259 | under the formatting of lists, a list of two values goes for the list of one value that prints as both with a space between |

## Left out

- HTTP transport, JSON, YAML and base64 coding, authentication: every API call is an oracle that may work, be refused or lose its response; a model's answer is given decoded or not at all.
- Scanners, the other controllers, custom resource types, metrics, status writes, dashboard handlers, compliance and cost reports: plumbing or single-branch checks.
- The text of prompts, logs, titles and bodies of pull requests, except where an identifier must be unique; conformance of the printed diff to the unified format.
- extractJSON and parseRepoURL: which part of a text is decoded, and which repository a URL names, are inputs; a repository without owner or name is treated as having no engine.
- 64-bit and 32-bit overflow of counters, times and budgets: integers are unbounded. The custom resource validation keeps maxConcurrentPRs positive.
- Anomaly.CriticalReportsNeedThirtyEight: asks an exact square root of the latest observation only; the standard deviations of earlier ones take no part in a report, and the witness history leaves them open.
- Rounding of floating-point statistics: `Anomaly` uses reals, and the square root behind a report is a parameter constrained to be exact.
- Unicode white space in strings.TrimSpace: `FixPlan.Blank` knows the ASCII white space only.
- Ingesting the same event pointer twice, and changing an event after ingesting it: events are values with an identity.
- Events ingested, and other actors touching the server, while a remediation cycle or a CreatePullRequest call is under way: they act between calls. The event bus, in contrast, is interleaved step by step.
- The order of waiting for the bus's lock: every order a read/write lock allows is covered, and some it does not.
- Reconciler.Controller.ProcessIncidents: takes the incidents GetOpenIncidents returned as an argument, and resolves through the step `CorrelatorEngine.Engine.ResolveIncident` is proved to take rather than through that object.
- Reconciler.Controller.ApplyPlan: does not model the dashboard's record of an opened pull request; `RemediationStore.Store.Upsert` and `DiffText.BuildFixPlanDiff` cover its parts.
- Aliasing and deep copies (copyIncident, copyCtx, event metadata): contexts, incidents and events are values, so a returned copy cannot alias the stored one.
- The choice of the one drift that compareResource returns, and drift severities: map order decides.
- Notifier delivery errors, and the dedup key built from title and resource when none is given: `Notifier.Notifier.Send` takes the key and returns the channels that are tried.
- RemediationStore.Store.Get: returns the stored value; left without a row because it only looks up.
