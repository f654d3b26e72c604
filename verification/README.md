# AgentLink: the protocols between the awaits

AgentLink is an agent harness for VS Code. Most of it is input and output; underneath sit a dozen
small protocols whose correctness depends on what may happen while a method is suspended. This
project models those protocols in Dafny 4.11 and proves what they promise. `dafny verify
dfyconfig.toml` checks all of it.

Each module follows one source component. An object whose methods update its fields is a class, and
each of its methods is proved to do what a function of its state says; the theorems about whole runs
are then lemmas about those functions. What a single call answers, and when it refuses, is stated
beside that without those functions' own words, mostly in the modules named after their answers.
Asynchronous code is cut at its awaits: a step is everything that runs between two of them, steps of
different calls interleave in any order, and a suspended call may find everything changed when it
goes on.

* **ToolScheduler** — one batch of tool calls of a model turn: ordered barriers, parallel batches, permitted
  overlaps, aborts and turn boundaries. The method is the scheduler, its awaits complete calls in any order;
  the log it returns obeys a law, and lemmas say what the law means.
* **ProviderLoop** — the request loop of a turn, with all its budgets, and why it ends.
* **RetryText** — hiding the text a retried stream repeats, however it is cut into chunks.
* **RequestAssembly** — splicing mode instructions and memory into the copy of the history that is sent.
* **PluginRegistry, PluginLock, PluginHistory, PluginAnswers, PluginRuns, PluginProgress, PluginHosts,
  PluginPackages, PluginOperations, PluginSequential, PluginDispose, PluginInstall, PluginRemoval** — several windows sharing
  one plugin registry through a lock file, revision checks, live-host markers and deferred deletion of
  packages. A step is one await: the lock file is created, written and closed in separate steps, and any of
  them may fail or be cut off by a crash.
* **PaneAuthority, PanelRegistry, PaneAnswers, PanelHost, PanelOutcomes** — the lease protocol that decides
  whether a chat tab is driven from the sidebar or from its own editor panel.
* **TabController, TabAnswers, TabRuns, LayoutRestore, LayoutAnswers, TabPersistence** — the tab layout, its
  undo after a failed save, its restoration from arbitrary saved data, and whole runs across a reload.
* **HubRegistry, HubAnswers** — reference-counted generations of MCP hubs.
* **TraceRecorder, TraceAnswers** — the write-behind buffer of the activity trace.
* **FleetFences, FleetBlocks, FleetEnvelope, FleetAnswers, FleetParse, FleetObjects** — finding and
  normalizing a result envelope in the final message of a background agent.
* **CallTracker** — cancelling a tool call with everything it started.

## Where the code does less than it seems to

These properties hold only under a condition; the condition is part of the theorem.

* Removing the lock file reads its record and then unlinks the file. As long as no unlink comes late, that is
  after another process has replaced the file that was read, a run is one of the registry with removal in one step,
  so mutual exclusion and everything built on it hold (`PluginRemoval.InTimeRunRefines`). A late unlink takes the
  lock away from the operation inside, and a second one enters (`PluginRemoval.LateUnlinkBreaks`). That can happen
  whenever two operations wait for the lock of a dead owner (`PluginRemoval.TwoWaitersCanBothEnter`).
* An operation that waits for the registry lock can get it, without any crash or failure, if and only if
  the run has left no orphan (`PluginProgress.WaiterProceedsIff`). An orphan is a lock file that
  belongs to no operation and whose owner is not known to be dead. The steps that leave one are exactly
  these (`PluginProgress.OrphanStepIff`): a crash between creating the lock file and writing its
  record, a failure while the file is written, synchronized or closed, and a failure to remove it. An
  orphan without a record blocks for good, and any other as long as its owner lives
  (`PluginProgress.OrphanBlocks`); `PluginProgress.CrashAfterCreationBlocksForGood` is a run of two windows.
* A waiting operation that reads the lock file fails when the file has no record yet. Other than on an orphan that
  happens exactly while one living operation has created the file and not yet written it
  (`PluginProgress.BlankWithoutOrphanIff`), and it disturbs neither that operation nor the file
  (`PluginProgress.FailedWaiterDoesNoHarm`).
* A package named by the registry is on disk in every orderly run
  (`PluginPackages.ReferencedPackagesAreOnDisk`). Orderly means that no install that begins is reckless and no
  disposal that begins is risky. An install is reckless when its process has not lost the lock file to an orphan and
  either nothing protects the process, that is, it is no host and has no marker that will stay in the
  registry, or a registry it may still read would give it a row that names a package which is gone. On a
  host no install is reckless (`PluginPackages.HostsMayInstall`), but the code does not refuse one elsewhere:
  `PluginInstall.RecklessIsReachable` begins one right after a disposal. Disposing the host of a process is
  risky when an install of that process may still read the registry (it has an attempt left and does not
  hold the lock with the last generation in hand) and nothing else protects it: the process has no other
  marker that would stay, and has not lost the lock file to an orphan;
  `PluginDispose.RiskyIsReachable` is an example. Both conditions are exact. From every state of an orderly
  run, an install that begins can lead to a row without its package if and only if it is reckless
  (`PluginInstall.InstallBreaksIffReckless`), a disposal if and only if it is risky
  (`PluginDispose.DisposalBreaksIffRisky`), and no other step can (`PluginInstall.OrderlyIsExact`).
* "At most 8 request and 5 stream retries between two successes" is a budget per model selection,
  because adopting a new selection restores it (`ProviderLoop.RetriesPerSelection`). The bound
  with one factor per selection is met exactly (`ProviderLoop.RetriesRestartWithEachSelection`).
* The request loop ends when `maxApiTurns` is positive; without it an environment can keep it going
  (`ProviderLoop.WithoutATurnLimitItNeedNotEnd`), but only by tool rounds and new selections: the number of
  requests is bounded by a function of these two (`ProviderLoop.OnlyToolRoundsGoOn`).
* No two tabs show one session, except that `createTab("")` does not look for an open tab: sessions stay
  apart over a whole run exactly when it never opens the empty session while a tab shows it
  (`TabPersistence.SessionsStayApartIff`).
* Every layout of a run is restored as it was saved exactly when no call gives a tab the empty string as its
  session or identifier (`TabPersistence.LayoutsSurviveReloadIff`).
* `restoreLayout` reports every repair except a session field that names no session
  (`LayoutRestore.ReportsIff`, `LayoutRestore.UnreportedMeansUnchangedIff`).
* An accepted review envelope meets the strict schema unless a finding's severity is the name of a
  property every object inherits, `constructor` or `__proto__`
  (`FleetEnvelope.FindingsAreStrictIff`). Patches and verifications always meet it. A severity that cannot be
  converted to text rejects the whole review (`FleetEnvelope.SeverityThatThrowsRejects`).
* Lines survive joining and splitting exactly when none holds a line feed and only the last may end in
  a carriage return (`FleetFences.SplitInvertsJoinIff`).

## Assumptions

* A dead process, identified by process id and start fingerprint, never comes back.
* The modules on the plugin registry other than PluginRemoval take the removal of a lock file as one step; PluginRemoval
  says exactly which runs of the two-step removal that covers.
* The tool runtime's answers to `isParallelSafe` and `canOverlapLaterCall` do not change within a batch.
* A write of trace events either happens and is forgotten as in flight in one step, or leaves nothing; a write of a
  summary that fails leaves the file as it was.
* Identifiers drawn for tabs are never drawn again, as for random UUIDs.

## Model

| member | source | states |
|---|---|---|
| `ToolScheduler.ExecuteToolCalls` | src/agent/AgentEngine.ts:3057-3207 | for any completion order and any abort: the log is lawful; there is one result per call in call order, for that call; a call that ran has what it returned, and once such a result of an ordered call switches the mode or sets the final status every later slot holds the skip for that mode or status; only an abort leaves a slot with the aborted result |
| `ToolScheduler.RunParallelBatch` | src/agent/AgentEngine.ts:3114-3152 | the run of parallel-safe calls at the head starts together, and exactly its permitted calls are left pending |
| `ToolScheduler.LegalAt` | src/agent/AgentEngine.ts:3080-3176 | the law holds at every position of a log |
| `ToolScheduler.FoldMeaning` | src/agent/AgentEngine.ts:3064-3074 | what the monitor counts is exactly what the log contains: started, running and reported calls, abort and boundary |
| `ToolScheduler.OverlapIsPermitted` | src/agent/AgentEngine.ts:3080-3157 | when a call starts, every unfinished earlier call is parallel-safe and, if the call is ordered, one the runtime permits to overlap it, however many batches ago it was left pending |
| `ToolScheduler.StartsInModelOrder` | src/agent/AgentEngine.ts:3080-3157 | calls start in model order without gaps |
| `ToolScheduler.OrderedCallsRunAlone` | src/agent/AgentEngine.ts:3102-3157 | nothing starts between the start and the report of an ordered call |
| `ToolScheduler.EventsHappenOnce` | src/agent/AgentEngine.ts:3064-3074 | no call starts twice and no slot is reported twice |
| `ToolScheduler.NothingStartsAfterAbort` | src/agent/AgentEngine.ts:3080-3157 | after an abort no call starts |
| `ToolScheduler.TurnBoundaryStopsTheBatch` | src/agent/AgentEngine.ts:3158-3176 | after the result of an ordered call that ends the turn nothing starts, and later calls are reported as skipped because of it; the next four rows say which results those are |
| `ToolScheduler.ModeSwitchStopsTheBatch` | src/agent/AgentEngine.ts:713-720 | after an ordered `switch_mode` that reports ok nothing starts, and every later call that never ran is reported as skipped because of its mode |
| `ToolScheduler.AnsweredModeStopsTheBatch` | src/agent/AgentEngine.ts:721-732 | the same after an ordered `ask_user` whose answer is mapped to a mode that is not empty |
| `ToolScheduler.FinalStatusStopsTheBatch` | src/agent/AgentEngine.ts:3158-3176 | the same after an ordered `set_task_status`, whatever it returns |
| `ToolScheduler.OtherResultsAreNoBoundary` | src/agent/AgentEngine.ts:713-732 | after any other result of an ordered call, such as a `switch_mode` that failed or has no payload, the next call may start |
| `ToolScheduler.WaitsOnlyWhereItMust` | src/agent/AgentEngine.ts:3080-3152 | before a start the scheduler waits only for an ordered call, or for a call of an earlier run that is not permitted to overlap the one that starts |
| `ToolScheduler.ParallelRunsStartTogether` | src/agent/AgentEngine.ts:3114-3152 | nothing is awaited between the starts of two neighbouring parallel-safe calls |
| `ProviderLoop.Run` | src/agent/AgentEngine.ts:1141-2377 | with a positive turn limit and finitely many model selections the loop ends for every sequence of answers, errors and aborts, within an explicit number of requests |
| `ProviderLoop.HandleFailure` | src/agent/AgentEngine.ts:1863-2061 | a recovery that continues the run had budget left and charges exactly its own budget, once; a failure that ends the run charges at most one |
| `ProviderLoop.RecoversIff` | src/agent/AgentEngine.ts:1863-2061 | after a failed request the loop goes on exactly with the first recovery that is meant for that failure and has budget left, unless an abort is seen before it is through |
| `ProviderLoop.ThrownIff` | src/agent/AgentEngine.ts:2029-2061 | without an abort a failure is thrown if and only if no recovery applies |
| `ProviderLoop.ResponseLeadsIff` | src/agent/AgentEngine.ts:2067-2377 | for each reason to go on and each way to end after a completed response, the answers, budgets and aborts that lead there, in both directions |
| `ProviderLoop.ResponseBudgets` | src/agent/AgentEngine.ts:2067-2377 | what each reason to go on after a completed response leaves of every budget |
| `ProviderLoop.AdoptionRestores` | src/agent/AgentEngine.ts:1182-1195 | a new selection restores the two retries, the refreshes and the signature repair, and no other budget; an unchanged one restores nothing |
| `ProviderLoop.AbortAtTheHead` | src/agent/AgentEngine.ts:1177-1195 | an abort seen at the head of a round ends the run and charges nothing |
| `ProviderLoop.SuccessIsPaid` | src/agent/AgentEngine.ts:2067-2377 | a completed response refills both retries and no recovery budget; going on after it costs one use of exactly one budget within its limit, or a turn |
| `ProviderLoop.StepLowersMeasure` | src/agent/AgentEngine.ts:1177-2377 | every turn of the loop that leads to another request lowers one measure over all budgets |
| `ProviderLoop.FailureLowersMeasure` | src/agent/AgentEngine.ts:1863-2061 | every recovery from a failure uses up its own budget, or the request was superseded by a new selection |
| `ProviderLoop.ReplyUsesAResponse` | src/agent/AgentEngine.ts:2209-2377 | an empty response, a wrap-up or a tool round that continues the loop uses up turns, wrap-ups or empty-response retries |
| `ProviderLoop.SuccessUsesAResponse` | src/agent/AgentEngine.ts:2067-2377 | the same for every completed response, pauses included |
| `ProviderLoop.WithoutATurnLimitItNeedNotEnd` | src/agent/AgentEngine.ts:1141-1142 | without a turn limit the loop can make any number of tool rounds |
| `ProviderLoop.OnlyToolRoundsGoOn` | src/agent/AgentEngine.ts:1141-2377 | with or without a turn limit, a run that still goes on has made fewer requests than an explicit function of its tool rounds and model selections |
| `ProviderLoop.StepLowersToolMeasure` | src/agent/AgentEngine.ts:1177-2377 | every turn that leads to another request lowers a measure that only a tool round or a new selection can pay for |
| `ProviderLoop.RetriesPerSelection` | src/agent/AgentEngine.ts:2015-2061 | without a success in between: at most 8 request retries, 5 stream retries and 3 credential refreshes for each model selection the loop works under |
| `ProviderLoop.RetriesRestartWithEachSelection` | src/agent/AgentEngine.ts:1182-1195 | any number of request retries is possible without a success, with one new selection for every eight |
| `ProviderLoop.ToolRoundsAreLimited` | src/agent/AgentEngine.ts:2209-2246 | fewer than `maxApiTurns` rounds of a run execute tools |
| `RetryText.MatchLength` | src/agent/AgentEngine.ts:1793-1806 | the inner loop computes the length of the longest common prefix |
| `RetryText.ReceiveChunk` | src/agent/AgentEngine.ts:1786-1815 | one chunk shows exactly its part beyond what the attempt has repeated so far |
| `RetryText.Receive` | src/agent/AgentEngine.ts:1527-1529 | an attempt with text T after shown text V leaves V and what T has beyond its common prefix with V, for every way of cutting T into chunks, and yields exactly the difference |
| `RetryText.RetryIsSeamlessIff` | src/agent/AgentEngine.ts:1786-1815 | the user sees exactly the new text if and only if it begins with what was shown, and nothing new if and only if it repeats a beginning of it |
| `RetryText.LongestAttemptIsShown` | src/agent/AgentEngine.ts:2067-2070 | if all attempts are prefixes of one answer the user sees exactly the longest |
| `RequestAssembly.AgentSession.ApplyModeInstructionAnchor` | src/agent/AgentSession.ts:1129-1147 | the new block is anchored at the end of the history and replaces an anchor no user turn followed |
| `RequestAssembly.AgentSession.ReplaceMessages` | src/agent/AgentSession.ts:1088-1107 | whatever the rewritten history is, the current block stands directly before its first user turn, or at its end, and no other block is shown |
| `RequestAssembly.AgentSession.BuildModeInstructionInsertions` | src/agent/AgentSession.ts:1156-1184 | insertions ascend, stand at turn boundaries, and are exactly the blocks of the last anchor pointing to each place |
| `RequestAssembly.OrdinalIndex` | src/agent/AgentSession.ts:1165-1171 | entry n is where user turn n begins |
| `RequestAssembly.PointsToOnePlace` | src/agent/AgentSession.ts:1174-1177 | an anchor points to one place only |
| `RequestAssembly.SwitchPrecedesTheNextTurn` | src/agent/AgentSession.ts:1149-1155 | however the history grows, the block of the latest switch stays directly before the next user turn |
| `RequestAssembly.BuildProviderMessages` | src/agent/AgentEngine.ts:321-432 | splicing from the last insertion to the first puts every message and every block where it belongs |
| `RequestAssembly.FindSourceIndex` | src/agent/AgentEngine.ts:449-461 | memory is anchored at the turn's user message if it is still there, else at the last genuine user message, else at the start |
| `RequestAssembly.SourceIndexAnswers` | src/agent/AgentEngine.ts:449-461 | the index is that of the turn's own message where it first occurs; else that of the last user message that carries no tool result; else 0 |
| `RequestAssembly.InsertMemory` | src/agent/AgentEngine.ts:442-469 | memory lands directly before its anchor and only shifts what follows |
| `RequestAssembly.CarriersStayAdjacent` | src/agent/AgentSession.ts:1149-1155 | every tool-result carrier still directly follows the message it followed in the history |
| `RequestAssembly.AssembleRequest` | src/agent/AgentEngine.ts:1549-1598 | erasing what was inserted gives back the history in order; message k stands at k plus the insertions at or before it; blocks, memory and nudge stand where they should; no carrier is separated from its message |
| `PluginLock.StepKeepsLockInv` | src/agent/AgentPluginStore.ts:550-612 | every step of every process keeps: at most one operation creates or holds the lock, it is alive, and the lock file is its own, blank until the record is written |
| `PluginLock.BreakKeepsLockInv` | src/agent/AgentPluginStore.ts:664-676 | removing a stale lock by token never removes the lock of a living operation that creates or holds it |
| `PluginProgress.OrphanStepIff` | src/agent/AgentPluginStore.ts:563-611 | a step leaves a lock file that belongs to no operation and cannot be broken exactly when it fails after the file is created, fails to remove it, or crashes its creator before the record is written; only the death of a recorded owner ends that state |
| `PluginProgress.OrphanedIffByRun` | src/agent/AgentPluginStore.ts:563-611 | the same over whole runs |
| `PluginProgress.OrphanBlocks` | src/agent/AgentPluginStore.ts:574-581 | while an orphan lasts nobody enters the critical section: for good if it has no record, else as long as its owner lives |
| `PluginProgress.CrashAfterCreationBlocksForGood` | src/agent/AgentPluginStore.ts:565-567 | a run of two windows in which a crash right after the creation of the lock file blocks the second for good |
| `PluginRuns.StaleIffDead` | src/agent/AgentPluginStore.ts:589-592 | a recorded owner passes the stale test exactly when it is dead |
| `PluginProgress.DeadOwnersLockIsTaken` | src/agent/AgentPluginStore.ts:563-605 | a waiting operation that finds the record of a dead owner gets the lock by steps that involve no failure |
| `PluginRuns.OccupantFinishes` | src/agent/AgentPluginStore.ts:563-611 | whichever operation creates or holds the lock can finish its work without a failure, and releases it |
| `PluginProgress.WaiterProceedsIff` | src/agent/AgentPluginStore.ts:550-612 | after any run, a waiting operation can get the lock by steps none of which is a crash or failure if and only if the run has left no orphan |
| `PluginProgress.BlankWithoutOrphanIff` | src/agent/AgentPluginStore.ts:563-581 | after any run the lock file has no record and is no orphan if and only if one living operation has created it and has not written, failed or crashed since |
| `PluginProgress.FailedWaiterDoesNoHarm` | src/agent/AgentPluginStore.ts:574-581 | a waiting operation can neither read nor break such a file, and its failure leaves the file with its creator, who can still write |
| `PluginHistory.MutualExclusion` | src/agent/AgentPluginStore.ts:550-612 | in every run whose removals of the lock file are one step at most one live process is inside the lock |
| `PluginRemoval.InTimeRunRefines` | src/agent/AgentPluginStore.ts:664-676 | a run with two-step removals, none of whose unlinks comes late, is a run with one-step removals to the same state |
| `PluginRemoval.InTimeReachesIff` | src/agent/AgentPluginStore.ts:664-676 | a state is reached by a run with two-step removals and no late unlink if and only if it is reached by a run with one-step removals |
| `PluginRemoval.LateIff` | src/agent/AgentPluginStore.ts:664-676 | an unlink is late exactly if there is a lock file by then and it is not the one its operation has read |
| `PluginRemoval.TwoHoldersNeedALateUnlink` | src/agent/AgentPluginStore.ts:664-676 | two operations are inside at once only in a run in which an unlink has come late |
| `PluginRemoval.LateUnlinkBreaks` | src/agent/AgentPluginStore.ts:593-596 | when a waiting operation is about to unlink while another is inside, both are inside four steps later |
| `PluginRemoval.TwoWaitersCanBothEnter` | src/agent/AgentPluginStore.ts:563-605 | whenever two operations wait for the lock file of a dead owner, a run without further failures ends with both inside |
| `PluginRemoval.LateUnlinkIsReachable` | src/agent/AgentPluginStore.ts:563-605 | from an empty registry three windows reach such a state |
| `PluginHistory.CommitIsSequential` | src/agent/AgentPluginStore.ts:331-351 | a commit writes nothing, or exactly one registry with the next revision whose rows are the operation applied to the rows right before it |
| `PluginHistory.StepKeepsInv` | src/agent/AgentPluginManagerHost.ts:490-617 | every step keeps what suspended operations know about the registry they read |
| `PluginHistory.RunIsLinearizable` | src/agent/AgentPluginStore.ts:331-351 | the registry is the replay of the committed operations in revision order, and revisions strictly increase |
| `PluginHistory.NoLostUpdate` | src/agent/AgentPluginManagerHost.ts:760-813 | an enable, rollback or policy edit that commits found its row in the registry right before it and changed exactly what it is for: the flag; current and previous digest, exchanged; or the overlay of one server, to a function of what it was. If the caller named a revision, that registry had it |
| `PluginHistory.ExpectedRevisionIsMet` | src/agent/AgentPluginManagerHost.ts:770-778 | over a whole run: an edit whose caller named a revision commits only on top of that revision |
| `PluginHistory.OneEditPerExpectedRevision` | src/agent/AgentPluginManagerHost.ts:770-778 | of several edits that name the same revision at most one commits |
| `PluginAnswers.ReadGivesUpIff` | src/agent/AgentPluginManagerHost.ts:760-813 | an operation that reads a registry gives up exactly when the revision is not the one its caller named, its row is missing, there is no digest to go back to, or its name is taken in its scope; otherwise it remembers that registry and goes on |
| `PluginAnswers.InstallBuilds` | src/agent/AgentPluginManagerHost.ts:519-546 | the row an install builds: a replaced plugin keeps its policy overlay, and the digest it had becomes the previous one unless it is the same |
| `PluginAnswers.CommitWritesIff` | src/agent/AgentPluginStore.ts:331-351 | under the lock a commit is written if and only if nothing was written since the operation read; otherwise it reads again, at most twice |
| `PluginAnswers.CommitWrites` | src/agent/AgentPluginStore.ts:331-351 | what an install, a removal and a request to purge write |
| `PluginAnswers.PurgeRequestIsKept` | src/agent/AgentPluginStore.ts:261-292 | a request to purge is forgotten only when a host registers that found no marker of another host, and then every package that is left is mentioned by a row |
| `PluginAnswers.RegisterClearsRequestIff` | src/agent/AgentPluginStore.ts:261-292 | a host that registers adds its marker, changes no row, and clears the request if and only if it found no marker |
| `PluginSequential.UndisturbedOperationTakesEffect` | src/agent/AgentPluginManagerHost.ts:468-813 | from every state of a run in which the lock can be had, an operation that finds no reason to give up can run from its start to its end without a failure; then exactly its own change is written as the next revision, the package of an install is stored, and the lock and all other operations are as before |
| `PluginAnswers.BeginsIff` | src/agent/AgentPluginStore.ts:261-315 | a process that has a host sets up no other and may dispose the one it has; the manager's operations begin once it was initialized |
| `PluginHistory.PolicyEditsCompose` | src/agent/AgentPluginManagerHost.ts:685-717 | of two committed policy edits of one server the later one was computed from what the earlier one wrote, whatever was committed in between, unless that replaced the overlay |
| `PluginHistory.NamesStayUnique` | src/agent/AgentPluginManagerHost.ts:500-511 | from at most one row per manifest name and scope, every run of concurrent operations keeps it so |
| `PluginHosts.StepKeepsHostInv` | src/agent/AgentPluginStore.ts:261-315 | every step keeps: each host in use has its own marker in the registry, and an initializing host drops no marker of a living process |
| `PluginPackages.StepKeepsSoundInv` | src/agent/AgentPluginStore.ts:261-315 | every orderly step keeps: rows written and rows that can still be written name stored packages, and every install that may still read is protected from a purge, or can never take the lock |
| `PluginPackages.PurgeKeepsPackages` | src/agent/AgentPluginStore.ts:699-729 | in an orderly run a purge removes no package that a row or a commit that can still succeed needs |
| `PluginPackages.ReferencedPackagesAreOnDisk` | src/agent/AgentPluginStore.ts:413-455 | in every orderly run each current and previous digest in the registry names a package on disk |
| `PluginPackages.HostsMayInstall` | src/agent/AgentPluginStore.ts:261-292 | where the invariant of orderly runs holds, no install on a host that has its marker is reckless |
| `PluginInstall.InstallBreaksIffReckless` | src/agent/AgentPluginManagerHost.ts:468-617 | from every state of an orderly run: an install that begins can lead, by orderly steps, to a row whose package is not on disk if and only if the lock file is not lost to an orphan and no marker protects the process, or a registry it may read would give it a row with a package that is gone |
| `PluginInstall.OrderlyIsExact` | src/agent/AgentPluginStore.ts:261-315 | from every state of an orderly run: a step of any kind can lead, by orderly steps, to a row whose package is not on disk if and only if it is not orderly |
| `PluginInstall.RecklessIsReachable` | src/agent/AgentPluginManagerHost.ts:1035-1042 | an orderly run from an empty registry reaches a state in which a reckless install is not refused |
| `PluginDispose.DisposalBreaksIffRisky` | src/agent/AgentPluginStore.ts:294-315 | from every state of an orderly run: disposing a host can lead, by orderly steps, to a row whose package is not on disk if and only if an install of its process may still read the registry and neither another lasting marker nor a lost lock file protects it |
| `PluginDispose.RiskyIsReachable` | src/agent/AgentPluginManagerHost.ts:468-519 | an orderly run from an empty registry reaches a state in which disposing the host is risky |
| `PluginOperations.NewHost` | src/agent/AgentPluginStore.ts:261-292 | where no living process is registered a new host drops all markers, deletes every package no row mentions if a purge was requested, and registers |
| `PluginOperations.LosesRace` | src/agent/AgentPluginManagerHost.ts:547-613 | the commit of an install whose snapshot is out of date writes nothing and leaves the install to read again |
| `PaneAuthority.ChatPaneAuthorityController.AdoptSidebar` | src/agent/ChatPaneAuthorityController.ts:34-48 | on its tab the call does what `Adopt` says, and other tabs are untouched |
| `PaneAuthority.ChatPaneAuthorityController.PrepareHandoff` | src/agent/ChatPaneAuthorityController.ts:50-64 | likewise for `Prepare` |
| `PaneAuthority.ChatPaneAuthorityController.ActivateLease` | src/agent/ChatPaneAuthorityController.ts:66-82 | likewise for `Activate` |
| `PaneAuthority.ChatPaneAuthorityController.CancelHandoff` | src/agent/ChatPaneAuthorityController.ts:84-89 | likewise for `Cancel` |
| `PaneAuthority.ChatPaneAuthorityController.RollbackActivation` | src/agent/ChatPaneAuthorityController.ts:91-100 | likewise for `Rollback` |
| `PaneAuthority.ChatPaneAuthorityController.RevokeLease` | src/agent/ChatPaneAuthorityController.ts:102-114 | likewise for `Revoke` |
| `PaneAuthority.ChatPaneAuthorityController.ReleaseTab` | src/agent/ChatPaneAuthorityController.ts:128-130 | the tab loses both leases and keeps its epoch counter |
| `PaneAuthority.EpochsAreNeverReissued` | src/agent/ChatPaneAuthorityController.ts:136-155 | two calls that create leases for a tab create different, growing epochs, even across `releaseTab` |
| `PaneAuthority.AuthorityIsTakenInEpochOrder` | src/agent/ChatPaneAuthorityController.ts:66-82 | leases that take authority for the first time do so in the order of their epochs |
| `PaneAuthority.EpochsStayOrdered` | src/agent/ChatPaneAuthorityController.ts:50-64 | with honest rollbacks the active epoch is below the pending one and both are below the next |
| `PaneAuthority.HonestRunsAreStacked` | src/agent/ChatPaneAuthorityController.ts:91-100 | the leases that hold or may regain authority form a stack, each above the one it displaced |
| `PaneAuthority.RegainedOnlyByRollingBackItsDisplacement` | src/agent/ChatPaneAuthorityController.ts:91-100 | a lease that lost authority gets it back only by the rollback of the very activation that displaced it, and had none in between |
| `PaneAnswers.AdoptAnswers` | src/agent/ChatPaneAuthorityController.ts:34-48 | the sidebar is adopted unless the tab is unknown, an editor is in charge or a hand-off is under way; a lease it already has is kept, otherwise a new epoch is used |
| `PaneAnswers.PrepareAnswers` | src/agent/ChatPaneAuthorityController.ts:50-64 | a hand-off is prepared unless the tab is unknown or one to the other surface is under way; the active lease stays, and one to the same surface is continued |
| `PaneAnswers.ActivateAnswers` | src/agent/ChatPaneAuthorityController.ts:66-82 | exactly an active or pending lease can be activated; it is in charge then, and the answer is who was before |
| `PaneAnswers.RollbackAnswers` | src/agent/ChatPaneAuthorityController.ts:91-100 | an activation is taken back exactly while its lease is in charge and no further hand-off is under way |
| `PaneAnswers.RevokeAnswers` | src/agent/ChatPaneAuthorityController.ts:102-114 | a lease that stands is revoked, and no other |
| `PaneAnswers.HandoffIsTakenBack` | src/agent/ChatPaneAuthorityController.ts:66-100 | a hand-off that is prepared and cancelled, or activated and rolled back, leaves the tab as it was but for the epoch |
| `PanelRegistry.ChatTabPanelRegistry.RegisterPanel` | src/agent/ChatTabPanelRegistry.ts:35-61 | on its tab the call does what `Register` says; a duplicate reveals the old panel and closes the new one, a rejected one is closed |
| `PanelRegistry.ChatTabPanelRegistry.ActivateRegistered` | src/agent/ChatTabPanelRegistry.ts:63-75 | only the lease of the registered panel can be activated |
| `PanelRegistry.ChatTabPanelRegistry.CancelPanelHandoff` | src/agent/ChatTabPanelRegistry.ts:77-84 | a pending hand-off is cancelled together with its panel |
| `PanelRegistry.ChatTabPanelRegistry.DisposePanel` | src/agent/ChatTabPanelRegistry.ts:90-97 | the panel is unregistered, its lease revoked and the panel closed |
| `PanelRegistry.ChatTabPanelRegistry.HandlePanelDisposed` | src/agent/ChatTabPanelRegistry.ts:119-140 | a panel that is no longer registered changes nothing; otherwise it is unregistered, revoked and reported |
| `PanelRegistry.ChatTabPanelRegistry.Dispose` | src/agent/ChatTabPanelRegistry.ts:109-117 | every tab's panel is dropped and closed, each once; a second call does nothing |
| `PanelRegistry.CallsKeepGuarded` | src/agent/ChatTabPanelRegistry.ts:29-147 | every call keeps editor authority with the registered panel |
| `PanelRegistry.DroppedPanelHasNoAuthority` | src/agent/ChatTabPanelRegistry.ts:90-107 | dropping a registration takes all editor authority away |
| `PaneAnswers.RegisterAnswers` | src/agent/ChatTabPanelRegistry.ts:35-61 | a panel is registered with the pending editor lease unless the tab has a panel or the hand-off is refused; then nothing changes |
| `PaneAnswers.CancelPanelAnswers` | src/agent/ChatTabPanelRegistry.ts:77-84 | a panel goes exactly with its pending hand-off; once the lease is in charge the call does nothing |
| `PaneAnswers.DropPanelAnswers` | src/agent/ChatTabPanelRegistry.ts:90-97 | the lease of a dropped panel no longer stands, pending or active, and every other lease does as before |
| `PanelHost.StepKeepsInv` | src/agent/ChatTabPanelHost.ts:144-539 | every step of interleaved pop-out, dock, ready, user close, restore, release and dispose keeps the invariant |
| `PanelHost.AttachKeepsInv` | src/agent/ChatTabPanelHost.ts:301-371 | attaching a panel, replacing a fallback panel or being refused, never leaves a suspended dock with a dead lease |
| `PanelHost.UserCloseKeepsInv` | src/agent/ChatTabPanelHost.ts:435-467 | closing a panel supersedes every suspended method |
| `PanelHost.EditorAuthorityHasAPanel` | src/agent/ChatTabPanelHost.ts:177-231 | in every reachable state an active or pending editor lease is the lease of the registered panel |
| `PanelHost.FailedDockRestoresALivePanel` | src/agent/ChatTabPanelHost.ts:218-230 | a failed dock that is still current restores exactly the lease it displaced, and if that is an editor lease its panel is still registered |
| `PanelHost.SuccessfulPopOutEndsInTheEditor` | src/agent/ChatTabPanelHost.ts:398-417 | a pop-out that completes leaves the tab to the lease of its own panel, which is the registered one |
| `PanelHost.SuccessfulCloseEndsInTheSidebar` | src/agent/ChatTabPanelHost.ts:459-486 | a completed hand-off after the user closed the panel leaves the sidebar lease active, nothing pending and no panel |
| `PanelHost.SuccessfulDockEndsInTheSidebar` | src/agent/ChatTabPanelHost.ts:208-217 | a successful dock leaves the sidebar lease active, no hand-off pending and no panel |
| `PanelOutcomes.FailedPopOutEndsInTheSidebar` | src/agent/ChatTabPanelHost.ts:418-432 | a pop-out that fails while it is current leaves no panel and nothing pending, and a tab that still exists is driven by the sidebar: by the lease it had, or by a new one if the editor was in charge |
| `PanelOutcomes.FailedDockLeavesTheEditor` | src/agent/ChatTabPanelHost.ts:218-230 | a dock that fails before the sidebar took over cancels the pending sidebar lease and changes nothing else |
| `PanelOutcomes.FailedCloseOpensAFallback` | src/agent/ChatTabPanelHost.ts:487-511 | a hand-off after a close that fails is cancelled if the sidebar had not taken over; otherwise the sidebar keeps the tab and a fallback panel is opened, if the tab exists |
| `PanelOutcomes.UserCloseHandsBack` | src/agent/ChatTabPanelHost.ts:435-467 | after the user closed the panel no editor lease stands and every suspended method is superseded; a docked tab is driven by the sidebar at once, a popped one begins a hand-off to it |
| `PanelOutcomes.SupersededStepsTouchNothing` | src/agent/ChatTabPanelHost.ts:517-539 | a suspended method that is no longer the tab's last transition ends without touching anything |
| `PanelOutcomes.PopOutAnswers` | src/agent/ChatTabPanelHost.ts:144-175 | a panel is opened exactly when the tab exists, has none, may be popped out and is not being handed to the sidebar; it waits for its lease while whoever drives the tab still does |
| `PanelOutcomes.DeserializeAnswers` | src/agent/ChatTabPanelHost.ts:233-253 | a restored panel is opened for a popped tab, and a fallback panel makes way for it |
| `PanelOutcomes.DockAnswers` | src/agent/ChatTabPanelHost.ts:177-185 | a dock begins exactly for a popped tab with an editor pane that no hand-off to the editor is under way for |
| `PanelOutcomes.DockMovesOn` | src/agent/ChatTabPanelHost.ts:187-196 | a hydrated sidebar takes over if nothing has happened meanwhile, and the dock remembers whom it displaced |
| `PanelOutcomes.ReadyMovesOn` | src/agent/ChatTabPanelHost.ts:384-406 | a hydrated panel takes over if it is still the open one and bound to the tab |
| `PanelOutcomes.DockCompletesIff` | src/agent/ChatTabPanelHost.ts:197-217 | the panel goes exactly if the layout was saved and nothing else has happened since |
| `PanelOutcomes.DisposalIsForGood` | src/agent/ChatTabPanelHost.ts:289-299 | once the host is disposed the tab has no panel and no surface, whatever suspended methods do afterwards |
| `TabController.ChatTabController.FocusTab` | src/agent/ChatTabController.ts:170-178 | only a docked tab takes the focus |
| `TabController.ChatTabController.CreateTab` | src/agent/ChatTabController.ts:180-213 | does what `Create` says: an open session is focused, otherwise a docked tab with the least free number is added |
| `TabController.ChatTabController.LowestAvailableDisplayNumber` | src/agent/ChatTabController.ts:549-554 | the loop finds the least positive number no tab has |
| `TabController.ChatTabController.BindFocusedSession` | src/agent/ChatTabController.ts:215-248 | does what `Bind` says, before its first await |
| `TabController.ChatTabController.ReplaceSession` | src/agent/ChatTabController.ts:250-284 | does what `Replace` says, with its three refusals |
| `TabController.ChatTabController.ReorderTabs` | src/agent/ChatTabController.ts:286-299 | does what `Reorder` says; `TabAnswers.ReorderAnswers` says what that is |
| `TabController.ChatTabController.SetPlacement` | src/agent/ChatTabController.ts:301-342 | does what `Place` says and keeps what it needs to undo it |
| `TabController.ChatTabController.PlacementSaveFailed` | src/agent/ChatTabController.ts:343-351 | a failed save restores layout and focus unless the layout was replaced since |
| `TabController.ChatTabController.CloseTab` | src/agent/ChatTabController.ts:355-378 | does what `Close` says; the last tab and the last docked tab stay |
| `TabController.CreateKeepsValid` | src/agent/ChatTabController.ts:180-213 | creating keeps identifiers, numbers and sessions apart and the new tab docked and focused |
| `TabController.ReorderKeepsValid` | src/agent/ChatTabController.ts:286-299 | as many different known identifiers as tabs are all the tabs, so none is lost and the focus stays |
| `TabController.PlaceKeepsValid` | src/agent/ChatTabController.ts:301-341 | popping a tab out leaves a docked tab in focus |
| `TabController.CloseKeepsValid` | src/agent/ChatTabController.ts:355-378 | closing leaves a docked tab in focus |
| `TabAnswers.FocusAnswers` | src/agent/ChatTabController.ts:170-178 | exactly a docked tab can be focused, and nothing else changes |
| `TabAnswers.CreateFindsOpenSession` | src/agent/ChatTabController.ts:180-193 | a session that some tab shows is not opened again |
| `TabAnswers.CreateAddsATab` | src/agent/ChatTabController.ts:194-213 | otherwise one tab is added behind the others, docked and focused, with the least positive number no tab has |
| `TabAnswers.BindChangesTheFocusedTab` | src/agent/ChatTabController.ts:215-248 | a session no tab shows is bound to the focused tab, in a new generation if that showed one before; no other tab changes |
| `TabAnswers.ReplaceIsRefusedIff` | src/agent/ChatTabController.ts:250-272 | each refusal of a replacement, in both directions; a refused one changes nothing |
| `TabAnswers.ReplaceChangesOneTab` | src/agent/ChatTabController.ts:273-284 | a replaced session starts a new generation of its tab; the same session changes nothing |
| `TabAnswers.ReorderAnswers` | src/agent/ChatTabController.ts:286-299 | a list is accepted if and only if it names every tab once; then tab i is the one with identifier i, the tabs are a permutation of those before, and focus and next number stay; a list that is not accepted changes nothing |
| `TabAnswers.PlaceIsRefusedIff` | src/agent/ChatTabController.ts:301-321 | each refusal of a placement, in both directions |
| `TabAnswers.PlaceMovesOneTab` | src/agent/ChatTabController.ts:322-342 | only the placement of that tab changes, and the focus moves to the first docked tab if the focused one was popped out |
| `TabAnswers.FailedSaveUndoes` | src/agent/ChatTabController.ts:343-351 | a save that fails takes the placement back completely, unless the layout was replaced meanwhile |
| `TabAnswers.CloseAnswers` | src/agent/ChatTabController.ts:355-366 | a tab is closed exactly if it is known, not the only one and not the only docked one |
| `TabAnswers.CloseRemovesOneTab` | src/agent/ChatTabController.ts:367-378 | the other tabs stay in order, and the focus moves to the first docked tab if it was on the closed one |
| `TabRuns.StepKeepsInv` | src/agent/ChatTabController.ts:170-378 | every call, and every late failed save, keeps the layout invariant and keeps what suspended placements would restore valid |
| `TabRuns.LayoutsStayGood` | src/agent/ChatTabController.ts:170-378 | in every reachable state identifiers, numbers and sessions are unique, the focused tab is docked, and the next number is above all |
| `TabRuns.TabsFollow` | src/agent/ChatTabController.ts:215-284 | a call leaves a tab's binding alone, gives it its first session, or moves it to a later generation |
| `TabRuns.GenerationHasOneSession` | src/agent/ChatTabController.ts:215-284 | over a whole run a tab identifier and generation are bound to at most one session |
| `TabRuns.CreateKeepsSessionsApartIff` | src/agent/ChatTabController.ts:180-193 | creating keeps all sessions apart exactly unless the empty session id is opened a second time |
| `TabPersistence.SessionsStayApartIff` | src/agent/ChatTabController.ts:180-351 | over a whole run all sessions of every layout differ, the empty one included, if and only if it never opens the empty session while a tab shows it |
| `TabPersistence.RestoredAsSavedIff` | src/agent/ChatTabController.ts:425-531 | a reachable layout is restored exactly as it was saved if and only if its tabs have non-empty identifiers, no empty session and positive generations |
| `TabPersistence.LayoutsSurviveReloadIff` | src/agent/ChatTabController.ts:170-531 | over a whole run every layout is restored as saved if and only if no call gives a tab the empty string |
| `LayoutRestore.RestoreLayout` | src/agent/ChatTabController.ts:425-531 | the loop with its three sets computes `Restore` |
| `LayoutRestore.RestoreTab` | src/agent/ChatTabController.ts:447-505 | one saved tab is taken, repaired or skipped as `Take` says |
| `LayoutRestore.RestoreIsComplete` | src/agent/ChatTabController.ts:425-531 | any saved value is restored to a layout that satisfies the full invariant |
| `LayoutRestore.RestoreInvertsEncode` | src/agent/ChatTabController.ts:425-531 | a layout that satisfies the invariant is restored as it was, with nothing reported |
| `LayoutRestore.RestoreIsIdempotent` | src/agent/ChatTabController.ts:425-531 | restoring what was restored changes nothing and reports nothing |
| `LayoutRestore.ReportsIff` | src/agent/ChatTabController.ts:440-530 | `repaired` is false exactly when the saved value already said what the restored layout says, session fields that name no session aside |
| `LayoutRestore.UnreportedMeansUnchangedIff` | src/agent/ChatTabController.ts:476-484 | an unreported value is the saved form of the result if and only if each session field is null or names a session |
| `LayoutAnswers.TakeAnswers` | src/agent/ChatTabController.ts:447-505 | which saved tab is skipped, and with which number, session, placement and generation any other is taken; a number that is unusable or taken is replaced by the one above the highest so far |
| `LayoutAnswers.RestoreAnswers` | src/agent/ChatTabController.ts:425-531 | when the default layout is used; otherwise the taken tabs stand in order, the first docked if none was, and the next number is the saved one if that is above all |
| `HubRegistry.ProjectMcpHubRegistry.Ensure` | src/agent/ProjectMcpHubRegistry.ts:90-107 | a project without a generation gets generation 0; the current number is returned |
| `HubRegistry.ProjectMcpHubRegistry.EndReload` | src/agent/ProjectMcpHubRegistry.ts:183-212 | a reload that failed or came after retirement is discarded; otherwise its generation becomes current and the previous one retires |
| `HubRegistry.ProjectMcpHubRegistry.Acquire` | src/agent/ProjectMcpHubRegistry.ts:136-151 | a lease of the current generation, or the error that there is none |
| `HubRegistry.ProjectMcpHubRegistry.Retain` | src/agent/ProjectMcpHubRegistry.ts:225-230 | a further lease of the same generation; a released handle cannot be retained |
| `HubRegistry.ProjectMcpHubRegistry.Release` | src/agent/ProjectMcpHubRegistry.ts:231-238 | a second release does nothing; the last lease of a retired generation disconnects it |
| `HubRegistry.ProjectMcpHubRegistry.Disconnect` | src/agent/ProjectMcpHubRegistry.ts:242-253 | disconnection starts only without leases, and once |
| `HubRegistry.ProjectMcpHubRegistry.RetireProject` | src/agent/ProjectMcpHubRegistry.ts:153-158 | the project is forgotten and its entry marked before anything is awaited |
| `HubRegistry.StepKeepsInv` | src/agent/ProjectMcpHubRegistry.ts:90-253 | every step keeps the invariant, and a disconnected generation never changes again |
| `HubRegistry.LeasesDecideDisconnection` | src/agent/ProjectMcpHubRegistry.ts:215-253 | leases equal unreleased handles, and the hub was disconnected exactly when retired without leases, then once |
| `HubRegistry.DisconnectedForGood` | src/agent/ProjectMcpHubRegistry.ts:242-253 | after disconnection has begun there is never a lease again |
| `HubRegistry.DiscardedIsNeverCurrent` | src/agent/ProjectMcpHubRegistry.ts:183-198 | a failed or late generation never becomes current |
| `HubRegistry.CurrentIsLive` | src/agent/ProjectMcpHubRegistry.ts:200-212 | the current generation of a project is connected, and all others of its entry are older and retired |
| `HubAnswers.EnsureAnswers` | src/agent/ProjectMcpHubRegistry.ts:90-107 | a project without a current generation gets number 0, of a new entry if it had none; otherwise nothing changes |
| `HubAnswers.BeginAnswers` | src/agent/ProjectMcpHubRegistry.ts:109-119 | a queued reload begins exactly when none of its entry is running, and uses up the next number |
| `HubAnswers.EndAnswers` | src/agent/ProjectMcpHubRegistry.ts:183-212 | a reload that failed or came late is discarded; otherwise its generation is current, and the one before is retired and, if no lease holds it, disconnected; no other changes |
| `HubAnswers.AcquireAnswers` | src/agent/ProjectMcpHubRegistry.ts:136-151 | a lease is acquired exactly for a project with a current generation, and is one more of that generation |
| `HubAnswers.RetainAnswers` | src/agent/ProjectMcpHubRegistry.ts:225-230 | a handle can be retained exactly if it was not released |
| `HubAnswers.ReleaseAnswers` | src/agent/ProjectMcpHubRegistry.ts:231-253 | the first release gives back one lease, and the last lease of a retired generation disconnects it; a second release does nothing |
| `HubAnswers.RetireAnswers` | src/agent/ProjectMcpHubRegistry.ts:153-158 | the project's name is free at once and its entry is marked |
| `HubAnswers.FinishRetireAnswers` | src/agent/ProjectMcpHubRegistry.ts:158-162 | once no reload is queued or running the last generation of a retired project is retired, and no other changes |
| `TraceRecorder.ActivityTraceRecorder.AppendEvent` | src/agent/ActivityTraceRecorder.ts:202-250 | counts, buffers or drops the event and arms the timer |
| `TraceRecorder.ActivityTraceRecorder.StartFlush` | src/agent/ActivityTraceRecorder.ts:280-288 | the whole buffer goes in flight |
| `TraceRecorder.ActivityTraceRecorder.FinishBatch` | src/agent/ActivityTraceRecorder.ts:291-300 | a written batch is on disk and no longer in flight |
| `TraceRecorder.ActivityTraceRecorder.GiveUp` | src/agent/ActivityTraceRecorder.ts:308-329 | after a failed write persistence is off, buffers are empty and the counters are corrected |
| `TraceRecorder.ActivityTraceRecorder.RollBackCounters` | src/agent/ActivityTraceRecorder.ts:312-322 | the loop moves each session's unwritten events from recorded to dropped |
| `TraceRecorder.RollbackNeverClamps` | src/agent/ActivityTraceRecorder.ts:310-322 | the correction leaves exactly the events on disk as recorded and never reaches below zero |
| `TraceRecorder.EventsAreConserved` | src/agent/ActivityTraceRecorder.ts:202-354 | events are recorded or dropped; recorded ones are on disk, in flight or pending, within the cap; `loadEvents` reads exactly them, in order |
| `TraceRecorder.BufferedEventsAreScheduled` | src/agent/ActivityTraceRecorder.ts:257-278 | pending events have an armed timer or a chained flush while persistence is on |
| `TraceRecorder.FlushDelivers` | src/agent/ActivityTraceRecorder.ts:252-264 | a flush that ends has written everything accepted before it began |
| `TraceRecorder.AppendIsReadBack` | src/agent/ActivityTraceRecorder.ts:336-354 | an event that is recorded, and no other, is read back at once, last |
| `TraceRecorder.SummariesAreSaved` | src/agent/ActivityTraceRecorder.ts:287-307 | when nothing is left to do while persistence is on, every summary is on disk as it is in memory, although summaries change while they are written |
| `TraceAnswers.AppendAnswers` | src/agent/ActivityTraceRecorder.ts:202-250 | an event is recorded exactly while persistence is on and its session below the cap; counters, buffer, timer and what stays the same |
| `TraceAnswers.BeginAnswers` | src/agent/ActivityTraceRecorder.ts:280-288 | flushes run one at a time; one that begins takes all that is pending, or does nothing once persistence was given up |
| `TraceAnswers.BatchAnswers` | src/agent/ActivityTraceRecorder.ts:291-300 | a written batch is on disk behind what was there and no longer in flight; other sessions are untouched |
| `TraceAnswers.FailureAnswers` | src/agent/ActivityTraceRecorder.ts:308-329 | a write that fails empties the buffers, leaves the files, and moves what was buffered for each session from the recorded to the dropped events |
| `FleetFences.SplitInvertsJoinIff` | src/agent/FleetWorkflows.ts:364 | splitting a text gives back the lines it was joined from exactly when they are clean |
| `FleetFences.LineEndings` | src/agent/FleetWorkflows.ts:364 | a line feed ends a line, with or without a carriage return before it |
| `FleetFences.ExtractFleetResultFenceBodies` | src/agent/FleetWorkflows.ts:346-422 | the line loop computes `Extract`, and never returns more than 32 bodies |
| `FleetFences.RenderedBlocksAreExtracted` | src/agent/FleetWorkflows.ts:346-422 | up to 32 rendered blocks are extracted as exactly their bodies in order; more give overflow and none |
| `FleetFences.LastBlockMayBeUnclosed` | src/agent/FleetWorkflows.ts:417-421 | the same when the last closing line was cut off |
| `FleetFences.RenderedTextIsExtracted` | src/agent/FleetWorkflows.ts:364-421 | the round trip on whole texts |
| `FleetFences.CutTextIsExtracted` | src/agent/FleetWorkflows.ts:364-421 | the round trip on whole texts that were cut off before the last closing line |
| `FleetBlocks.EveryMessageIsBlocks` | src/agent/FleetWorkflows.ts:364-421 | the lines of every message can be read as prose lines, one-line blocks and fenced blocks, of which only the last may be unclosed |
| `FleetBlocks.BlocksAreExtracted` | src/agent/FleetWorkflows.ts:346-422 | what is extracted is what the blocks contribute, in order: nothing for a rejected, empty or oversized block, the payload of the opening line first; more than 32 bodies give overflow and none |
| `FleetEnvelope.InterpretReviewFindings` | src/agent/FleetWorkflows.ts:239-302 | the loop accepts a review exactly when every finding is an object with a message that is not blank and a severity that `String` can convert, and normalizes each |
| `FleetEnvelope.SeverityThatThrowsRejects` | src/agent/FleetWorkflows.ts:264-343 | a finding whose severity is an object without a text, such as one whose `toString` is null, rejects the whole candidate |
| `FleetEnvelope.PathIsRelative` | src/agent/FleetWorkflows.ts:210-229 | a path is kept only in workspace-relative form |
| `FleetEnvelope.FindingIsStrictIff` | src/agent/FleetWorkflows.ts:263-279 | a normalized finding is strictly valid unless its severity names an inherited property |
| `FleetEnvelope.FindingsAreStrictIff` | src/agent/FleetWorkflows.ts:239-302 | an accepted review is strictly valid if and only if no finding's severity does |
| `FleetEnvelope.AcceptedHasType` | src/agent/FleetWorkflows.ts:304-331 | an accepted candidate has the expected type; patches and verifications are strictly valid |
| `FleetEnvelope.ConstructorSeverityIsAcceptedButInvalid` | src/agent/FleetWorkflows.ts:263-264 | a finding with severity "constructor" gives an accepted envelope outside the strict schema |
| `FleetAnswers.SeverityAnswers` | src/agent/FleetWorkflows.ts:170-193 | the words of each severity, spelled out; every other word is medium, but for the two inherited names |
| `FleetAnswers.SeverityIsNormalized` | src/agent/FleetWorkflows.ts:263-264 | the word is the trimmed, lower-cased text of the severity field, also when that is missing or no text |
| `FleetAnswers.RelativeIff` | src/agent/FleetWorkflows.ts:589-597 | a path is workspace-relative exactly when it is not empty, not absolute on any platform and has no segment `..` |
| `FleetAnswers.UnderRootAnswers` | src/agent/FleetWorkflows.ts:219-229 | an absolute path is cut at the first root it lies under, compared without trailing slashes, and dropped if there is none |
| `FleetAnswers.FindingAnswers` | src/agent/FleetWorkflows.ts:263-279 | a finding keeps its message and has exactly a severity, and a path and a line only if they are usable |
| `FleetAnswers.ReviewAnswers` | src/agent/FleetWorkflows.ts:239-302 | a review is taken exactly when all its findings are usable, and consists of them in order, the scope if it is a text and the remark on an empty diff if it is one |
| `FleetAnswers.PatchAnswers` | src/agent/FleetWorkflows.ts:304-331 | a patch is taken exactly when its fields have their types and its files are relative; only its type is normalized |
| `FleetAnswers.VerificationAnswers` | src/agent/FleetWorkflows.ts:304-331 | the same for a verification |
| `FleetAnswers.StrictReviewIff` | src/agent/FleetWorkflows.ts:554-579 | what the strict schema asks of a review, in one formula |
| `FleetParse.ExtractBalancedJsonObject` | src/agent/FleetWorkflows.ts:427-454 | finds the first brace outside strings that balances what was opened, if there is one within the limit |
| `FleetObjects.WrittenObjectsAreExtracted` | src/agent/FleetWorkflows.ts:427-454 | an object written as nested braces, strings with escapes and other text is extracted exactly from its first brace on, whatever follows, if and only if it is within the limit |
| `FleetParse.ParseFleetResultEnvelope` | src/agent/FleetWorkflows.ts:462-519 | the whole text, then the last valid fenced candidate, then, only without fenced bodies or on overflow, the newest of the last eight balanced objects |
| `FleetParse.LastFencedCandidateWins` | src/agent/FleetWorkflows.ts:484-492 | unless the whole text is an envelope, the last valid fenced candidate is the result |
| `FleetParse.NewestObjectWins` | src/agent/FleetWorkflows.ts:494-510 | without fenced bodies the newest of the last eight objects that is valid is the result |
| `FleetParse.PlainTextIff` | src/agent/FleetWorkflows.ts:480-519 | the result is plain text if and only if neither the message nor any body is valid or, without bodies, none of the last eight objects |
| `FleetParse.ResultIsStrictIff` | src/agent/FleetWorkflows.ts:462-519 | a result that is not text is what the whole text, a trimmed fenced body or a balanced object of it parses to, has the expected type, and is strictly valid if and only if it is not a review with an inherited name as a severity |
| `CallTracker.AgentToolCallTracker.RegisterAgentCall` | src/agent/AgentToolCallTracker.ts:150-179 | the new call joins the closure of each of its ancestors together with everything that already names it as parent, and no other pair becomes related |
| `CallTracker.AgentToolCallTracker.CompleteAgentCall` | src/agent/AgentToolCallTracker.ts:184-193 | the call moves from the active to the recent calls |
| `CallTracker.AgentToolCallTracker.FindDescendants` | src/agent/AgentToolCallTracker.ts:292-306 | the fixpoint loop ends, also on cyclic links, with exactly the reflexive and transitive children among the active calls |
| `CallTracker.AgentToolCallTracker.CancelCall` | src/agent/AgentToolCallTracker.ts:283-356 | everything the call does: its active descendants are resolved in some order, each once, then the call itself, each with its terminal interrupted directly before, and nothing else |
| `CallTracker.EachIsCancelledOnce` | src/agent/AgentToolCallTracker.ts:308-356 | such a list of effects resolves exactly the call and its descendants, each once, and interrupts exactly their terminals, each directly before its call is resolved |
| `CallTracker.DescendantsAreTheLeastClosedSet` | src/agent/AgentToolCallTracker.ts:292-306 | the descendants are the least set holding the target and the children of its members |

## Left out

- ToolScheduler.ExecuteToolCalls: says nothing about a tool that keeps working after its call was force-resolved, and `isParallelSafe` and `canOverlapLaterCall` are functions that do not change their minds.
- ProviderLoop.Run: requires a positive `maxApiTurns`, since the loop need not end without one (`OnlyToolRoundsGoOn` covers both); delays, the request scheduler, the condense thresholds and what is written to the history are not modelled, and neither are the errors of the code outside the inner try block.
- RetryText.Receive: other stream events between two text chunks are left out, because the text case does not look at them.
- RequestAssembly.BuildProviderMessages: how a message's media become content blocks is not modelled; messages are placed, not converted.
- RequestAssembly.AssembleRequest: whether memory fits the context budget is decided outside; `memory` is what is inserted.
- PluginHistory.NoLostUpdate: speaks of row edits; an install that replaces a row builds the new row from the first snapshot, so an edit of the replaced row in between is overwritten by design.
- PluginProgress.WaiterProceedsIff: the source also gives up after a waiting time, and refuses when a process cannot be inspected or the lock file has no readable record; all are operations that may be abandoned at any await. `BlankWithoutOrphanIff` says when the last happens without an orphan.
- PluginRegistry: the store, its lock file and its managers are steps on one value, because they are shared between processes; not modelled are manifest versions, timestamps, declarations, validation of staged packages (an operation may be abandoned instead), unreadable registry files, and the Windows paths of the store.
- PaneAuthority.RegainedOnlyByRollingBackItsDisplacement: assumes that a rollback is given a pair `activate` returned, as all callers do.
- PanelHost.StepKeepsInv: the host is modelled on values, one tab at a time, because Dafny has no await; reveal, titles, html and messages are left out, and a webview's panel is forgotten at any moment rather than exactly when it is disposed.
- TabController.ChatTabController.CreateTab: drawing identifiers until one is unused is a precondition on the one drawn.
- LayoutRestore.RestoreLayout: numbers are integers; beyond 2^53 a JavaScript number no longer grows by adding one.
- HubRegistry.ProjectMcpHubRegistry.EndReload: which configurations are loaded, and the error a caller sees, are not modelled; a scope that does not match its entry changes nothing and is left out.
- TraceRecorder.EventsAreConserved: sessions restored from a saved summary, deleted directories, sequence numbers, redaction and the per-kind counters.
- FleetFences.ExtractFleetResultFenceBodies: the regular expressions for opening and closing lines are parameters; the grammar is close to section 4.5 of CommonMark 0.31 but accepts one-line fences.
- FleetParse.ParseFleetResultEnvelope: the reasons collected for rejected candidates, and `JSON.parse`, trimming and case folding, which are parameters.
- CallTracker.AgentToolCallTracker.CancelCall: resolving a call is a synchronous effect that changes no link; the pending diff that is rejected on the side is not modelled.
- Planning and scoring of fleet workflows, the fleet scheduler, summary scheduling, buffering of interface updates and the slash-command registry: they would add only easy members.
- The code that decides whether an error is retryable, and the wiring in src/extension.ts: parameters and entry points of the modelled calls.
