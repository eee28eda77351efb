# The product store and the protocols around it

The backend keeps its state in a transactional product store and builds several protocols on it. This project models
five of them in Dafny and proves what they are for. One call of the store is one atomic step; instants are integer
milliseconds, identifiers are numbers that are only compared.

- **Sandbox Runs** (`SandboxModel`, `SandboxRuns`, `SandboxTheorems`, `SandboxDelivery`, `SandboxCapacity`,
  `SandboxStores`, `SandboxOwnership`, `SandboxEffects`, `SandboxAdmissions`, `SandboxFacts`, `ProjectTables`,
  `ProjectGuards`, `ReleaseTwins`, `CleanupCopies`, `UsageOverview`, `SandboxExamples`). A Run goes from starting through active and failed to release requested and
  released, under fencing tokens, startup claims, action deadlines and cleanup claims. The same steps move the task's
  current Run, the project's sandbox counter, the idempotency receipts and the one message a Run may be delivering.
  Each operation is a function from state to state; the class `SandboxStore` carries it out on maps in place, with
  loops, snapshots and roll-back, and is proved to take exactly that step. The invariants relate all the maps and are
  kept by every event, so the theorems hold over every run.
- **Provider quota** (`ProviderLedger`, `ProviderTheorems`, `ProviderLimit`, `ProviderTotals`, `ProviderLife`, `ProviderStores`). Reservations of
  provider usage and their life until settlement, the project totals they add up to, and rolling limits per actor and
  endpoint. What was pruned is remembered as history, so that the books can be balanced over whole runs.
- **Idempotent mutations** (`Receipts`, `Utf16`, `JsonText`, `NumberReading`, `CanonicalJson`, `CanonicalTheorems`,
  `CanonicalText`, `IdempotentMutation`, `MutationTheorems`, `MutationCalls`). The canonical JSON text under the request hash, down to number formatting,
  string quoting and UTF-8, and the begin, run, complete protocol of any number of callers whose leases run out and are
  taken over.
- **Agent context** (`ContextText`, `ContextResolver`, `ContextTheorems`). The resolver that streams entries of four scopes in pages,
  keeps the most specific one of each key, and knows the size of the text it would render without rendering it.
- **Change log, file libraries, lifecycle lock** (`InteractionLog`, `LogTheorems`, `FileLibraries`,
  `FileLibraryEffects`, `FileLibraryStores`, `LifecycleLock`). The append-only log behind snapshots and change pages, the mutual exclusion of binding and deleting
  a library with removers that race for a claim, and the promise-chain lock as interleaved steps.

Each operation is a function in one module, and what it needs and does is stated a second time, without that function,
over the stored fields: `SandboxOwnership` for messages, `SandboxEffects` and `SandboxAdmissions` for Runs, tasks and
projects, `ProviderTotals` and `ProviderLife` for reservations, `MutationTheorems` for callers, `ContextTheorems` for the
resolver, `LogTheorems` for the change log, `FileLibraryEffects` for libraries, `CanonicalText` and `NumberReading` for the
hashed text. The table below lists the main ones.

`Basics`, `Sums` and `Sorting` hold what the models share: finite sums over the keys of a map, and a stable sort.

The operations are those of the in-memory store, with one exception: the completion of a release is the database
store's. There the two stores settle the message of different copies of the Run and answer a repetition differently.
`ReleaseTwins` compares this one operation. Under the token of a cleanup claim, as the services release, whose message is
settled makes no difference to the states; the two part only where a release is repeated while its task is not live or a
request for it is open (`ReleaseTwins.ClaimedReleasesAgreeIff`, `ReleaseTwins.ReleaseMakesNoDifference`). A direct caller
can present an active Run at its own token: `ReleaseTwins.InMemoryReleaseIsSafeIff` says exactly when that is safe,
`ReleaseTwins.InMemoryReleaseCanStrandMessage` leads to a state in which it is not.

Two more things depend on where a guard stands. The in-memory terminal start does not look at the lifecycle of the
project, so that it can start a Run in a project that is being deleted; the database store has a guard there.
`ProjectGuards.StepIsIdleIff` says exactly which step does it, `ProjectGuards.StartCanWakeDeletion` reaches it, and
`ProjectGuards.GuardKeepsDeletionIdle` shows that the guard rules it out over every run. And a cleanup claim is given
back by writing a whole copy of the Run. `CleanupCopies.WriteBackReturnsClaim` shows what that comes to however old the
copy is; for a starting Run it can put an ended startup action back in the place of a running one
(`CleanupCopies.ReturnIsCleanIff`, `CleanupCopies.OldCopyEndsAction`).

Inserting a Run whose identifier is in use breaks the mutation, and restarting for a message changes nothing of the task
but its current Run.

One promise of the change log does not survive the deletion of messages. Deleting the change with the highest number
frees that number, and a reader that has seen it misses the change that gets it next; `InteractionLog.NextChangeIsShownIff`
says exactly when, `InteractionLog.ReusedNumberIsMissed` shows a case.

What the services guarantee about their inputs is in `SandboxRuns.WellFormed`: a Run to insert is new and starting and
owns nothing, a terminal start claims a receipt about a Run, a project identifier is not in use, a copy of a Run with an
action in flight names its owner. The store checks none of this.

Context keys are compared in two ways. The store keeps one entry per key and scope, code unit by code unit; its listings
are ordered by UTF-8 bytes, in which all lone surrogates look alike. A page that ends between two keys that tie loses
what ties with its last entry: `ContextResolver.StreamIsListingIff` gives the exact condition,
`ContextResolver.TiedKeyIsLost` an input, and `ContextResolver.WellFormedKeysAreKept` shows that well-formed keys are
never lost. The resolver is proved for whatever the pages deliver.

## Model

| member | source | states |
|---|---|---|
| `SandboxStores.SandboxStore.BeginReceipt` | packages/adapters-postgres/src/inMemoryProductStore.ts:1482-1495 | A standalone claim: a different hash, a completed receipt and a live lease are told apart and change nothing; otherwise the claim is the caller's and the stored resource is kept |
| `SandboxStores.SandboxStore.CompleteReceipt` | packages/adapters-postgres/src/inMemoryProductStore.ts:1539-1546 | Only the holder of the claim completes; repeating the same reply succeeds, another reply is refused |
| `Receipts.ClaimIsExclusive` | packages/adapters-postgres/src/inMemoryProductStore.ts:1905-1922 | A successful claim, standalone or inside a larger mutation, lasts as long as its lease: whatever others try until then, its caller alone holds the receipt, for its request and the resource it was told |
| `Receipts.LeaseIsExclusive` | packages/adapters-postgres/src/inMemoryProductStore.ts:1482-1495 | While the lease of a claim runs, no sequence of claims and completions by others changes the receipt |
| `Receipts.ReceiptsOnlyGrow` | packages/adapters-postgres/src/inMemoryProductStore.ts:1482-1546 | Over any sequence of claims and completions a receipt keeps its hash and its resource, and a completed one everything |
| `Receipts.ReplyIsFinal` | packages/adapters-postgres/src/inMemoryProductStore.ts:1539-1546 | Over any sequence of claims and completions a completed receipt answers everyone who makes its request with its one reply; the same reply again is accepted, another one refused |
| `SandboxStores.SandboxStore.FindPending` | packages/adapters-postgres/src/inMemoryProductStore.ts:866-868 | The scan over all receipts finds exactly the open terminal starts on the Run |
| `SandboxStores.SandboxStore.TerminalizeStart` | packages/adapters-postgres/src/inMemoryProductStore.ts:861-878 | Closes the one open terminal-start receipt on a Run, changes nothing if there is none, and fails if there are several |
| `SandboxStores.SandboxStore.MarkStartupReady` | packages/adapters-postgres/src/inMemoryProductStore.ts:2135-2144 | Startup readiness is set once, on the starting current Run of an open task, under the presented token |
| `SandboxStores.SandboxStore.InitializeStartupConfig` | packages/adapters-postgres/src/inMemoryProductStore.ts:2146-2168 | The startup config is written once; the same config again is a repeat, another one is refused |
| `SandboxStores.SandboxStore.RecordStartupPod` | packages/adapters-postgres/src/inMemoryProductStore.ts:2170-2194 | Pod facts are recorded against the expected config; a recorded pod identity never changes |
| `SandboxStores.SandboxStore.ClaimSandboxStartup` | packages/adapters-postgres/src/inMemoryProductStore.ts:2196-2206 | Startup is claimed only when ready, with no action in flight and no live lease of another claimant |
| `SandboxStores.SandboxStore.BeginStartupAction` | packages/adapters-postgres/src/inMemoryProductStore.ts:2208-2216 | Only the claimant opens an action, and only one at a time |
| `SandboxStores.SandboxStore.CompleteStartupAction` | packages/adapters-postgres/src/inMemoryProductStore.ts:2218-2226 | Only the claimant closes its action, in time, and extends its lease |
| `SandboxStores.SandboxStore.RecoverStartupAction` | packages/adapters-postgres/src/inMemoryProductStore.ts:2228-2236 | The claimant gives up its action and its claim together |
| `SandboxStores.SandboxStore.Activate` | packages/adapters-postgres/src/inMemoryProductStore.ts:2248-2272 | Activation by the owner of the action in time moves the Run to active, bumps its token and answers the waiting terminal start; an error undoes the Run |
| `SandboxStores.SandboxStore.FailSandboxRun` | packages/adapters-postgres/src/inMemoryProductStore.ts:938-952 | A starting or active Run fails, its owned message fails with it and its terminal start is answered, or nothing changes |
| `SandboxStores.SandboxStore.FailTaskSandboxStartup` | packages/adapters-postgres/src/inMemoryProductStore.ts:953-975 | The failure path of a terminal start, only for the holder of its receipt and the owner of the startup claim |
| `SandboxStores.SandboxStore.DrainStartupAction` | packages/adapters-postgres/src/inMemoryProductStore.ts:2238-2246 | The reaper fails a Run whose action outlived its deadline, only under a cleanup claim |
| `SandboxStores.SandboxStore.RequestTaskSandboxRelease` | packages/adapters-postgres/src/inMemoryProductStore.ts:1547-1568 | A release request ends the owned message and the terminal start, keeps an action in flight with its owner, and repeats harmlessly |
| `SandboxStores.SandboxStore.CompleteSandboxRunRelease` | packages/adapters-postgres/src/postgresProductStore.ts:988-1026 | Release replaces the Run, settles the message it owns, stores its settlement, recounts the project and answers every open request, or changes nothing; a repetition answers the terminal start only |
| `SandboxStores.SandboxStore.ClaimForCleanup` | packages/adapters-postgres/src/inMemoryProductStore.ts:2064-2082 | A cleanup claim is granted exactly to an eligible Run under its current token, and bumps it |
| `SandboxStores.SandboxStore.ReturnCleanupClaim` | packages/adapters-postgres/src/inMemoryProductStore.ts:2084-2099 | A cleanup claim is given back under the current token, which moves on; a starting Run gets the startup work of the copy that is written |
| `CleanupCopies.WriteBackReturnsClaim` | packages/application/src/sandboxLifecycleService.ts:629-653 | However a Run changes after it was read, writing the copy back under its token is exactly the returned claim: nothing but the startup work of a starting Run comes from the copy |
| `CleanupCopies.ReturnIsCleanIff` | packages/application/src/sandboxLifecycleService.ts:676-692 | Giving the claim back changes nothing else if and only if the Run is not starting or the copy has its startup work right |
| `CleanupCopies.OldCopyEndsAction` | packages/application/src/sandboxLifecycleService.ts:548-563 | A run in which a copy that is too old takes the place of the action another claimant has begun under the same token |
| `SandboxStores.SandboxStore.CountInProject` | packages/adapters-postgres/src/inMemoryProductStore.ts:1941-1941 | The count over all Runs is the number of unreleased Runs of the project |
| `SandboxStores.SandboxStore.CountInNamespace` | packages/adapters-postgres/src/inMemoryProductStore.ts:1950-1950 | The count over all Runs is the number of unreleased Runs in the namespace |
| `SandboxStores.SandboxStore.HasUnreleased` | packages/adapters-postgres/src/inMemoryProductStore.ts:2047-2047 | The scan finds an unreleased Run of the task exactly if there is one |
| `SandboxStores.SandboxStore.AdmitRun` | packages/adapters-postgres/src/inMemoryProductStore.ts:1931-1960 | The capacity gate: the project's limit first, then the namespace's, then insertion with a fresh count; a second unreleased Run of one task breaks the mutation |
| `SandboxStores.SandboxStore.RejectAdmission` | packages/adapters-postgres/src/inMemoryProductStore.ts:1962-1981 | A refused admission completes the caller's own open receipt, or the whole mutation is undone |
| `SandboxStores.SandboxStore.CreateTask` | packages/adapters-postgres/src/inMemoryProductStore.ts:1153-1209 | Task creation with claim, guards, admission and first message; an error leaves the store as it was |
| `SandboxStores.SandboxStore.RestartTask` | packages/adapters-postgres/src/inMemoryProductStore.ts:1211-1234 | A restart replaces exactly the expected released Run by a newly admitted one |
| `SandboxStores.SandboxStore.FindOtherOwner` | packages/adapters-postgres/src/inMemoryProductStore.ts:1250-1253 | The scan finds another open terminal start on the receipt's Run or the current Run exactly if there is one |
| `SandboxStores.SandboxStore.BeginTerminalStart` | packages/adapters-postgres/src/inMemoryProductStore.ts:1236-1284 | A terminal start is claimed, found in progress or answered for good, depending on the Run its receipt is bound to; a second open start on the same Run is answered with a conflict |
| `SandboxStores.SandboxStore.SendMessage` | packages/adapters-postgres/src/inMemoryProductStore.ts:1286-1337 | A message is stored with its answered receipt, restarting a released sandbox through admission where needed |
| `SandboxStores.SandboxStore.QueueMessage` | packages/adapters-postgres/src/inMemoryProductStore.ts:1734-1740 | A queued message enters a live task as pending and published; a used identifier breaks the mutation |
| `SandboxStores.SandboxStore.DeleteMessage` | packages/adapters-postgres/src/inMemoryProductStore.ts:1362-1387 | Only a pending or failed message is deleted, together with what it published; a conflict undoes the claim |
| `SandboxStores.SandboxStore.FindOlderUnresolved` | packages/adapters-postgres/src/inMemoryProductStore.ts:2588-2594 | Finds out exactly whether an older live published message of the task is still pending or dispatching |
| `SandboxStores.SandboxStore.ClaimTaskMessage` | packages/adapters-postgres/src/inMemoryProductStore.ts:1749-1764 | A pending, unclaimed, published message goes into dispatch with the active current Run as its owner, only if that Run owns nothing and nothing older is unresolved |
| `SandboxStores.SandboxStore.AcceptTaskMessage` | packages/adapters-postgres/src/inMemoryProductStore.ts:1765-1777 | Only the dispatching message the active current Run owns, under its claim, is accepted |
| `SandboxStores.SandboxStore.SettleTaskRunOwner` | packages/adapters-postgres/src/inMemoryProductStore.ts:1778-1791 | The Run gives up its message: an observed input is accepted, an unobserved dispatch fails, anything else stays |
| `SandboxOwnership.OwnerSettles` | packages/adapters-postgres/src/inMemoryProductStore.ts:1778-1791 | If the step applies, the Run owns nothing and only this message and this Run have changed: observed it is accepted, unobserved a dispatch has failed and an accepted message stays so; when it applies is stated exactly |
| `SandboxStores.SandboxStore.ObserveAccepted` | packages/adapters-postgres/src/inMemoryProductStore.ts:1597-1603 | The projector accepts a live message of the task whatever its state |
| `SandboxStores.SandboxStore.ArchiveTask` | packages/adapters-postgres/src/inMemoryProductStore.ts:1435-1447 | Archiving needs an active project and a released sandbox |
| `SandboxStores.SandboxStore.BeginTaskDeletion` | packages/adapters-postgres/src/inMemoryProductStore.ts:1449-1461 | Deletion needs an active project and a released sandbox |
| `SandboxStores.SandboxStore.PurgeTask` | packages/adapters-postgres/src/inMemoryProductStore.ts:1463-1480 | A deleted task goes with its messages and Runs, and answers exactly the receipt that asked for it |
| `SandboxStores.SandboxStore.BeginProjectDeletion` | packages/adapters-postgres/src/inMemoryProductStore.ts:498-498 | A project with live work is not put into deletion, and is taken out of it |
| `SandboxRuns.StepKeeps` | packages/adapters-postgres/src/inMemoryProductStore.ts:861-1007 | Every event of the services keeps every invariant: current Runs, message ownership, open terminal starts, exact counters, settlements, startup actions |
| `SandboxRuns.RunsKeepInvariant` | packages/adapters-postgres/src/inMemoryProductStore.ts:861-1387 | Over every sequence of events the invariants hold in every state |
| `SandboxRuns.ReachableStatesKeep` | packages/adapters-postgres/src/inMemoryProductStore.ts:861-1387 | Every state a run of the services leads to has every invariant |
| `SandboxRuns.StartsAreUnambiguous` | packages/adapters-postgres/src/inMemoryProductStore.ts:869-869 | In a reachable state the check for an ambiguous terminal-start receipt never fails |
| `SandboxRuns.OwnerIsUnique` | packages/adapters-postgres/src/inMemoryProductStore.ts:1749-1764 | No two Runs own one message |
| `SandboxTheorems.OneMessageInDispatch` | packages/adapters-postgres/src/inMemoryProductStore.ts:1749-1791 | In every reachable state a task has at most one message in dispatch, and the active current Run of the task owns it |
| `SandboxTheorems.OneUnreleasedRunPerTask` | packages/adapters-postgres/src/inMemoryProductStore.ts:2043-2050 | In every reachable state a task has at most one unreleased Run, it is the current one, and the task is live and of the same scope |
| `SandboxTheorems.OpenStartIsCurrent` | packages/adapters-postgres/src/inMemoryProductStore.ts:1236-1284 | In every reachable state an open terminal-start receipt names a starting Run that is current for a live task, owns nothing, and has no other open receipt |
| `SandboxTheorems.AdmissionInserts` | packages/adapters-postgres/src/inMemoryProductStore.ts:1931-1960 | Create, restart, terminal start and send change the Runs only by inserting their candidate through the capacity gate |
| `SandboxTheorems.TokenCountsBumps` | packages/adapters-postgres/src/inMemoryProductStore.ts:2064-2283 | Over any run a stored Run's state never falls, and its fencing token is its first value plus the number of successful bumping steps |
| `SandboxTheorems.TokenIsSpentOnce` | packages/adapters-postgres/src/inMemoryProductStore.ts:2064-2283 | Of all steps that present one token at most one bumping step ever succeeds, and the others leave every Run alone |
| `SandboxTheorems.ActionEnds` | packages/adapters-postgres/src/inMemoryProductStore.ts:2208-2283 | A startup deadline is cleared only by its owner, a failure, the reaper and the release once it has passed, or replaced by a returned cleanup claim whose copy does not have the action |
| `SandboxTheorems.ActionIsProtected` | packages/adapters-postgres/src/inMemoryProductStore.ts:2274-2335 | Over any run without an entitled ending, cleanup claim, release completion and a second action are refused until the deadline |
| `SandboxTheorems.ActionLasts` | packages/adapters-postgres/src/inMemoryProductStore.ts:2208-2283 | Over any run without an entitled ending the deadline stays as set |
| `SandboxTheorems.CleanupFencesOwner` | packages/adapters-postgres/src/inMemoryProductStore.ts:2064-2082 | After a cleanup claim no step under the old owner's token changes any Run, however much happens in between |
| `SandboxDelivery.DeliveryNeverFalls` | packages/adapters-postgres/src/inMemoryProductStore.ts:1749-1824 | Over any run the rank pending, dispatching, failed, accepted of a stored message never falls |
| `SandboxDelivery.DispatchedOnce` | packages/adapters-postgres/src/inMemoryProductStore.ts:1749-1764 | After one successful claim every later claim of the message is refused, over any run |
| `SandboxDelivery.DeliveredInOrder` | packages/adapters-postgres/src/inMemoryProductStore.ts:2588-2594 | When a message is claimed, every older live published message of the task is failed or accepted, and stays so |
| `SandboxOwnership.OwnerSettlesForGood` | packages/adapters-postgres/src/inMemoryProductStore.ts:1778-1791 | What its owner settled stays settled over any run: an observed message is accepted for good, a failed dispatch can only be found accepted later, and no Run ever owns the message again |
| `SandboxOwnership.MessageMoves` | packages/adapters-postgres/src/inMemoryProductStore.ts:1749-1791 | Whatever happens, a stored message changes only for one of the causes listed: claimed while it waits, accepted or observed, failed by its owner or with the Run that owns it, deleted while nobody delivers it |
| `SandboxOwnership.DispatchLasts` | packages/adapters-postgres/src/inMemoryProductStore.ts:1749-1791 | Over any run a message in dispatch stays as it was claimed, owned by an active Run, until its outcome is reported or its Run comes to its end |
| `SandboxOwnership.OwnershipBegins` | packages/adapters-postgres/src/inMemoryProductStore.ts:1749-1764 | A Run comes to own a message only by claiming it |
| `SandboxOwnership.MessageIsClaimed` | packages/adapters-postgres/src/inMemoryProductStore.ts:1749-1764 | Exactly when a message is claimed, and that the claim changes this message and this Run only |
| `SandboxFacts.RecordedFactsStand` | packages/adapters-postgres/src/inMemoryProductStore.ts:2135-2283 | Over any run the identity of a Run and what startup recorded about its config, its pod and its start stand |
| `SandboxEffects.ReleaseIsCompleted` | packages/adapters-postgres/src/postgresProductStore.ts:988-1026 | Exactly when a release is completed, and that it then accounts for the time since the start, takes one sandbox off the project, fails the message in delivery and answers what waited for the Run |
| `SandboxEffects.ReleaseIsRepeated` | packages/adapters-postgres/src/postgresProductStore.ts:988-1026 | Completing a release again changes nothing at all in a state with the invariants |
| `SandboxEffects.ReleaseIsRequested` | packages/adapters-postgres/src/inMemoryProductStore.ts:1547-1568 | Exactly what a request for release does to the Run, its message and the terminal starts that wait for it, and when it is a repetition |
| `SandboxAdmissions.AdmissionTells` | packages/adapters-postgres/src/inMemoryProductStore.ts:1931-1960 | The whole verdict of the capacity gate, over the stored Runs themselves |
| `SandboxAdmissions.TerminalStartTells` | packages/adapters-postgres/src/inMemoryProductStore.ts:1244-1284 | The answer of a terminal start, case by case over the stored Run, task and receipts |
| `SandboxCapacity.AdmissionGate` | packages/adapters-postgres/src/inMemoryProductStore.ts:1931-1960 | The gate refuses for capacity if and only if the project or the namespace is full; otherwise both counts rise by one |
| `SandboxCapacity.CapacityIsRespected` | packages/adapters-postgres/src/inMemoryProductStore.ts:1931-1990 | While a project's limit stands, no state of any run holds more unreleased Runs than it, and the counter agrees |
| `SandboxCapacity.NamespaceWithinLimit` | packages/adapters-postgres/src/inMemoryProductStore.ts:1931-1960 | Each successful admission leaves its namespace within the limit it was admitted under |
| `SandboxCapacity.ProjectWithinLimit` | packages/adapters-postgres/src/inMemoryProductStore.ts:1931-1960 | Each successful admission leaves its project within the limit, also if the limit was lowered below the count before |
| `UsageOverview.ReadOverview` | packages/adapters-postgres/src/inMemoryProductStore.ts:741-778 | The four figures are the sums, over the member's settlements and unreleased Runs, of started rows, of milliseconds, of CPU times milliseconds and of memory times milliseconds, a live Run counting the milliseconds since its start; the report is an integrity error exactly if a Run is not accounted for, never in a reachable state |
| `UsageOverview.TotalsAreTallies` | packages/adapters-postgres/src/inMemoryProductStore.ts:772-777 | The totals that a release conserves are these sums |
| `UsageOverview.CheckRuns` | packages/adapters-postgres/src/inMemoryProductStore.ts:761-765 | The loop accepts exactly if every Run of the member is consistent |
| `UsageOverview.AddSettled` | packages/adapters-postgres/src/inMemoryProductStore.ts:772-777 | The loop adds up exactly the settled Runs of the member |
| `UsageOverview.AddLive` | packages/adapters-postgres/src/inMemoryProductStore.ts:768-777 | The loop adds exactly the live Runs, measured at the given instant, and counts them |
| `UsageOverview.ReportIsConsistent` | packages/adapters-postgres/src/inMemoryProductStore.ts:761-766 | With the invariants every Run of the member passes the report's own check |
| `UsageOverview.ReachableReportIsConsistent` | packages/adapters-postgres/src/inMemoryProductStore.ts:761-766 | The same over every run of the services |
| `UsageOverview.ReleaseConservesTotals` | packages/adapters-postgres/src/inMemoryProductStore.ts:896-937 | Measured at the release instant, launches, duration, cpu time and memory time are the same before and after a release |
| `UsageOverview.ReleaseLowersLiveCount` | packages/adapters-postgres/src/inMemoryProductStore.ts:896-937 | A release lowers the member's count of live Runs by one |
| `UsageOverview.RepeatedReleaseChangesNothing` | packages/adapters-postgres/src/inMemoryProductStore.ts:2278-2278 | Completing a release again changes nothing the report reads |
| `ReleaseTwins.ReleasesAgreeIff` | packages/adapters-postgres/src/postgresProductStore.ts:988-1026 | The release of the in-memory store and that of the database store take the same step if and only if the copy knows the message in dispatch the stored Run owns, and a repetition finds the task live and no request to answer |
| `ReleaseTwins.ClaimedReleasesAgreeIff` | packages/application/src/sandboxLifecycleService.ts:718-745 | However a Run changes between its cleanup claim and the release under the token of that claim, the two releases part only on a repetition that is not quiet |
| `ReleaseTwins.ReleaseMakesNoDifference` | packages/adapters-postgres/src/inMemoryProductStore.ts:896-936 | Over any run in which releases follow cleanup claims and repetitions are quiet, which of the two releases the model has makes no difference to its states |
| `ReleaseTwins.InMemoryReleaseIsSafeIff` | packages/adapters-postgres/src/inMemoryProductStore.ts:896-936 | Settling the message of the caller's copy keeps the invariants if and only if that copy knows the message in dispatch the stored Run owns |
| `ReleaseTwins.InMemoryReleaseCanStrandMessage` | packages/adapters-postgres/src/inMemoryProductStore.ts:896-936 | A reachable state and a release without a cleanup claim, as only a direct caller can make it, that leave a dispatched message without any owner |
| `ReleaseTwins.RepeatCanAnswerRequest` | packages/adapters-postgres/src/postgresProductStore.ts:998-1002 | A reachable state in which a repeated release answers an open request in the in-memory store and leaves it open in the database store |
| `ProjectTables.RunsKeepRecords` | packages/adapters-postgres/src/postgresProductStore.ts:989-993 | Over any run every project has its policy and its usage counter, and nothing else has |
| `ProjectGuards.StepIsIdleIff` | packages/adapters-postgres/src/inMemoryProductStore.ts:1236-1284 | A step brings a sandbox into a project in deletion if and only if it is a terminal start whose Run belongs there; creation, restart and send never do |
| `ProjectGuards.DeletionStaysIdle` | packages/adapters-postgres/src/inMemoryProductStore.ts:498-498 | Over any run in which terminal starts find their project out of deletion, no project in deletion holds a sandbox |
| `ProjectGuards.StartCanWakeDeletion` | packages/adapters-postgres/src/inMemoryProductStore.ts:1236-1284 | A reachable project in deletion that a terminal start gives a sandbox, and that the guard would have kept idle |
| `ProjectGuards.GuardMattersIff` | packages/adapters-postgres/src/postgresProductStore.ts:1498-1498 | Adding the project guard of the database store to the terminal start changes its step if and only if the project is not available, the claim is not refused, and the answer is not a conflict anyway |
| `ProjectGuards.GuardKeepsDeletionIdle` | packages/adapters-postgres/src/postgresProductStore.ts:2490-2493 | With that guard no run whatever brings a sandbox into a project in deletion, and every invariant holds as without it |
| `ProjectGuards.RestartOrderMattersIff` | packages/adapters-postgres/src/postgresProductStore.ts:1535-1543 | Looking at the project before the claim of a restart instead of after it makes a difference if and only if the project is not active and the claim would have changed the receipts or been answered |
| `ProviderStores.ProviderStore.RollingSum` | packages/adapters-postgres/src/inMemoryProductStore.ts:699-699 | The loop over the entries yields the rolling sum of one actor on one endpoint |
| `ProviderStores.ProviderStore.WindowsAllow` | packages/adapters-postgres/src/inMemoryProductStore.ts:699-699 | The gate passes exactly if every window of the endpoint leaves room |
| `ProviderStores.ProviderStore.Reserve` | packages/adapters-postgres/src/inMemoryProductStore.ts:692-705 | A reservation passes both gates and charges the totals, or changes nothing; the books stay balanced |
| `ProviderTotals.ReservationIff` | packages/adapters-postgres/src/inMemoryProductStore.ts:696-704 | A reservation is applied if and only if its project is active, all three totals stay within their limits with it, every window of its endpoint has room and its identifier is free; it then adds exactly what it reserves |
| `ProviderStores.ProviderStore.MarkDispatched` | packages/adapters-postgres/src/inMemoryProductStore.ts:706-706 | Only a reserved entry is dispatched, and no total moves |
| `ProviderStores.ProviderStore.MarkDelivered` | packages/adapters-postgres/src/inMemoryProductStore.ts:707-707 | Only a dispatched or unknown entry is delivered, and no total moves |
| `ProviderStores.ProviderStore.MarkUnknown` | packages/adapters-postgres/src/inMemoryProductStore.ts:725-731 | Only a dispatched or delivered entry becomes unknown, and no total moves |
| `ProviderStores.ProviderStore.Settle` | packages/adapters-postgres/src/inMemoryProductStore.ts:708-724 | Settlement corrects the totals by what was reported beyond the reservation, where it was reported, once |
| `ProviderStores.ProviderStore.Fail` | packages/adapters-postgres/src/inMemoryProductStore.ts:732-737 | Only an undispatched reservation is refunded; later ones become unknown |
| `ProviderStores.ProviderStore.ExpireAll` | packages/adapters-postgres/src/inMemoryProductStore.ts:738-738 | Of the entries whose time has come the sweep fails the reserved ones and loses track of the dispatched and delivered ones, touches no other, counts them, and is a run of single expiries |
| `ProviderStores.ProviderStore.Prune` | packages/adapters-postgres/src/inMemoryProductStore.ts:739-739 | The sweep forgets only finished old entries, as many as the limit allows and all of them if there are fewer, and moves no total |
| `ProviderTheorems.RunsConserve` | packages/adapters-postgres/src/inMemoryProductStore.ts:692-739 | Over every run each total equals what the entries, stored and pruned, contribute |
| `ProviderTheorems.RefundIsExact` | packages/adapters-postgres/src/inMemoryProductStore.ts:735-735 | The clamp of a refund never changes a value |
| `ProviderTheorems.CorrectionIsExact` | packages/adapters-postgres/src/inMemoryProductStore.ts:717-718 | The clamp of a settlement never changes a value |
| `ProviderTotals.TotalsStayLimited` | packages/adapters-postgres/src/inMemoryProductStore.ts:2695-2699 | While the limits of a project stand, no run takes its requests beyond theirs, nor its tokens and cost but for what settlements reported beyond their reservations, pruned entries included |
| `ProviderLife.LifeGoesOn` | packages/adapters-postgres/src/inMemoryProductStore.ts:706-739 | Over any run a settlement stays with its report, a failure stays, and what was once dispatched is never refunded |
| `ProviderLife.EntryMoves` | packages/adapters-postgres/src/inMemoryProductStore.ts:706-738 | Which event moves an entry to which status, and that nothing else of it changes |
| `ProviderLife.OnlyReservedIsRefunded` | packages/adapters-postgres/src/inMemoryProductStore.ts:732-737 | Failing an undispatched reservation gives back all of it, and nothing else is ever given back |
| `ProviderLife.SettlementCorrects` | packages/adapters-postgres/src/inMemoryProductStore.ts:708-724 | A settlement moves the totals by what was reported less what was reserved, where something was reported |
| `ProviderLimit.GateCovers` | packages/adapters-postgres/src/inMemoryProductStore.ts:699-699 | Every interval of the window's length that holds a reservation lies in what its gate summed up, whatever the order of the timestamps |
| `ProviderLimit.RunsStayWithin` | packages/adapters-postgres/src/inMemoryProductStore.ts:692-739 | While a window stands, no interval of its length ever holds more than the limit of what was admitted |
| `ProviderLimit.RequestsAreLimited` | packages/adapters-postgres/src/inMemoryProductStore.ts:2701-2705 | The rate limit: in no interval of the window's length are there more non-failed requests of the actor than the limit |
| `ProviderLimit.SpendIsLimited` | packages/adapters-postgres/src/inMemoryProductStore.ts:2701-2711 | Tokens and cost in an interval stay within the limit plus what settlements reported beyond their reservations |
| `JsonText.NumberTextIsInjective` | packages/application/src/idempotentMutation.ts:119-122 | The text of a number determines it, but for the sign of zero |
| `JsonText.QuoteSplit` | packages/application/src/idempotentMutation.ts:118-118 | A quoted string followed by anything can be read back: the quotes delimit |
| `JsonText.QuoteIsWellFormed` | packages/application/src/idempotentMutation.ts:118-118 | Quoting leaves no lone surrogate, whatever the string |
| `NumberReading.NumberReadsBack` | packages/application/src/idempotentMutation.ts:119-122 | Every number text, read as decimal notation, denotes exactly its number; an exponent is used exactly from 1e21 on and below 1e-6 |
| `NumberReading.NumberHasNoPadding` | packages/application/src/idempotentMutation.ts:119-122 | It has not one digit too many |
| `CanonicalJson.PrintSplit` | packages/application/src/idempotentMutation.ts:117-129 | A printed value followed by anything a number cannot run into can be read back |
| `CanonicalTheorems.FieldOrderIsForgotten` | packages/application/src/idempotentMutation.ts:124-127 | Neither the order of fields nor undefined fields change the result, the reported error included |
| `CanonicalTheorems.HashableIff` | packages/application/src/idempotentMutation.ts:117-129 | There is a canonical text if and only if the request holds no non-finite number, function, symbol, big integer or undefined item |
| `CanonicalTheorems.SameIff` | packages/application/src/idempotentMutation.ts:117-129 | The normal forms of two requests are equal if and only if the requests are the same but for key order, undefined fields and the sign of zero |
| `CanonicalTheorems.HashedBytesIdentifyTheRequest` | packages/application/src/idempotentMutation.ts:113-129 | The bytes under the hash are equal if and only if the requests are the same |
| `CanonicalText.ObjectIsFields` | packages/application/src/idempotentMutation.ts:124-127 | The text of an object names exactly its defined fields, in ascending order of the code units of their keys, each quoted and with the text of its value |
| `CanonicalText.ArrayIsItems` | packages/application/src/idempotentMutation.ts:123-123 | The text of an array is the texts of its items in order |
| `Utf16.EncodeIsInjective` | packages/application/src/idempotentMutation.ts:114-114 | No two well-formed texts share a UTF-8 encoding |
| `IdempotentMutation.StepKeeps` | packages/application/src/idempotentMutation.ts:17-111 | Every step of every caller keeps the protocol's invariants |
| `MutationCalls.Calls.Begin` | packages/application/src/idempotentMutation.ts:29-55 | A caller hashes, begins and is told apart: refused, answered from the receipt, or the owner of the claim |
| `MutationCalls.Calls.Succeed` | packages/application/src/idempotentMutation.ts:66-91 | A response is returned only if the store accepted it under the caller's claim; otherwise the caller fails with a conflict |
| `MutationCalls.Calls.Report` | packages/application/src/idempotentMutation.ts:92-110 | An error is stored under the caller's claim, unless server errors are to be retried, and thrown in any case |
| `MutationTheorems.ReportedErrorStands` | packages/application/src/idempotentMutation.ts:92-110 | Once the holder of the open claim reports an error, and completes server errors or the error is none, everyone who makes the request later gets exactly that status and nobody runs again |
| `MutationTheorems.ServerErrorIsRetried` | packages/application/src/idempotentMutation.ts:92-95 | A server error of a caller that wants a retry leaves the receipt open, and the next to begin after the lease runs |
| `MutationTheorems.ReturnedValueStands` | packages/application/src/idempotentMutation.ts:66-91 | A returned value is what everyone who makes the request later gets, and nobody runs again |
| `MutationTheorems.ClaimIsForHalfAMinute` | packages/application/src/idempotentMutation.ts:32-55 | For 30 seconds after a claim nobody else runs, whatever happens; afterwards the next to make the request runs if and only if the receipt was not completed |
| `MutationTheorems.AnswerStands` | packages/application/src/idempotentMutation.ts:43-55 | A completed receipt tells everyone the same, over any run |
| `IdempotentMutation.ReturnsAgree` | packages/application/src/idempotentMutation.ts:17-111 | For any interleaving with leases and takeover, all callers that return a value under one key return the same value, and made the same request |
| `IdempotentMutation.OwnersRunOneRequest` | packages/application/src/idempotentMutation.ts:32-64 | Whoever runs under one key, at whatever times of a run, runs the same request on the same resource, each under a token of its own |
| `IdempotentMutation.ReceiptsGrow` | packages/adapters-postgres/src/inMemoryProductStore.ts:1482-1495 | Over any run a receipt keeps its hash and resource, and a completed receipt never changes |
| `IdempotentMutation.LostClaimHasNoEffect` | packages/adapters-postgres/src/inMemoryProductStore.ts:1539-1546 | A caller whose claim was taken over can neither complete nor change any receipt, nor return a value |
| `IdempotentMutation.LostCallerNeverReturns` | packages/application/src/idempotentMutation.ts:17-111 | Over any run a caller that lost its claim never returns a value and never holds the claim again |
| `IdempotentMutation.DifferentRequestIsRefused` | packages/application/src/idempotentMutation.ts:43-43 | A request that differs from the one the receipt was opened for is turned away and changes nothing |
| `ContextText.RenderedBytes` | packages/application/src/contextService.ts:155-159 | The size of the text follows from the full sizes of its entries and the trimmed size of the last one |
| `ContextText.RenderingGrows` | packages/application/src/contextService.ts:157-162 | One more entry never makes the text smaller, wherever it sorts |
| `ContextText.RenderingOrder` | packages/application/src/contextService.ts:169-182 | The text has every effective entry once, in collation order, and ties keep the order in which they were found |
| `ContextResolver.ListPage` | packages/adapters-postgres/src/inMemoryProductStore.ts:1031-1037 | A page is the matching entries after the cursor, sorted by the bytes of their keys, cut at the limit |
| `ContextResolver.WritesKeepKeysApart` | packages/adapters-postgres/src/inMemoryProductStore.ts:1022-1040 | Over any sequence of creations, updates and deletions every scope holds each key at most once, code unit by code unit; this is all the stream and the resolver ask of the store |
| `ContextResolver.StreamEntries` | packages/application/src/contextService.ts:185-199 | Page after page: each goes on behind everything that ties with the last key of the one before, until one is short |
| `ContextResolver.StreamIsListingIff` | packages/application/src/contextService.ts:185-199 | The stream is the whole listing of the scope, each entry once and in order, if and only if no page ends between two keys that tie |
| `ContextResolver.PageGoesOn` | packages/adapters-postgres/src/inMemoryProductStore.ts:1031-1037 | A page after a cursor, filtered first and sorted then, is the rest of the sorted listing behind all ties with the cursor |
| `ContextResolver.TiedKeyIsLost` | packages/adapters-postgres/src/inMemoryProductStore.ts:646-646 | 101 keys that the store keeps apart and the listing does not: the last one is never delivered |
| `ContextResolver.WellFormedKeysAreKept` | packages/adapters-postgres/src/inMemoryProductStore.ts:2720-2720 | Distinct well-formed keys never tie in the order of the listing, so the stream loses nothing |
| `ContextResolver.KeysAreKept` | packages/application/src/contextService.ts:154-154 | No key of any scope is lost |
| `ContextResolver.MostSpecificScopeWins` | packages/application/src/contextService.ts:147-154 | A stored entry is effective if and only if no more specific scope has its key |
| `ContextTheorems.EffectiveIff` | packages/application/src/contextService.ts:147-154 | For a user in a project of a workspace, exactly which stored entries are effective: personal before shared, project before workspace, and nothing of another user, project or workspace |
| `ContextTheorems.ResolutionIsText` | packages/application/src/contextService.ts:168-183 | What the agent gets: nothing for no entries, a refusal beyond 32768 bytes, and otherwise the heading, the description and one section per entry, line by line |
| `ContextResolver.Consider` | packages/application/src/contextService.ts:154-165 | One entry: skipped if its key is known, otherwise accepted exactly if the text with it fits, with the running totals still exact |
| `ContextResolver.AddEntries` | packages/application/src/contextService.ts:153-166 | A scope is accepted exactly if the text after it fits, although the loop stops at the first entry that does not |
| `ContextResolver.ResolveForAgent` | packages/application/src/contextService.ts:141-183 | Refused if and only if the text of the effective entries the pages deliver is larger than 32 KiB, otherwise exactly that text; where no page ends between ties these are all effective entries |
| `InteractionLog.InteractionStore.Append` | packages/adapters-postgres/src/inMemoryProductStore.ts:1834-1851 | A batch is appended with fresh numbers, skipping what its source already published, or undone as a whole |
| `InteractionLog.InteractionStore.Remove` | packages/adapters-postgres/src/inMemoryProductStore.ts:1375-1379 | Deleting a message takes out exactly what it published |
| `InteractionLog.InteractionStore.ReadSnapshot` | packages/adapters-postgres/src/inMemoryProductStore.ts:2548-2555 | The loop selects per interaction the change with the highest revision |
| `InteractionLog.RunsKeepLog` | packages/adapters-postgres/src/inMemoryProductStore.ts:1834-1851 | Over any run numbers grow per task, revisions grow per interaction at a fixed position, product revisions grow per source, and appending only extends |
| `InteractionLog.LatestIsLast` | packages/adapters-postgres/src/inMemoryProductStore.ts:1843-1844 | The change with the highest revision is the last one of its interaction |
| `LogTheorems.AppendingTells` | packages/adapters-postgres/src/inMemoryProductStore.ts:1834-1851 | A change is accepted if and only if it is proper and was published before or goes on from every stored change of its source and its interaction; it gets the number after the highest of its task |
| `LogTheorems.NumbersHaveNoGap` | packages/adapters-postgres/src/inMemoryProductStore.ts:1834-1851 | While nothing is deleted the changes of every task are numbered without a gap, over any run |
| `LogTheorems.SnapshotShowsLatest` | packages/adapters-postgres/src/inMemoryProductStore.ts:2548-2555 | A snapshot shows the last change of an interaction, which has the highest revision |
| `LogTheorems.PageIsFull` | packages/adapters-postgres/src/inMemoryProductStore.ts:1649-1666 | A page holds the first changes after the cursor, as many as asked for and at least one |
| `InteractionLog.AppendingAgainIsNoOp` | packages/adapters-postgres/src/inMemoryProductStore.ts:1839-1840 | Appending a batch again changes nothing, also after other batches |
| `InteractionLog.SnapshotIsReplay` | packages/adapters-postgres/src/inMemoryProductStore.ts:2548-2555 | Selecting the highest revision and letting the last write win come to the same |
| `InteractionLog.ReaderCatchesUp` | packages/adapters-postgres/src/inMemoryProductStore.ts:1635-1666 | Over any run without deletion a snapshot and the changes after it are the later snapshot |
| `InteractionLog.PagesAreConsecutive` | packages/adapters-postgres/src/inMemoryProductStore.ts:1649-1666 | The next change page goes on where the last one ended: nothing is skipped or shown twice |
| `InteractionLog.ReaderFollowsLog` | packages/adapters-postgres/src/inMemoryProductStore.ts:1635-1666 | A reader that takes a snapshot and pages on while batches are appended in between is shown every later change once and in order, and has the current snapshot once a page is empty |
| `InteractionLog.NextChangeIsShownIff` | packages/adapters-postgres/src/inMemoryProductStore.ts:1834-1851 | After deletions a reader is shown the next change if and only if a change with its last number or a later one is still stored |
| `InteractionLog.ReusedNumberIsMissed` | packages/adapters-postgres/src/inMemoryProductStore.ts:1834-1851 | A run of appends and a deletion after which a number is given out again and a reader misses the new change |
| `FileLibraryStores.LibraryStore.BindTask` | packages/adapters-postgres/src/inMemoryProductStore.ts:1178-1184 | A task binds a stored, active, unbound library of its project, or a new one; a refusal leaves no library behind |
| `FileLibraryStores.LibraryStore.BeginDeletion` | packages/adapters-postgres/src/inMemoryProductStore.ts:385-429 | Deletion opens only for an unbound library, keeps a deletion in progress, and answers from an earlier one if the library is gone |
| `FileLibraryStores.LibraryStore.ClaimDeletion` | packages/adapters-postgres/src/inMemoryProductStore.ts:430-440 | The physical deletion is claimed when unclaimed, expired or already the caller's |
| `FileLibraryStores.LibraryStore.PersistDeletion` | packages/adapters-postgres/src/inMemoryProductStore.ts:445-453 | Only the live owner records progress, and only forward |
| `FileLibraryStores.LibraryStore.RenewDeletion` | packages/adapters-postgres/src/inMemoryProductStore.ts:454-462 | Only the live owner renews |
| `FileLibraryStores.LibraryStore.FinalizeDeletion` | packages/adapters-postgres/src/inMemoryProductStore.ts:472-495 | Only the live owner of a removed, unbound library finalizes, and every waiting receipt is answered |
| `FileLibraryStores.Heartbeat.Renew` | packages/application/src/fileLibraryService.ts:512-521 | A failed beat counts the claim as lost for good |
| `FileLibraryStores.Heartbeat.Finalize` | packages/application/src/fileLibraryService.ts:474-480 | The finalization is attempted exactly if no beat, the last one included, has failed |
| `FileLibraryStores.Remove` | packages/application/src/fileLibraryService.ts:138-241 | A removal succeeds if and only if its receipt was granted, the library is unbound, nobody else has the deletion, and every beat and record comes in time and in order until something is removed; the library is gone then and its receipt answered. A bound or unknown library is told as such, exactly; in all other cases the library stays and the claim is given back |
| `FileLibraryStores.DoWork` | packages/application/src/fileLibraryService.ts:203-213 | The physical deletion comes through with its claim if and only if no beat failed and every beat and record was in time and in order |
| `FileLibraries.StepKeeps` | packages/adapters-postgres/src/inMemoryProductStore.ts:385-495 | Every step keeps: a library is bound to one task at most, a bound library is not being deleted, a deletion has its record |
| `FileLibraries.RunsKeep` | packages/adapters-postgres/src/inMemoryProductStore.ts:385-495 | The same over every run |
| `FileLibraries.BoundCheckNeverRefuses` | packages/adapters-postgres/src/inMemoryProductStore.ts:472-479 | Finalization is applied if and only if its other conditions hold: the bound check is never what refuses it |
| `FileLibraries.DisplacedForGood` | packages/application/src/fileLibraryService.ts:138-241 | Over any run a displaced remover has no effect ever after |
| `FileLibraries.ExpiredForGood` | packages/adapters-postgres/src/inMemoryProductStore.ts:445-480 | Over any run a remover whose lease ran out can never again persist, renew or finalize |
| `FileLibraries.LiveClaimHolds` | packages/adapters-postgres/src/inMemoryProductStore.ts:430-480 | Over any run, until a claim runs out its deletion stays exactly as the owner left it |
| `FileLibraries.ProgressOverRuns` | packages/ports/src/store.ts:1238-1253 | Over any run a stored library's deletion never moves back and never changes what it deletes |
| `FileLibraries.FinalizedOncePerCreation` | packages/application/src/fileLibraryService.ts:138-241 | However many removers race, a library is finalized at most once each time it is created |
| `FileLibraryEffects.DeletionIsFinalized` | packages/adapters-postgres/src/inMemoryProductStore.ts:472-495 | Exactly when a deletion is finalized, and that every receipt waiting for it is answered and no other |
| `LifecycleLock.Lock.Enter` | packages/application/src/fileLibraryLifecycleLock.ts:4-7 | A caller takes the last promise of its project and becomes the last one |
| `LifecycleLock.Lock.Resume` | packages/application/src/fileLibraryLifecycleLock.ts:8-10 | The action starts once the awaited promise is resolved |
| `LifecycleLock.Lock.Leave` | packages/application/src/fileLibraryLifecycleLock.ts:11-14 | The promise is resolved, and the map is cleared if nobody came after |
| `LifecycleLock.OneActionAtATime` | packages/application/src/fileLibraryLifecycleLock.ts:3-15 | For any number of callers in any interleaving at most one action runs per project |
| `LifecycleLock.FirstComeFirstServed` | packages/application/src/fileLibraryLifecycleLock.ts:3-15 | Once a caller has started, everyone who arrived before it is done |
| `LifecycleLock.MapHoldsKeyIff` | packages/application/src/fileLibraryLifecycleLock.ts:13-13 | The map holds a project if and only if someone runs or waits for it |
| `LifecycleLock.NobodyIsForgotten` | packages/application/src/fileLibraryLifecycleLock.ts:8-13 | While someone waits, an action runs or the next caller can start |

## Left out

- SandboxModel: titles, audit events, response bodies, presentation, runtime documents, update stamps and the measurement of project files; none of them guards a step.
- SandboxModel: editing a message, which changes its text only, and rewriting the stored reply of a message receipt when its message settles later.
- SandboxModel: the raw updates of tasks, Runs and usage, and creating a task together with an already released Run; the fenced raw update appears only as the return of a cleanup claim.
- SandboxStores.SandboxStore.CreateTask: does not model the file-library guards, whose verdict is an input; `FileLibraryStores.LibraryStore.BindTask` computes it.
- SandboxStores.SandboxStore.SendMessage: does not model the batch of interactions a message brings, only that the message is published; `InteractionLog` models the batches.
- SandboxStores.SandboxStore.ObserveAccepted: does not model what the projector publishes beside the acceptance, nor the rewriting of the stored reply.
- SandboxStores.SandboxStore.BeginProjectDeletion: does not model the scan for live provider work, whose result is an input.
- SandboxStores: finalizing a project, changing its limit and changing its lifecycle are modelled on values only; of the cascade of a project deletion the model keeps the effect on tasks, Runs, messages, receipts, policies, usage and settlements.
- SandboxStores: the Runs are a field of the one store object rather than an object of their own, so that the separation of the two objects is not modelled.
- SandboxModel: the messages, an array in the in-memory store, are a map from identifier to message; their order in the array is not modelled, their order by creation time is. The guards of task creation about file libraries enter as an input, and are modelled in FileLibraries.
- UsageOverview.ReadOverview: does not model the provider part of the report, the membership check, the selected endpoint and the check that every figure is a safe integer.
- ProviderLedger: cost is a natural number; rounding of fractional cost is not modelled.
- ProviderTheorems.RunsConserve: does not model adjustments of the provider totals by a caller's delta; the store offers them, but the services call them with file bytes only and zero for the provider figures.
- ProviderStores.ProviderStore.Prune: does not model which of the eligible entries go first when there are more than the limit.
- ProviderStores: endpoint deletion, project deletion and policy changes are modelled on values only.
- CanonicalJson: arrays with holes, and objects whose own keys change while they are read. The digest is assumed not to collide, so the hashed bytes stand for it. That the shortest decimal digits identify a number is assumed of the number type.
- IdempotentMutation: what a mutation does beside completing its receipt, and the texts of its errors; deleting a project's receipts.
- ContextResolver: authorization, entries that change while they are streamed, and the texts of the heading and the description, which are parameters; so is the collation behind `localeCompare`.
- InteractionLog: artifacts, the source cursor, queued and suppressed messages in pages, the anchors of a snapshot's own pages, and lookups by correlation.
- FileLibraries: the walk over the file system, name and root rules of libraries (an input), and audit events. The phases are the two the store records.
- FileLibraryStores.Remove: does not model other removers acting between its calls to the store; what happens then is stated over the events of `FileLibraries`.
- FileLibraryStores.Heartbeat.Renew: does not model the timer between beats, nor that a beat in flight is shared by those who wait for it.
- The database store beyond its release and the two guards of `ProjectGuards`: it locks the project before it claims a receipt also where a message is sent with a restart, leaves the lease alone when a holder claims again, ties a terminal start to its task by a column of its own, and checks namespaces before anything else.
- HTTP routing, sign-in, the terminal proxy, SQL text and row mapping, lock acquisition in the database, and the lease store, whose tokens start again after a release.
