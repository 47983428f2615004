# A model of the memoh bot runtime

This project states, in Dafny, how the server keeps a bot's workspace, Apps,
history and channel connections consistent, and proves it.

- **Bot workspaces** (`Workspace`, `Repository`, `Passes`, `Protocol`, `Fencing`,
  `Runs`, `Lease`, `Convergence`, `Progress`, `Fairness`, `Scenarios`). Many server instances
  share one row per bot. The protocol is a state machine in which every statement,
  reply, backend effect, crash and clock tick is a step of its own; the results hold
  for every interleaving of any number of instances, observers and users, and
  `Fairness` is about endless runs.
  `Reconciler` is the in-process code of a pass, with everybody else changing the
  row in between, written with the same write functions as the protocol; `Slots` is
  the claiming loop with its pools.
- **Bot deletion** (`Deletion`, `BotLifecycle`) sits on runs of that protocol.
- **Apps** (`InstallOrder`, `AppRecords`, `AppRemoval`, `AppInstall`): installing,
  pruning and removing Apps that share dependencies and connections by reference,
  with every call able to fail.
- **History restore** (`SessionForest`, `Turns`, `TurnRestore`, `TurnRebuild`).
- **Channel connections** (`Connections`): a machine of critical sections and the
  manager that runs through them.

`Options` and `Sets` hold what several of these share.

Time is integer nanoseconds on one clock. Failures, backend answers, random factors
and the order of maps are arbitrary. Where a contract depends on what a collaborator
answered, the class keeps a ghost log of the calls with their answers; where the code
promises something unless a call fails, a `healthy` collaborator is one that does not.

## Where the code does not keep what it says

Each of these is kept as the code has it; for the promises among them the condition
under which they hold is proved.

1. *Two instances never drive the same workspace at once*
   (`internal/botworkspace/service.go:852-855`). The deferred release of `Observe`
   matches the owner only, so it can strip the lease of a pass that the same instance
   began after the observation's own write gave the lease up; another instance may
   then claim the row. `Lease.MutualExclusion` holds on all timely runs without such
   a step, `Lease.StrippedLeaseBreaksExclusion` shows that after any such step a second
   instance can join the first in the backend, `Lease.ObservedDriftLeadsThere` shows how it comes about.
2. *The bot row is deleted only once the workspace is observed absent*
   (`internal/bots/service.go:779-784`). A failed removal may be withdrawn while the
   deletion waits, by a cancellation whose inspection is older than the workspace;
   the row then reads absent, present again and final. `Deletion.DeletionIsHonest`:
   an accepted row stands for a real removal exactly if it is still unwanted, which
   the reader of the row can check and the code does not. `Deletion.AcceptedWhileRunning`
   is a run on which the deletion goes ahead all the same.
3. *A failed deletion puts the bot back where it came from*
   (`internal/bots/service.go:703-705`). `BotLifecycle.PutBack`: exactly for bots that
   were ready or failed. A bot still being created becomes ready, and so does a failed
   bot whose deletion is requested again while it is deleting.
4. *A bot that is being deleted keeps that status*
   (`internal/bots/service.go:317-318`). `BotLifecycle.KeepsDeleting`: whatever is
   derived from then on, exactly if no derived status for it had passed its check by
   then; one that had is written over it.
5. Withdrawing a removal clears the error phase but not the error code
   (`db/postgres/queries/bot_workspaces.sql:21-45`); the model follows the statement.
6. An App can stay partial although all its required connectors carry a connection:
   linking keeps an old connection id that is no longer active
   (`db/postgres/queries/apps.sql:144-151`), while the status looks at the active
   ones. `AppInstall.PartialThoughLinked`: with every step gone well it is installed
   exactly if every required reference carries the active connection of its type, and
   partial with all of them carrying one exactly if a required type has no active
   connection and each such one was linked before. `AppInstall.StaleLinkStaysPartial`
   is such an App.
7. *A user-opened turn is bound to its first assistant message*
   (`internal/botbackup/import.go:1801-1829`). The binding claims the number 2, which
   is unique in a turn (`db/postgres/migrations/0001_init.up.sql:1624-1627`); a message
   between the two already has it, the statement fails and with it the whole import.
   `TurnRebuild.RebuildTurns`: on a database in order a rebuild goes through exactly if
   no session has such a turn, and `TurnRebuild.RebuiltTurnReads` that every turn then
   has its first assistant message as its answer. `Turns.LateAnswer` is the shortest
   case: a user, a tool, the assistant. A turn that opens with neither a user nor the
   assistant is bound to its first message and still has no answer.
8. *Each recorded turn is restored* (`internal/botbackup/import.go:1663-1713`). One
   without request and answer is first opened with its first archived message as
   number 2; when that message's own number comes later and another message has the
   number 2, linking the latter fails. `TurnRestore.WriteGroup`: on a database in order
   a turn is restored exactly if its messages are in one session, their numbers differ
   and this is not so. `TurnRestore.DisplacedTurn` is such a turn.

## Model

| member | source | states |
|---|---|---|
| Workspace.PendingIffSomethingToDo | db/postgres/queries/bot_workspaces.sql:51-87 | the claim takes exactly the rows on which a pass has something to do, less the removals that failed: the SQL condition, `Decide` and the caught-up test agree |
| Workspace.SettledRowsStillClaimed | internal/botworkspace/types.go:78-92 | a settled row is claimed again only as a failed provisioning or a vanished wanted workspace |
| Workspace.StatusOfAReadyBot | internal/botworkspace/decision.go:81-99 | a row that was ready once never derives `creating` or `failed`, and an unwanted one derives no status at all |
| Workspace.NextBackoff | internal/botworkspace/decision.go:64-76 | the doubling loop in int64: now + min(cap, base * 2^(max(attempts,1)-1)) whenever no doubling below the cap wraps around |
| Workspace.BackoffIsExact | internal/botworkspace/decision.go:62-76 | the exponential delay is met for every attempt exactly if no 2^62 <= base * 2^k < cap; otherwise some attempt is scheduled in the past |
| Workspace.BackoffMonotone | internal/botworkspace/decision.go:62-76 | later attempts never wait less, and never more than the cap |
| Workspace.JitterBounds | internal/botworkspace/service.go:806-827 | a jittered delay lies within a fifth of the delay, up to the truncated nanosecond |
| Workspace.FastWindowWithinAFifth | internal/botworkspace/service.go:809-827 | so does the sum of all fast retry delays, whatever the random factors |
| Repository.NewIntentFences | db/postgres/queries/bot_workspaces.sql:4-19 | after a new intent no write prepared on an earlier version lands, nothing a pass wrote answers it, the row is due as soon as the lease allows with its whole retry budget, and the lease is neither taken nor shortened |
| Repository.LastIntentCounts | db/postgres/queries/bot_workspaces.sql:4-19 | of several intents the last decides; an earlier one leaves its generation, and its image if the later names none |
| Repository.Repository.CancelRemoval | db/postgres/queries/bot_workspaces.sql:21-45 | only a settled failed removal can be withdrawn, in one write that wants the workspace again and records it as it stands |
| Repository.Repository.Claim | db/postgres/queries/bot_workspaces.sql:51-87 | leases at most `limit` due rows that want the given state, none of them due later than one left out, and nothing else changes |
| Repository.Repository.ClaimOne | db/postgres/queries/bot_workspaces.sql:89-101 | leases one row, due or not, exactly when nobody holds an unexpired lease |
| Repository.Repository.Renew | internal/botworkspace/repository.go:146-163 | extends the lease of its owner only and leaves the version alone |
| Repository.Repository.WriteObserved | internal/botworkspace/repository.go:165-191 | lands exactly when owner and version match, else conflicts and changes nothing |
| Repository.ReleaseFrees | internal/botworkspace/repository.go:193-203 | a release by the holder frees the row for everybody and ends all writing under that lease; by anybody else it changes nothing, and never more than the lease |
| Passes.FailureInsideBudget | internal/botworkspace/service.go:649-687 | a recorded provisioning failure is retried fast exactly when it is retryable and budget remains, and is final otherwise |
| Passes.FailedRemovalWaits | internal/botworkspace/service.go:722-754 | a removal reads failed exactly when it will not be retried and the backend still holds the workspace; then it is final and never due |
| Fencing.EveryStep | internal/botworkspace/service.go:599-768 | each of the 32 protocol steps keeps the fencing, honesty and data-safety invariant, and time, version, intents and observed generation only grow |
| Runs.EveryState | internal/botworkspace/service.go:558-768 | the invariant holds in every state of every run of any number of instances |
| Runs.RunsGrow | internal/botworkspace/service.go:599-644 | along every run the observed generation never decreases and never exceeds the desired one |
| Runs.WritesLandOnTheirIntent | internal/botworkspace/service.go:599-644 | a write of a pass lands exactly when nothing but the lease changed since its last one and the lease is its own, and then answers the very intent the row carries |
| Runs.OnlyWritersObserve | internal/botworkspace/service.go:599-768 | no other step changes what a row reports |
| Runs.SupersededForever | internal/botworkspace/service.go:587-597 | a superseded pass stays superseded, so no further write of it lands |
| Runs.BackendOnlyAfterEntry | internal/botworkspace/service.go:599-613 | whoever drives the backend landed the version-checked entry write before and acts on that very row |
| Runs.AbsentAnswersAreHonest | internal/botworkspace/service.go:707-768 | a caught-up `absent` under a requested removal means that the backend reported the workspace gone after that removal was recorded |
| Runs.LossNeedsAnUnpreservedRemoval | internal/botworkspace/service.go:707-722 | only a teardown pass that landed `removing` for a recorded removal without preservation can lose data |
| Runs.ReplacingWasStale | internal/botworkspace/service.go:884-906 | whoever replaces a container has seen, in an inspection of its own on that very never-ready row, that it was built from another image |
| Runs.ReplacementIsPreserving | internal/botworkspace/service.go:884-906 | every backend effect of a pass that is no teardown keeps all data, and a container is removed only by one that has seen the other image |
| Runs.DataSurvives | internal/botworkspace/decision.go:56-60 | everything users stored stays in container or archive on every run without an unpreserved removal and without outside deletion |
| Lease.DefaultsFit | internal/botworkspace/service.go:69-122 | the default options leave 100 s of work inside a 120 s lease |
| Lease.TimedStep | internal/botworkspace/service.go:852-882 | every timely step that strips no lease of an active pass keeps: active passes hold an unexpired lease that covers what is left of them |
| Lease.MutualExclusion | internal/botworkspace/service.go:852-882 | on timely runs that strip no lease two instances never operate on one workspace at once, and the operating one holds an unexpired lease |
| Lease.StrippedLeaseBreaksExclusion | internal/botworkspace/service.go:844-850 | the exception is exact: once an observation strips the lease under which a pass of its own instance works or, having landed its entry write, is about to, that pass goes on into the backend and any other instance can join it there at once |
| Lease.ObservedDriftLeadsThere | internal/botworkspace/service.go:305-359 | an on-demand observation of a vanished workspace leads there without any slow step |
| Convergence.LandedWork | internal/botworkspace/service.go:599-687 | a landed write of a live pass leaves a wanted row provisioning with the same budget, failed with one attempt more, or done |
| Convergence.DoneIsLeftAlone | internal/botworkspace/decision.go:47-52 | a running or stopped caught-up row is neither claimed nor written by any pass |
| Convergence.Account | internal/botworkspace/service.go:457-505 | over any stretch under a fixed present intent each claim is matched by a pass still at work, a setback, or the one success |
| Convergence.Converges | internal/botworkspace/service.go:558-644 | so at most one claim more begins than there are setbacks and live passes, and once claims outnumber them the row is settled with nothing to decide |
| Convergence.DoneStays | internal/botworkspace/service.go:558-578 | and stays so until a new intent or observation |
| Convergence.InterruptedWorkIsRepeated | internal/botworkspace/decision.go:29-34 | however passes are interrupted, an unfinished row keeps asking for the same action |
| Convergence.RetryBudget | internal/botworkspace/service.go:649-687 | the failure that is the `MaxAttempts`th since the intent leaves a final row |
| Convergence.FailedRemovalsAreFinal | internal/botworkspace/service.go:722-768 | in every state of every run a removal that reads `failed` is final, so those who wait for it are told |
| Progress.DueInTheEnd | db/postgres/queries/bot_workspaces.sql:51-87 | a pending row is due exactly from the later of its next attempt and the end of its lease |
| Progress.NeverStuck | internal/botworkspace/service.go:457-505 | from any state in which the row is due, one idle instance with a working backend settles it: built if wanted, gone if not |
| Fairness.RankFalls | internal/botworkspace/service.go:558-768 | each step with which a pass gets on, as opposed to renewing its lease, lowers its rank or answers the intent |
| Fairness.CanGetOn | internal/botworkspace/service.go:558-768 | a pass always has such a step |
| Fairness.SetbacksAreThose | internal/botworkspace/service.go:599-687 | for a wanted workspace the setbacks excluded from fair runs are those that the account of claims counts |
| Fairness.FairRunsSettle | internal/botworkspace/decision.go:29-54 | on every endless run on which intents and setbacks cease, only settled rows are observed and none of them is found vanished, time goes on, no pass stands still and no row stays due unclaimed, there is a moment from which a wanted workspace is settled with nothing left to decide |
| Fairness.FairRemovalsSettle | internal/botworkspace/service.go:707-768 | on every such run there is a moment from which a requested removal reads `absent`, reported by the backend under that very request, or a final `failed` |
| Fairness.FairRunExists | internal/botworkspace/service.go:443-454 | such runs exist for every configuration: a workspace built and left alone |
| Fairness.ScanningRunExists | internal/botworkspace/service.go:778-803 | among them runs on which the settled workspace is observed over and over, for ever |
| Fairness.RemovingRunExists | internal/botworkspace/service.go:707-768 | and runs of a removal |
| Reconciler.Service.WriteObserved | internal/botworkspace/service.go:831-842 | a version-checked write among concurrent changes: it lands on the row last read or not at all, either way it goes on record with whether it landed, and the service notes whether anything newer was recorded |
| Reconciler.Service.ReplaceStaleContainer | internal/botworkspace/service.go:891-906 | asks nothing about a workspace that was ready once; tears down, with preservation, exactly when the backend answered with another image |
| Reconciler.ProvisionCallsMean | internal/botworkspace/service.go:599-644 | the calls of a provisioning went well exactly when the last is a provisioning of the requested image that worked; a teardown among them preserves and follows a look at another image |
| Reconciler.Service.Fail | internal/botworkspace/service.go:649-687 | tries to write the failure of the attempt on the row entered; that is recorded exactly if it lands, and the bot status follows what was recorded |
| Reconciler.Service.Provision | internal/botworkspace/service.go:599-644 | tries the entry write and, if that does not land, nothing more; otherwise it prepares and provisions the claimed image once and tries one more write: `running` exactly when the backend answered that this worked, and else the failure of the call that ended it; nothing else is written |
| Reconciler.Service.Teardown | internal/botworkspace/service.go:707-768 | one teardown with the claimed preserve flag after a landed entry write, then one more write: `absent` exactly when it worked, `failed` exactly when it is not retried and the backend did not say that nothing is left; nothing else is written |
| Reconciler.Service.ReconcileOne | internal/botworkspace/service.go:558-578 | a pass asks and tries to write what `Decide` says and nothing else, whether its writes land or not; what it records answers the claimed intent and what the backend answered; a provisioning tears down only a never-ready workspace of another image, with preservation |
| Reconciler.Service.Observe | internal/botworkspace/service.go:305-359 | looks at most once, never provisions or tears down, leaves a requested removal alone, tries at most one write and only of what the backend answered |
| Slots.Slots.FreeSlots | internal/botworkspace/service.go:511-524 | the free slots of a pool are its size less the rows held for it |
| Slots.Slots.MarkRunning | internal/botworkspace/service.go:528-536 | a slot is taken exactly when this process has no pass over the row |
| Slots.Slots.FinishPass | internal/botworkspace/service.go:482-501 | a pass gives up the lease it owns, then its slot, and wakes the loop exactly when it left something recorded |
| Slots.Slots.StartAll | internal/botworkspace/service.go:468-505 | while other passes end, every claimed row is started or is one this process still works on, and no pool exceeds its size |
| Slots.Slots.ClaimInto | internal/botworkspace/service.go:457-506 | never more rows are claimed than can start; a due row of the pool not held here is left out only when the slots ran out, for rows due no later; skipped and more say exactly whether slots or rows were short |
| Slots.Slots.ReconcileOnce | internal/botworkspace/service.go:443-454 | all pools in turn keep one pass per bot and every pool within its size; if it reports no shortage every due row not held here was claimed |
| Deletion.DeletionIsHonest | internal/bots/service.go:785-799 | an accepted removal is real - no pass will build the workspace and the backend reported it gone under that very intent - exactly if the accepted row is still unwanted |
| Deletion.AcceptedIsReadable | internal/botworkspace/types.go:94-109 | that can be read off the row: unwanted exactly when nothing is left to decide, and when no pass will take it |
| Deletion.StaleCancellationIsAccepted | internal/botworkspace/service.go:213-227 | a cancellation is taken for a finished removal exactly when its inspection found nothing, however old that is |
| Deletion.AcceptedWhileRunning | internal/bots/service.go:794-799 | a run on which the deletion would go ahead while the workspace runs and is wanted again |
| BotLifecycle.PutBack | internal/bots/service.go:703-718 | a failing deletion returns a bot to where it was exactly when that was ready or failed |
| BotLifecycle.KeepsDeleting | internal/bots/service.go:319-335 | a bot being deleted keeps that status, whatever is derived from now on, exactly when no derived status for it has already passed its check |
| BotLifecycle.Bots.Meanwhile | internal/bots/service.go:317-336 | whatever the reconciler does meanwhile is a sequence of such checks and writes |
| BotLifecycle.Bots.Delete | internal/bots/service.go:695-725 | marks the bot deleting and answers with the status to return to, or changes nothing |
| BotLifecycle.Bots.CleanupConnectors | internal/connectors/service.go:247-268 | on success no binding of the bot has a live connection; other connections stay |
| BotLifecycle.Bots.RevokeCredentials | db/postgres/queries/agent_credentials.sql:80-96 | revokes exactly the active credentials that only this bot uses |
| BotLifecycle.Bots.Await | internal/botworkspace/service.go:284-301 | answers only with a final row at least as new as the generation, never with a failure inside its fast budget; gives up only after a failed call or at the end of a run whose last row is no answer |
| BotLifecycle.Bots.RemoveWorkspace | internal/bots/service.go:785-800 | success means a removal recorded and later accepted on the run, a real one exactly if the accepted row is still unwanted; failure means a failed call, an answer that is not absent or a run without an answer |
| BotLifecycle.Bots.RunDeleteLifecycle | internal/bots/service.go:753-820 | the row goes only after every cleanup, and does go when no call fails, all bindings can be closed and the run answers the removal with an absent workspace; any other way out has a cause, keeps the row and asks last for the status to revert to, which the bot then carries unless that write failed; no active credential is orphaned |
| InstallOrder.Walk.Visit | internal/workspacedeps/requires.go:49-69 | appends an id after all it requires, or exhibits a chain to an unknown dependency or around a cycle |
| InstallOrder.ExpandedOrder | internal/workspacedeps/requires.go:36-76 | an order exists exactly when no such chain does; it holds what is transitively required and nothing else, once each, prerequisites first |
| AppRecords.Bot.Upsert | db/postgres/queries/apps.sql:30-46 | one record per App; an App the user asked for stays so |
| AppRecords.DeletionTakesReferences | db/postgres/queries/apps.sql:89-96 | deleting a record leaves none of its references, keeps the books valid and every other App as it is; what only it used is nobody's afterwards |
| AppRecords.Bot.Disconnect | internal/connectors/service.go:216-239 | closing a connection clears it from every reference and demotes installed Apps that required it; a failure changes nothing |
| AppRecords.DisconnectKeepsValid | db/postgres/queries/connectors.sql:29-57 | so an installed App always has its required connectors linked |
| AppRemoval.OrphansShareNothing | internal/apps/remove.go:134-179 | the dependencies of an orphaned App are no other remaining App's |
| AppRemoval.OrphansAreIndependent | internal/apps/remove.go:134-179 | removing one orphan leaves the others orphaned |
| AppRemoval.CleanupStates | internal/apps/reference_cleanup.go:106-143 | facts about unshared dependencies come from a running, searched workspace without operations in progress, or not at all |
| AppRemoval.PlanDependencies | internal/apps/remove.go:87-107 | each reference is planned to be removed exactly when its copy is present, managed, unshared and not needed |
| AppRemoval.PlanConnectors | internal/apps/remove.go:116-125 | a connection is closed exactly when it is linked and no other App uses it |
| AppRemoval.OrphanedRequired | internal/apps/remove.go:136-179 | lists exactly the auto-installed Apps left without a use, and those already emptied by a failed removal |
| AppRemoval.MakePlan | internal/apps/remove.go:68-132 | the plan covers every reference of the App once |
| AppRemoval.DropDependencies | internal/apps/remove.go:252-268 | stops at the first failure with exactly the unfinished suffix still referenced; what was released is gone or was to be kept |
| AppRemoval.DropConnectors | internal/apps/remove.go:270-291 | the same for connections, touching no other App |
| AppRemoval.RemoveRequired | internal/apps/remove.go:293-306 | takes the auto-installed Apps along one by one and spares all others |
| AppRemoval.GiveUp | internal/apps/remove.go:307-318 | the record goes last; a failing commit or delete keeps it |
| AppRemoval.Remove | internal/apps/remove.go:213-319 | whatever fails, record and unfinished references are kept, other Apps are spared, the failure is the last status asked for, and the staged Skills were rolled back unless they were past the commit; no staged change stays open; with healthy collaborators nothing is left |
| AppInstall.FirstCodeIsFirst | internal/apps/service.go:294-305 | the recorded code is the first failed step's |
| AppInstall.InstalledOnSolidGround | internal/apps/service.go:337-353 | with prerequisites first, whatever a run installs had each requirement linked or installed earlier in it |
| AppInstall.InstallOne | internal/apps/service.go:329-353 | a usable dependency is linked, one with a failed requirement is left out, any other is asked of the workspace and reports its answer |
| AppInstall.InstallDependencies | internal/apps/service.go:321-354 | every direct dependency gets its reference; the steps report exactly what was known and what the workspace was asked, once and in order, and answered; partial exactly when a step failed |
| AppInstall.FaithfulInstalls | internal/apps/service.go:337-353 | so nothing is installed on a requirement that failed in the same run |
| AppInstall.ChooseOrder | internal/apps/service.go:312-320 | the order is the expanded one exactly when the catalog allows it, else the direct list |
| AppInstall.Publish | internal/apps/service.go:356-368 | Skills and release record change together, with a commit, or the staged Skills are rolled back |
| AppInstall.LinkConnectors | internal/apps/service.go:371-390 | every connector of the release gets its reference with the active connection of its type; the result becomes partial exactly when a required one has none |
| AppInstall.PruneDependencies | internal/apps/reference_cleanup.go:59-89 | a dropped reference leaves a copy behind only if it is shared, foreign, absent or needed |
| AppInstall.PruneReferences | internal/apps/reference_cleanup.go:23-98 | drops only references the release does not name, all of them on success, and can be repeated after a failure |
| AppInstall.Materialize | internal/apps/service.go:265-409 | without an error the references are exactly the release's, the status is installed exactly when no step failed and no required connector waits for an active connection, the code is the first failure's and the steps account for every installation asked; with an error the failure is the last status asked for and the Skills are as before, rolled back or committed |
| AppInstall.InstallInOrder | internal/apps/service.go:265-409 | with healthy collaborators and no obstacle in the catalog an App ends installed exactly if every connector it requires has an authorized connection |
| AppInstall.PartialThoughLinked | db/postgres/queries/apps.sql:144-151 | installed exactly if every required reference carries the active connection of its type; when carrying some connection is not enough |
| AppInstall.StaleLinkStaysPartial | db/postgres/queries/apps.sql:144-151 | an App that stays partial with its one connector linked |
| AppInstall.ReconcileStatus | internal/apps/service.go:549-567 | a partial App without a recorded failure becomes installed exactly when all required connectors are linked |
| AppInstall.Connect | internal/apps/service.go:487-527 | creates a connection and links it, touching no other App and completing this one exactly when nothing else is missing; once created the connection stays even if the link fails |
| AppInstall.History | internal/apps/reference_cleanup.go:11-22 | over any history of operations with failures anywhere, every removal asked of the workspace was of a managed, unshared, unneeded copy |
| SessionForest.LeastIsDescent | internal/botbackup/import.go:1309-1329 | the least set closed under children is what descends from its base |
| SessionForest.RetiredSessions | internal/botbackup/import.go:1309-1329 | the fixpoint ends with the least set that holds the automation sessions and is closed under children |
| SessionForest.RestoreSessions | internal/botbackup/import.go:1375-1408 | the work-list ends, unless a statement fails, with every session that is not retired created once, under its parent if that is grounded, as a root otherwise |
| SessionForest.KeepsParentIffAnchored | internal/botbackup/import.go:1381-1408 | a parent is kept exactly when the line of ancestors in the archive ends at a session without one |
| SessionForest.ParentIsRemapped | internal/botbackup/import.go:1370-1394 | with distinct ids a kept parent is the parent's new id |
| Turns.SplitKeepsAll | internal/botbackup/import.go:1765-1835 | the groups of a session are its messages, in order |
| Turns.SplitOpensAtUsers | internal/botbackup/import.go:1777-1788 | a user message opens its group, and only the leading group opens with another |
| Turns.HeldTurnReads | db/postgres/queries/messages.sql:1050-1062 | request and answer of a turn that holds a group are the user's message numbered 1 and the assistant's message numbered 2 of that group |
| Turns.FirstAssistantAnswers | db/postgres/queries/messages.sql:1056-1057 | in a group opened by a user the first message of the assistant is that answer exactly if it comes at once |
| Turns.LateAnswer | internal/botbackup/import.go:1801-1829 | a user, a tool and the assistant: one group whose first assistant message comes third |
| TurnRebuild.BindIff | db/postgres/queries/messages.sql:795-842 | an answer can be bound to a user's turn exactly if nothing there is numbered 2 yet |
| TurnRebuild.Open | internal/botbackup/import.go:1778-1800 | a user message, or the first of a session, opens a turn at the next position and is numbered 1 or 2 |
| TurnRebuild.Join | internal/botbackup/import.go:1801-1829 | any other message is numbered next in the current turn; the first of the assistant in a user's turn is bound, which on a database in order succeeds exactly if it comes at once |
| TurnRebuild.RebuildTurns | internal/botbackup/import.go:1765-1835 | rebuilding refines splitting: each group becomes the turn at its position, holding its messages with consecutive numbers and no others; on a database in order it goes through exactly if every user is answered at once or not at all |
| TurnRebuild.RebuiltTurnReads | internal/botbackup/import.go:1765-1835 | a rebuilt turn asks what its user asked and is answered by the first message of the assistant; a leading turn by its first message, if that is the assistant's |
| TurnRestore.GroupExtends | internal/botbackup/import.go:1644-1660 | a group keeps the first request, the first answer, the latest supersession and all lines as messages are added |
| TurnRestore.GroupByTurn | internal/botbackup/import.go:1619-1661 | one group per old turn with qualifying messages, with distinct new ids |
| TurnRestore.WriteGroup | internal/botbackup/import.go:1665-1709 | a turn is written at its position with every line at its archived number and nothing else in it; on a database in order exactly if its messages share a session, their numbers differ and the second is not displaced |
| TurnRestore.DisplacedTurn | internal/botbackup/import.go:1666-1671 | two tool messages whose turn cannot be restored |
| TurnRestore.WriteGroups | internal/botbackup/import.go:1682-1713 | all turns are written, and each session's next position is one above its largest |
| TurnRestore.MarkGroups | internal/botbackup/import.go:1715-1733 | superseded turns point through the same id map to restored turns only; invisible ones are hidden; the rest stay visible |
| TurnRestore.EveryMessageIsPlaced | internal/botbackup/import.go:1656-1709 | each qualifying message sits in the turn restored for its old one, under its archived number and that turn's mark |
| TurnRestore.RestoredTurnReads | db/postgres/queries/messages.sql:1056-1057 | what a restored turn was asked and answered is what the archive says; one that had neither has neither |
| TurnRestore.RestoreTurns | internal/botbackup/import.go:1607-1751 | the whole read-model restore, and the rebuild exactly when no message qualifies; each with the exact condition under which it goes through on a database in order |
| Connections.EveryStep | internal/channel/connection.go:97-220 | each critical section keeps every connection in exactly one place or stopped |
| Connections.NoLeak | internal/channel/connection.go:97-384 | under any interleaving a connection is in the map, held by one operation, or had `Stop` called; with no operation under way it is not merely held |
| Connections.NeverOverwritten | internal/channel/connection.go:203-216 | an entry is never overwritten: it stays, or it left for one operation's hands or a stop |
| Connections.HolderDelivers | internal/channel/connection.go:124-220 | each own step of a holder brings its connection into the map, to its stop, or closer to it |
| Connections.HolderGoesOn | internal/channel/connection.go:124-220 | a holder always has such a step |
| Connections.Manager.EnsureConnection | internal/channel/connection.go:97-220 | run alone it leaves other configs alone, asks the channel exactly what the entry calls for, and ends with what the answers call for: the new connection, the old entry or none |
| Connections.DialogueDecides | internal/channel/connection.go:97-220 | a config ends up to date exactly when it was, or when the receiver exists, the old connection could be stopped and the connect worked; an older entry stays exactly without a receiver or when it could not be stopped |
| Connections.Manager.RemoveConnection | internal/channel/connection.go:235-268 | stops and drops exactly the bot's connections of the type |
| Connections.Manager.Stop | internal/channel/connection.go:331-348 | drops and stops exactly the named connection |
| Connections.Manager.StopAll | internal/channel/connection.go:302-328 | afterwards nothing is registered and every connection ever made was stopped |
| Connections.Manager.Reconcile | internal/channel/connection.go:41-95 | run alone it leaves only active configs in both maps and stops all other connections |

## Left out

- Workspace.FastWindowWithinAFifth: real arithmetic, as for JitterBounds.
- Workspace.JitterBounds: real arithmetic truncated to nanoseconds; floating-point rounding is not modelled.
- Repository.Repository.Claim: row locks skipped by concurrent claims are not modelled; a statement is atomic. `last_error` texts and `updated_at` are left out.
- Fencing.EveryStep: one row at a time; instances share nothing else. An entry write whose reply is lost and an abandoned claim are steps, other writes that fail have no effect.
- Lease.MutualExclusion: assumes one shared clock, calls that end within the write timeout and backends that stop when cancelled, as the options promise; clock drift between servers is not modelled.
- Progress.NeverStuck: existence of a settling continuation for one instance; that fair runs settle without choosing is `Fairness.FairRunsSettle` and `Fairness.FairRemovalsSettle`.
- Fairness.FairRunsSettle: for a fixed intent, as the design promises it. That writes stop being lost is assumed, also of those that a lapsed lease costs: outcome writes have no deadline in the protocol, so timeliness does not exclude them. From the moment the disturbances cease, no observation claims a row that has work to do.
- Reconciler.Service.Provision: operation timeouts and cancelled contexts appear as backend errors; progress events and results for the job log are left out.
- Reconciler.Service.Observe: its first read is not locked against a removal requested right after it, as in the code.
- Slots.Slots.ClaimInto: one pass over the pools; the ticker, `Start`, `Stop` and the drift timer are left out.
- BotLifecycle.Bots.RunDeleteLifecycle: the lifecycle's time budget is an arbitrary failure of `Await`, and where the run ends the wait ends; the history reset fence around the first status write is left out.
- InstallOrder.ExpandedOrder: ids are compared as they are, without trimming.
- AppRecords.Bot.Upsert: version strings, release documents and check times are left out; the two transient states towards a release are one.
- AppRemoval.Remove: operations on one bot one after another; concurrent operations of different Apps are not fenced by the code either. Events and step lists of removals are left out.
- AppInstall.Materialize: fetching and checking the release, and updating single dependencies to a newer version, are left out. Connections authorized or lost while it runs are not modelled.
- SessionForest.RestoreSessions: descriptors, metadata, visibility and workdir rebinding of sessions are left out.
- TurnRestore.RestoreTurns: turns are written in any order and lines by number only, so the finer sorting that makes the order deterministic is not modelled; checkpoints rewound by hiding statements are left out.
- TurnRebuild.RebuildTurns: message ids are distinct, as freshly created rows have them; a failed statement ends the import, whose transaction is not modelled.
- Connections.Manager.EnsureConnection: the freshness of a config among racing callers is not promised by the code and not stated.
- Drift scan paging (`detectDriftIn`), subscriptions, logging, error catalogs and HTTP wiring: no state of their own to keep.
- Archive reading, encryption, settings merging, dependency import, accounts and audio: field copying and library calls.
