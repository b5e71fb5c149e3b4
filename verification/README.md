# A verified model of the deployment control plane

This project models the parts of the control plane in which one project's traffic, one VPS's
memory, one user's sessions or one pooled connection can be lost when steps fail, overlap or
arrive late. `dafny verify dfyconfig.toml` checks all of it.

| module | what it is |
|---|---|
| `ReleaseState`, `ReleaseMachine` | database rows, project pointers, route file, backup file, running containers and public network of one project; every atomic effect of `ReleaseService`, `RollbackService` and of a deploy or rollback job as one step of a worker that may fail before, fail after, or crash between any two steps, while rollback requests arrive at any time |
| `ReleaseInvariant`, `ReleaseRouting`, `ReleaseDowntime`, `ReleaseRecovery` | what holds over every run: the active pointer is exact, the route file stays repairable, the live release keeps answering, a crash is repaired, a failed activation is undone; and exactly where each of these ends |
| `ReleaseProgress`, `ReleaseMishaps` | what deploy and rollback jobs come to when nothing fails, which failures the source does not look at, and the runs that lead into two of the failures listed below |
| `ReleaseService` | the same protocol as the methods the source has, each proved to be a walk of the machine |
| `Leases`, `DeploymentLocks` | renewable locks for any number of holders, and the two-lock worker with its heartbeat |
| `Capacity`, `Admission`, `ResourcePolicy`, `StaleReservations` | the sums behind admission, all runs of reservations and releases on one VPS, and the methods that make and give back reservations |
| `ComposeSplit` | one policy shared out among Compose services |
| `DeploymentJob` | the job handler, the retry decision, and all attempts of a job |
| `Retention`, `Purge`, `Orphans`, `Maintenance` | which releases expire, purging them from a list that may be old while everything else goes on, and removing the containers of deployments that have no release left |
| `Sessions`, `AuthService` | refresh-token rotation with any number of requests in flight |
| `SshPool` | the connection pool, its counts, timers and late events |
| `Usernames` | the unique-username loop |

## How to read the model

Each Prisma transaction, each Redis script and each shell command is one atomic step, and so
are `rollback()` and lines 80-124 of `reserve`. Remote systems are parameters: a `Fault`, a
`Plan`, an `Outcome` or an event list says how each step turned out and what happened in
between, and the statements quantify over all of them. One worker per project is what
`Leases.MutualExclusion` provides, and `ReleaseInvariant.TwoCommitsFromOneReadBreakExactness`
says why it is needed.

A command whose failure the source swallows (`|| true`) can fail silently (`Swallowed`). An
error may be reported by a step that took place (`ThrewAfter`). Network aliases are compared
as the text the source computes, so two releases can share one. A container stands for a
plain container, by its id, or for the ingress container of a Compose stack, by its project
name. The container or project name that a build uses depends on the deployment alone
(`dockerName`), so a deployment that is delivered again removes its own earlier runtime. The shell line that
removes the route file and disconnects the candidate in `reconcileProject` is one effect.
Reserves are integers: `total * 20 / 100` equals `floor(total * 0.2)`. Changing case and trimming
blanks are ASCII.

## Where the code falls short of its promise

Each item names the lemma that shows the failure and the exact condition under which the
promise is kept.

- A build removes whatever runs under its deployment's container name. A deployment that is
  live and whose job is delivered again, after a late error or a crash, takes itself down
  (`RedeliveryTakesTheLiveReleaseDown`, `PromotedThenRemoved`), and nothing brings it back while
  it stays the live release (`RemovedStaysRemoved`). The live release keeps answering through a
  deploy job exactly when it has another container or project name, which carries only a prefix of
  the deployment id (`OtherDeploymentsKeepAnsweringExactly`).
- An error at or after the commit of an activation lets its handler mark the live release
  FAILED (`LateThrowUnseatsTheLiveRelease`, `LatePromotionThrowUnseatsTheLiveRelease`). Without
  a late error every run is exact (`ActiveReleaseIsExact`), and after one the promise is lost
  exactly when a FAILED write of the handler takes effect (`LateErrorIsExact`).
- `runCommand` refuses to run the backup command of a cancelled deployment, and the handler
  then restores whatever copy is lying there: the route survives exactly when that copy
  equals it (`SkippedBackupRestoresTheOldCopy`, `SkippedBackupCanTakeTheLiveReleaseDown`).
- A crash inside `markReadinessFailed` leaves a FAILED candidate pointer that
  `reconcileProject` ignores; `CrashRecovery` says exactly when the pointer is cleared.
- A rollback job does not reconcile first, so one that fails inside its activation leaves the
  project in order exactly when the route agreed with the active pointer as it began
  (`RollbackRestoresAForeignRoute`). A run from an empty project to a wrong route is
  `ForeignRouteExists`, and `ForeignRouteIsReachable` gives one from every project with a live
  release. The next reconciliation then does nothing, unless a later candidate has come up, which
  has the route repaired (`RepairedExactly`, `RequestBringsRepair`).
- Giving up a release that shares its runtime with the live one takes the live one off the
  network (`StrayingIsExact`).
- Deploying to another domain stops serving the old host before the switch
  (`NewDomainDropsOldHost`), recovery from an interrupted move serves the host of whichever job
  comes next (`RecoveryMovesTheHost`), and two releases share an alias exactly when the first twenty
  letters and digits of their ids agree but for case (`SameAliasExactly`).
- A heartbeat that does not fire in time lets an operation return normally after its lease
  has gone to somebody else (`UntimelyLossGoesUnnoticed`); between renewals a lease is held
  exactly until it runs out, and the flag does not tell (`UnrenewedLeaseEndsUnseen`).
- A release that starts counting without a live reservation, after an expiry or a rollback
  request, is admitted unchecked (`UncheckedReleaseNeedsRoom`), and such states are reachable
  (`ExpiredReservationOverbooks`).
- A purge removes a Compose stack without counting who else runs in it, which spares the other
  releases exactly when none of them names it (`StackRemovalIsExact`). Attempts of one deployment
  share their stack (`RetriedStackIsShared`), so purging a failed one takes the live release down
  (`PurgedAttemptTakesTheStackDown`).
- A rollback request looks neither at `purgedAt` nor at a purge under way
  (`RequestKeepsInvExactly`, `RequestDuringPurgeLosesTheCandidate`).
- Recording a success, and the check for a lost lease, stand in the same try block as the work,
  so a deployment that ran to its end is reported as a success exactly when no lease was lost
  and recording it did not fail (`SuccessIsKeptExactly`); the update that restores a row for its
  next attempt may fail silently (`NextAttemptStartsAlike`); and a failing update of the job row
  leaves a job that the queue still delivers (`QueuedIffRedelivered`).
- A refresh token can be accepted twice when the second rotation is committed after the
  session it read had expired and its replay row was pruned (`LateRotationAcceptsTwice`): exactly
  when the session is still there and the row is gone (`RetiredTokenIsAcceptedExactly`).
- A transport that closes under its user, or a second `connect` of one instance, breaks the
  pool's counts (`CloseKeepsInvExactly`, `ConnectKeepsInvExactly`,
  `EarlyCloseEndsAnothersClient`).
- Shares of a Compose policy add up exactly when the ingress service is among the services or
  nothing is left over (`PartsAddUp`).

## Model

| member | source | states |
|---|---|---|
| ReleaseInvariant.ActiveReleaseIsExact | apps/api/src/services/release.service.ts:45-257 | over every run of jobs, effects, faults, crashes and rollback requests without a late error, the ACTIVE rows are exactly the active pointer's, the live release has a runtime, and the candidate is another release |
| ReleaseInvariant.StepKeepsInv | apps/api/src/services/rollback.service.ts:54-67 | every single step, rollback requests included, keeps that invariant together with what the worker's held values still say about the rows |
| ReleaseInvariant.LateThrowUnseatsTheLiveRelease | apps/api/src/services/release.service.ts:226-255 | any error reported at or after the commit, followed by a handler whose effects succeed, ends with the live release FAILED while the active pointer names it |
| ReleaseInvariant.LatePromotionThrowUnseatsTheLiveRelease | apps/api/src/services/release.service.ts:110-138 | the same for a promotion by reconciliation whose reply was lost and whose undoing succeeds |
| ReleaseInvariant.LateErrorIsExact | apps/api/src/services/release.service.ts:226-256 | after a late error, over every continuation of its handler with any outcomes, rollback requests and a crash, the promise is lost if and only if a FAILED write takes effect |
| ReleaseInvariant.TwoCommitsFromOneReadBreakExactness | apps/api/src/services/release.service.ts:226-241 | two activations that read the same live release leave two ACTIVE rows, while reading again in between does not |
| ReleaseRouting.ServeMeaning | apps/api/src/services/release.service.ts:259-298 | by highest matching priority, a rendered route sends its token's requests for the host to the candidate, all other requests for the host to the stable backend, and serves no other host |
| ReleaseRouting.RenderedServes | apps/api/src/services/release.service.ts:259-298 | the token's requests go to the candidate, all others to the stable release under its own port, under the candidate's where that is zero, and to the candidate itself where there is no stable release |
| ReleaseRouting.SafeHostExactly | apps/api/src/services/release.service.ts:268 | a host rule keeps exactly the letters, digits, dots and hyphens of the domain, so a domain of nothing else is served under its own name |
| ReleaseRouting.StepKeepsRoute | apps/api/src/services/release.service.ts:92-257 | every orderly step, a rollback request at any moment included, keeps the route file, the backup file and the network right for the effect the worker is at |
| ReleaseRouting.RouteIsRepairable | apps/api/src/services/release.service.ts:92-257 | at every point of every orderly run, rollback requests at any moment included, the route agrees with the active pointer or a candidate is there that reconciliation will repair it for |
| ReleaseRouting.EveryProjectIsRepairable | apps/api/src/services/release.service.ts:45-257 | so it is over every orderly run that starts with a project's first deployment: between jobs the route agrees with the active pointer or a live candidate is there |
| ReleaseDowntime.ZeroDowntime | apps/api/src/services/release.service.ts:210-256 | before every effect of every job and between jobs, a request without the probe token is answered by the live release if and only if its own runtime is still there, the route file has not been switched to another release, and it asks for the host in the route file |
| ReleaseDowntime.OnlyThePublicWriteSwitches | apps/api/src/services/release.service.ts:218-256 | while a release stays live, the write of the candidate's public route is the only step that takes its route away; a failed backup, canary write or canary probe, the handler, a crash and a rollback request do not |
| ReleaseDowntime.StepKeepsOwnExactly | apps/api/src/services/deployment.service.ts:964-1028 | a step leaves the live release its runtime if and only if it is not a build under that release's container or project name |
| ReleaseDowntime.ZeroDowntimeOverRuns | apps/api/src/services/release.service.ts:92-257 | over every orderly run, through jobs, handlers, crashes, rollback requests and the time between jobs, a live release in its own runtime keeps answering for the host of the route file if and only if no build under its own container or project name has run and the route is not switched, which only the public write does |
| ReleaseDowntime.OneDomainZeroDowntime | apps/api/src/services/release.service.ts:92-257 | over every orderly run whose jobs deploy to one domain, the live release answers a request if and only if it asks for that domain's host, no build under its own container or project name has run and the route is not switched |
| ReleaseDowntime.OtherDeploymentsKeepAnsweringExactly | apps/api/src/services/deployment.service.ts:93-460 | from the build of a deploy job up to its public write, whatever fails, the live release keeps answering if and only if its container or project name is not the job's |
| ReleaseDowntime.RemovedStaysRemoved | apps/api/src/services/deployment.service.ts:962-968 | a removed runtime does not come back while its release stays the live one |
| ReleaseDowntime.RedeliveryTakesTheLiveReleaseDown | apps/api/src/services/deployment.service.ts:93-1028 | a deployment that is live and delivered again reaches its build, after which no container answers for the live release |
| ReleaseDowntime.PromotedThenRemoved | apps/api/src/services/deployment.service.ts:125-1028 | a first release that reconciliation promotes in a job of its own deployment is live and reachable, and removed by that same job |
| ReleaseDowntime.StrayingIsExact | apps/api/src/services/release.service.ts:128-131 | giving up a release takes the live one off the network if and only if both run in one runtime |
| ReleaseDowntime.CanaryReachesCandidate | apps/api/src/services/release.service.ts:220-221 | in the canary phase the token selects the candidate, and after a passed probe the request ends in its container and no other |
| ReleaseDowntime.SwitchedReachesCandidate | apps/api/src/services/release.service.ts:223-241 | once the public route is written every request for the host ends in the new release's container |
| ReleaseDowntime.NothingGoesLiveUnanswered | apps/api/src/services/release.service.ts:110-226 | in every run, whatever fails, the public write comes right after an answered canary probe, and a commit or a promotion right after an answered public one |
| ReleaseDowntime.NewDomainDropsOldHost | apps/api/src/services/release.service.ts:220 | after the canary write the old host is served if and only if it is the host being deployed to |
| ReleaseDowntime.SameAliasExactly | apps/api/src/services/release.service.ts:41-43 | two releases have the same network alias if and only if the first twenty alphanumeric characters of their ids agree but for case |
| ReleaseDowntime.LongCommonPrefixCollides | apps/api/src/services/release.service.ts:41-43 | so all ids with a common start of twenty alphanumeric characters collide, whatever follows |
| ReleaseRecovery.CrashRecovery | apps/api/src/services/release.service.ts:92-139 | a crash at any effect followed by a completed reconciliation leaves the route equal to the active pointer and on the domain of the job that reconciled, the interrupted candidate live or FAILED and all other rows as they were; it is live if and only if there was no live release, its probe was answered and its promotion written; its pointer is cleared exactly when it was in a live status; a live release whose runtime is still there is on the network; and reconciling again changes nothing |
| ReleaseRecovery.OneDomainOneHost | apps/api/src/services/release.service.ts:92-257 | as long as all jobs deploy to one domain, no route for another domain is ever written, whatever fails, crashes or is rolled back |
| ReleaseRecovery.RecoveryMovesTheHost | apps/api/src/services/release.service.ts:122-127 | after an interrupted activation, recovery serves a host if and only if it is that of the job that recovers, and serves it from the live release |
| ReleaseRecovery.ReconcileCompletes | apps/api/src/services/release.service.ts:92-139 | reconciliation whose commands succeed ends after at most eight effects, whatever its probe says |
| ReleaseRecovery.FailedCandidateIsLeftBehind | apps/api/src/services/release.service.ts:168-185 | a crash between the two writes of markReadinessFailed leaves a candidate pointer that the next reconciliation does not touch |
| ReleaseRecovery.FailedActivationIsUndone | apps/api/src/services/release.service.ts:218-256 | every run of activate that throws after the backup and before the commit restores the route file of entry, leaves no copy, takes the candidate off the network and marks it FAILED, with the live release and all other rows unchanged |
| ReleaseRecovery.SkippedBackupRestoresTheOldCopy | apps/api/src/services/release.service.ts:219-252 | when the backup did not run, the route file ends as the old copy, which is its content on entry if and only if the two were equal |
| ReleaseRecovery.SkippedBackupCanTakeTheLiveReleaseDown | apps/api/src/services/release.service.ts:219-252 | without an old copy no request is served any more |
| ReleaseRecovery.RollbackRestoresAForeignRoute | apps/api/src/services/rollback.service.ts:74-135 | an activation, of a rollback job in particular, that fails and is undone leaves the project in order if and only if the route agreed with the active pointer on entry |
| ReleaseRecovery.RepairedExactly | apps/api/src/services/release.service.ts:92-139 | between jobs, whatever the route file holds, the next completed reconciliation makes it agree with the active pointer if and only if it agrees already or a live candidate is there; without one it changes nothing |
| ReleaseRecovery.RequestBringsRepair | apps/api/src/services/rollback.service.ts:54-67 | any rollback request between jobs brings such a candidate, so a wrong route is repaired by the next deploy job's reconciliation |
| ReleaseProgress.SuccessfulDeploymentGoesLive | apps/api/src/services/deployment.service.ts:108-545 | from every project without a live candidate, a deploy job in which nothing fails ends with its release ACTIVE and PASSED, its own route and no backup, its runtime on the public network, no candidate, the release before it SUPERSEDED and its runtime off the public network, and the rows of uninvolved releases untouched |
| ReleaseProgress.SuccessfulRollbackGoesLive | apps/api/src/services/rollback.service.ts:54-135 | a rollback request for a release whose runtime is there, followed by a rollback job in which nothing fails, ends with that release ACTIVE, routed, on the public network and no longer pinned, and with the release it replaces SUPERSEDED and off the public network |
| ReleaseMishaps.FailuresAreSeenExactly | apps/api/src/services/release.service.ts:92-257 | a failure changes where the worker goes on except for the named commands, whose failure is ignored, and it does not matter whether a reported error came before or after its effect |
| ReleaseMishaps.NextAttemptFailsTheLastExactly | apps/api/src/services/release.service.ts:45-90 | beginning an attempt makes it the candidate with a fresh BUILDING row and fails the candidate before it, such as one a crash has left BUILDING, exactly when that is not ACTIVE; no other row and not the live release changes |
| ReleaseMishaps.ForeignRouteIsReachable | apps/api/src/services/rollback.service.ts:54-135 | from every project with a live release and for every new deployment: a crash right after its public write, a rollback request for its release and a rollback whose canary probe fails lead to a route that the next reconciliation does not repair |
| ReleaseMishaps.ForeignRouteExists | apps/api/src/services/rollback.service.ts:54-135 | such a project is reached from an empty one by a concrete run |
| ReleaseMishaps.RetriedStackIsShared | apps/api/src/services/deployment.service.ts:461-545 | when an attempt of a deployment fails after its runtime was recorded and the next attempt in the same stack succeeds, the FAILED release is left with the live one's runtime |
| ReleaseService.Project.Activate | apps/api/src/services/release.service.ts:187-257 | a walk of the machine that commits, refuses before touching the route file, or reverts. Committed: the release is ACTIVE, PASSED and routed, only the row of the release before it changes, to SUPERSEDED, its old runtime, unless shared, leaves the public network and no other does, and the backup is gone. Otherwise, without a late error, the active pointer stays; reverted with a backup and a succeeding handler, the activation is undone |
| ReleaseService.Project.ReconcileProject | apps/api/src/services/release.service.ts:92-139 | a walk of the machine that, when it completes, changes nothing without a live candidate; with a live release serves that one on the job's domain, connects it and sets the candidate aside as FAILED and disconnected; and without one brings the candidate up, or sets it aside with its route removed |
| ReleaseService.Project.ExecuteDeployment | apps/api/src/services/deployment.service.ts:108-545 | a whole deploy job, the removal of earlier runtimes of its name included, is a walk of the machine; a job that goes through leaves its release live and routed, and the release that was live before SUPERSEDED and off the public network; one that fails and cleans up leaves its release FAILED, no candidate and its runtime removed; without a late error the active pointer is exact |
| ReleaseService.Project.ExecuteRollback | apps/api/src/services/rollback.service.ts:74-135 | a whole rollback job is a walk of the machine; on success the requested candidate has taken over as in `Activate`, otherwise and without a late error the live release stays; either way the pin set by the request is taken back; without a late error the pointer is exact |
| ReleaseService.Project.RequestRollback | apps/api/src/services/rollback.service.ts:50-71 | a request is refused for a missing, a live or a runtime-less release; otherwise the target is the pinned candidate, an earlier candidate that is not ACTIVE is FAILED, and no other row changes; the invariant is kept |
| Leases.RunKeepsInv | apps/api/src/services/cache.service.ts:103-166 | over any number of workers, interleavings, clock advances and late scripts, an unexpired lease is in the store under its holder's token |
| Leases.OthersUntouched | apps/api/src/services/cache.service.ts:116-164 | however late it arrives, a renewal or release leaves every entry that carries another token as it was |
| Leases.MutualExclusion | apps/api/src/workers/deployment.worker.ts:43-82 | two workers inside their operation with unexpired leases share neither a project nor a VPS |
| Leases.ReleasedStaysReleased | apps/api/src/services/cache.service.ts:116-137 | after a token's release script has run no entry carries it again, whatever renewals were on their way |
| Leases.ExpiredLeaseCanBeTaken | apps/api/src/services/cache.service.ts:145-152 | the expiry is tight: at that instant another worker can take the key while the first is still inside |
| Leases.CacheService.AcquireRenewableLock | apps/api/src/services/cache.service.ts:145-152 | acquires exactly when no unexpired entry is there, and changes that key only |
| Leases.CacheService.ExtendLock | apps/api/src/services/cache.service.ts:116-160 | renews exactly an entry with the caller's token, which Redis must not have expired yet |
| Leases.CacheService.ReleaseLock | apps/api/src/services/cache.service.ts:127-164 | removes exactly an entry with the caller's token |
| Leases.RenewedExactly | apps/api/src/services/cache.service.ts:116-160 | a renewal goes through exactly for the holder's token, in Redis only before the lease has run out and in memory also after it, and otherwise changes nothing |
| DeploymentLocks.ThreePeriodsFit | apps/api/src/workers/deployment.worker.ts:71 | for every lease from 30 s to 1 h three heartbeat periods fit and three longer ones do not |
| DeploymentLocks.TimelyHoldsThroughout | apps/api/src/workers/deployment.worker.ts:55-74 | while ticks are at most a period apart and renewals take less than one, both leases are held and unexpired at every moment of the operation |
| DeploymentLocks.UntimelyLossGoesUnnoticed | apps/api/src/workers/deployment.worker.ts:53-76 | without ticks the lease goes to another holder and the loss flag stays unset |
| DeploymentLocks.UnrenewedLeaseEndsUnseen | apps/api/src/workers/deployment.worker.ts:53-76 | between renewals an unexpired lease is held if and only if its expiry lies ahead, whatever other holders do, and the heartbeat flags stay as they are |
| DeploymentLocks.LossIsSeenExactly | apps/api/src/workers/deployment.worker.ts:53-76 | a completed heartbeat sets the loss flag if and only if one of its two keys was not renewed under its own token |
| DeploymentLocks.WaitingKeepsProject | apps/api/src/workers/deployment.worker.ts:44-51 | while the VPS lock is awaited nobody takes an unexpired project lease away |
| DeploymentLocks.PromptAcquisitionStartsBeating | apps/api/src/workers/deployment.worker.ts:44-71 | a VPS lock obtained within a period of the project lock meets the premise of the heartbeat bound |
| DeploymentLocks.WithDeploymentLocks | apps/api/src/workers/deployment.worker.ts:43-82 | ProjectBusy is returned exactly when the project key is taken, and then VpsBusy exactly when the VPS key is taken after the wait; otherwise the operation has run and its failure, LeaseLost exactly when the heartbeat saw a loss, or its end is returned; the store is that of the run with both leases freed; on every exit no entry carries a token whose release script reached the store, late renewals included; and with timely ticks both keys were held throughout |
| Capacity.Committed | apps/api/src/services/resource-policy.service.ts:187-211 | the two loops over accumulators and a map compute the sums over all counting rows and the sum of the other projects' largest storage claims |
| Capacity.CapsLeaveTheReserves | apps/api/src/services/resource-policy.ts:12-15 | what can be given out is four fifths of the memory and seventeen twentieths of the disk, rounded up |
| Capacity.RefusedExactly | apps/api/src/services/resource-policy.ts:11-20 | a policy is admitted if and only if, with it, the committed memory and disk leave a fifth and three twentieths of the machine, as much stays free on it now, and its CPU does not exceed the machine's; and each refusal is given exactly for memory, for disk, for both or for CPU alone |
| Capacity.OneReleaseCounts | apps/api/src/services/resource-policy.service.ts:187-211 | a release counts exactly when it is limited, not purged, and CANDIDATE, READY, ACTIVATING or ACTIVE: with its memory and CPU in the sums and its storage in its project's peak |
| Capacity.OneReservationCounts | apps/api/src/services/resource-policy.service.ts:187-211 | a reservation counts exactly when it is RESERVED, not expired and not the asking deployment's |
| Admission.AdmissionBound | apps/api/src/services/resource-policy.service.ts:64-211 | over every run, counted releases plus live reservations of deployments without a counted release stay within memory less a fifth, and the projects' largest storage claims within disk less fifteen percent |
| Admission.StepKeepsWithin | apps/api/src/services/resource-policy.service.ts:80-124 | every step keeps both bounds, although a release and its reservation count twice for a while and a project's earlier claims are left out of its own test |
| Admission.UncheckedReleaseNeedsRoom | apps/api/src/services/rollback.service.ts:62-65 | a release that counts again without a live reservation adds all its memory, and its storage beyond its project's largest claim, so the bounds hold if and only if there was room for both |
| Admission.ExpiredReservationOverbooks | apps/api/src/services/resource-policy.service.ts:104-123 | a run of six steps reaches a state in which a build has outlasted its reservation and its release breaks the memory bound |
| ResourcePolicy.ResourcePolicyService.Reserve | apps/api/src/services/resource-policy.service.ts:64-129 | refuses at ten other projects, at a busy capacity lock and for an unreachable machine; otherwise admits if and only if memory, disk and CPU suffice as in `RefusedExactly`, and says which does not; an admission writes the reservation for six hours, a refusal leaves everything as it was; the admission invariant is kept |
| ResourcePolicy.ResourcePolicyService.ReleaseReservation | apps/api/src/services/resource-policy.service.ts:150-155 | the deployment's reservation no longer counts, and the invariant is kept |
| ResourcePolicy.ResourcePolicyService.ReconcileDetectedTier | apps/api/src/services/resource-policy.service.ts:131-148 | a mismatch is reported exactly when another tier was asked for, no requested tier gives the reservation back, and otherwise the detected tier's policy, or its override, is admitted or refused as by `Reserve` |
| StaleReservations.ReleaseStaleReservations | apps/api/src/services/maintenance.service.ts:32-44 | marks exactly the expired reservations whose deployment has no waiting job and is not under way |
| StaleReservations.UnderWayExactly | apps/api/src/services/maintenance.service.ts:32-44 | a deployment at rest, ended, being deleted or cancelled does not keep a reservation; every other one does |
| StaleReservations.TidyingFreesNothing | apps/api/src/services/maintenance.service.ts:32-44 | every later admission test sees the same committed sums with or without that clean-up |
| ComposeSplit.SplitComposePolicy | apps/api/src/services/resource-policy.ts:52-65 | the loops yield the declared shares for one to four services and an error otherwise |
| ComposeSplit.PermutationsAreAlike | apps/api/src/services/resource-policy.ts:53 | listing the services in another order leaves every service's share as it is |
| ComposeSplit.PartsAddUp | apps/api/src/services/resource-policy.ts:55-60 | over distinct services each resource adds up to the larger of its total and n minimums if and only if the ingress service is among them or nothing is left over |
| ComposeSplit.EveryPartReachesMinimum | apps/api/src/services/resource-policy.ts:56 | no service gets less than the minimum |
| ComposeSplit.PartsAreEven | apps/api/src/services/resource-policy.ts:55-64 | all services but the ingress get the same, which is the minimum or an even part rounded down, and the ingress gets what is left over besides |
| ComposeSplit.SharesReachMinimums | apps/api/src/services/resource-policy.ts:55-64 | every service gets at least 50 CPU millis, 64 MiB and 32 processes |
| ComposeSplit.DefaultTiersAddUp | apps/api/src/services/resource-policy.ts:5-9 | for every default tier the shares add up to the tier's totals |
| DeploymentJob.DeploymentWorker.Process | apps/api/src/workers/deployment.worker.ts:86-318 | the handler with its flags and branches comes to the table of outcomes by what was caught |
| DeploymentJob.RowsAgree | apps/api/src/workers/deployment.worker.ts:178-304 | after every invocation whose row updates are written, job and deployment are one of SUCCESS/RUNNING, QUEUED/PENDING, FAILED/FAILED, CANCELED/CANCELED, BLOCKED/PREFLIGHT_BLOCKED, WAITING_APPROVAL/AWAITING_PREFLIGHT |
| DeploymentJob.JobRowTells | apps/api/src/workers/deployment.worker.ts:178-304 | with a written job row, its status tells exactly a success, a cancellation, a blocking preflight and a pending approval; what it waits for is the busy slot, the preflight or the approval that was caught and nothing otherwise, and its retry count is raised exactly by an ordinary failure |
| DeploymentJob.DomainTells | apps/api/src/workers/deployment.worker.ts:178-304 | after executed work with its rows written, the deployment's domain is that of the work on success, the old one on a preflight stop or before another attempt, and none otherwise |
| DeploymentJob.RetriedExactly | apps/api/src/utils/deployment-retry.ts:46-58 | an attempt is repeated if and only if the failure may pass and attempts are left |
| DeploymentJob.QueuedIffRedelivered | apps/api/src/utils/deployment-retry.ts:46-58 | for every configured number of attempts the job row says QUEUED exactly when the queue delivers the job again, if and only if the handler's update of the row was written or its old status happened to be right |
| DeploymentJob.ReservedOnlyWhileQueued | apps/api/src/workers/deployment.worker.ts:312-318 | a held reservation survives an invocation if and only if it is kept for another attempt or giving it back failed; and it is kept exactly while the job is queued, when the job row was written |
| DeploymentJob.NextAttemptStartsAlike | apps/api/src/workers/deployment.worker.ts:236-281 | a repeated attempt starts from PENDING and the original domain if and only if the handler wrote the row back or nothing had been done to it |
| DeploymentJob.SuccessIsKeptExactly | apps/api/src/workers/deployment.worker.ts:76-196 | a deployment that ran to its end is reported as a success if and only if no lease was lost meanwhile and recording it did not fail |
| DeploymentJob.SshFailuresAreRetried | apps/api/src/utils/deployment-retry.ts:7-44 | of the codes an SSH connection fails with, all but wrong credentials and a blocked port are retried, whatever the message, unless it mentions a busy slot |
| DeploymentJob.CodesAreCuredExactly | apps/api/src/utils/deployment-retry.ts:7-44 | the retryable codes are exactly five of the SSH codes, five system codes and the two passing refusals of the VPS |
| DeploymentJob.SpellingIsIgnored | apps/api/src/utils/deployment-retry.ts:29-44 | blanks around a code and its spelling in small letters do not matter to the decision |
| DeploymentJob.CodeOfError | apps/api/src/utils/deployment-retry.ts:29-44 | an error's own code comes before the system's, and an error with neither has no code that is retried |
| DeploymentJob.BusySlotExactly | apps/api/src/utils/deployment-retry.ts:29-44 | a message mentions a busy slot if and only if, in small letters, it has one of the two phrases somewhere |
| Wrappers.LowerTellsLetters | apps/api/src/utils/deployment-retry.ts:29-44 | small letters tell all characters apart but a letter and its capital, and are never capitals |
| DeploymentJob.EveryAttemptStartsAlike | apps/api/src/workers/deployment.worker.ts:86-318 | over all attempts every one starts alike, the rows agree, failures never exceed the attempts, and nothing stays reserved when the job is over |
| DeploymentJob.WaitsAreFree | apps/api/src/workers/deployment.worker.ts:225-260 | waiting for a slot costs no attempt: while the job comes again, deliveries are slot waits plus failures |
| DeploymentJob.ExecutedAtMostAttemptsTimes | apps/api/src/utils/deployment-retry.ts:46-58 | a job is executed at most as often as it has attempts, however long it waits |
| Retention.RetentionCandidates | apps/api/src/services/maintenance-policy.ts:3-25 | returns without duplicates exactly the unprotected releases that are FAILED and older than a day, or successful and ranked sixth or later in their project or older than thirty days |
| Retention.ExpiresExactly | apps/api/src/services/maintenance-policy.ts:14-22 | an unprotected release expires twenty-four hours after a failure, thirty days after a success, or once five later successes of its project are there |
| Retention.NewestFirst | apps/api/src/services/maintenance-policy.ts:17 | the sort by date is newest first and keeps list order among equal dates |
| Retention.PositionIsRank | apps/api/src/services/maintenance-policy.ts:17-20 | a position in the sorted successes of a project is the number of its successes ahead of the row |
| Retention.SelectingAgainFindsNothing | apps/api/src/services/maintenance-policy.ts:3-25 | once the selected releases are gone, selecting again at the same time finds nothing |
| Retention.FewSuccessesRemain | apps/api/src/services/maintenance-policy.ts:17-20 | at most five unprotected successes of a project remain |
| Purge.NoProtectedReleaseIsPurged | apps/api/src/services/maintenance.service.ts:64-89 | over all runs, with any list and any deploy and activation steps in between, every purged release is BUILDING, SUPERSEDED or FAILED, and neither live, a candidate nor pinned |
| Purge.RemovalIsSafe | apps/api/src/services/maintenance.service.ts:91-119 | a purge removes only what belongs to its own unprotected release: a plain container or image that no other unpurged release of any project names, images labelled with its deployment when no other unpurged release is of it, or its Compose stack |
| Purge.StackRemovalIsExact | apps/api/src/services/maintenance.service.ts:91-100 | removing a runtime leaves every other unpurged release its own if and only if none of them names it, which for a Compose stack is not counted |
| Purge.PurgedAttemptTakesTheStackDown | apps/api/src/services/maintenance.service.ts:91-100 | purging an unprotected release that names the live release's stack removes that stack while the release stays live |
| Orphans.SweepSparesReleases | apps/api/src/services/maintenance.service.ts:138-151 | with the list of live deployments read once and anything going on until a container's turn, a container whose deployment then has a protected or unpurged release on the host is spared, unless that deployment has begun a release meanwhile |
| Orphans.OrphanExactly | apps/api/src/services/maintenance.service.ts:138-151 | a container is an orphan if and only if no unpurged release on the host is of its deployment and it is known to be more than a day old |
| Purge.MarkIsSafe | apps/api/src/services/maintenance.service.ts:127 | a purge marks no release but its own, which is unprotected, and changes no project's rows or pointers |
| Purge.RequestKeepsInvExactly | apps/api/src/services/rollback.service.ts:46-67 | a rollback request keeps purged releases unprotected if and only if its target is neither purged nor past the re-check of a purge |
| Purge.RequestDuringPurgeLosesTheCandidate | apps/api/src/services/maintenance.service.ts:89-127 | requested while its purge is being concluded, the candidate ends up purged |
| Purge.CeilingIsNeverWaitedFor | apps/api/src/services/maintenance.service.ts:128-135 | the one-day ceiling of the retry delay is reached exactly from the eighth failure on, when the release is no longer listed |
| Purge.FailureIsPutOff | apps/api/src/services/maintenance.service.ts:127-135 | a noted failure of any step is counted and puts the next attempt off by fifteen minutes, doubled with every failure before it, up to a day; a marked release has no next attempt |
| Maintenance.MaintenanceService.PurgeRelease | apps/api/src/services/maintenance.service.ts:83-136 | with anything happening between its steps, the purge of a plain or Compose release is a run of the model: skipped exactly when the re-check failed, otherwise marked or counted as a failure, and the lock is given back |
| Maintenance.UndisturbedPurgeRemovesItsOwn | apps/api/src/services/maintenance.service.ts:83-127 | undisturbed and without failures, a purge of an unprotected release marks it, and removes exactly its runtime, unless another unpurged release names it or it is no stack, the images of its deployment for a stack nobody shares, and its own unshared image |
| Maintenance.MaintenanceService.RemoveLabelledOrphans | apps/api/src/services/maintenance.service.ts:138-151 | of the managed containers found exactly those go that Docker removes, whose deployment has no unpurged release on the host and that are known to be older than a day |
| Maintenance.MaintenanceService.CleanupVps | apps/api/src/services/maintenance.service.ts:46-73 | without the maintenance lock or the host nothing changes; otherwise each listed release whose project is there, idle and unlocked at its turn is concluded in it, as a failure only when a step failed; with nobody interfering and no step failing, every listed release that may be purged on entry is purged at the end; then orphaned containers go; and no purged release is protected |
| Sessions.EachTokenIsAcceptedOnce | apps/api/src/services/auth.service.ts:207-269 | over any interleaving of requests with timely commits each refresh token is accepted at most once, live hashes are distinct, and none has been accepted before, pruned rows or not |
| Sessions.StepKeepsInv | apps/api/src/services/auth.service.ts:237-257 | every issue, refresh step, prune, logout and revocation keeps retired tokens recognisable until their expiry |
| Sessions.RetiredTokenIsRecognised | apps/api/src/services/auth.service.ts:210-217 | a retired token is recognised as a replay of its session's user until the expiry it had |
| Sessions.ReplayEndsAllSessions | apps/api/src/services/auth.service.ts:210-217 | presenting a token with an unexpired replay row leaves its user no session, leaves other users' sessions alone, and dooms requests that had read one |
| Sessions.RetiredTokenIsAcceptedExactly | apps/api/src/services/auth.service.ts:237-252 | a rotation accepts an already retired token if and only if its session is still there and its replay row is gone, and then it is committed after the expiry it had read |
| Sessions.LateRotationAcceptsTwice | apps/api/src/services/auth.service.ts:237-257 | two requests that read the same session are both accepted once the first one's replay row has run out and been pruned |
| AuthService.AuthService.Refresh | apps/api/src/services/auth.service.ts:207-269 | rotates exactly for the token of an unexpired session, detects exactly the unexpired replays and then leaves their user no session, and otherwise deletes an expired session that has the token, with its replay rows, and nothing else; keeps the session invariant |
| AuthService.ValidTokenRotates | apps/api/src/services/auth.service.ts:219-257 | a valid token has no replay row, its one session gets the fresh token, and from then on it is recognised as a replay |
| AuthService.AuthService.IssueSession | apps/api/src/services/auth.service.ts:48-86 | a fresh token and session id are added and the session invariant is kept |
| AuthService.AuthService.Logout | apps/api/src/services/auth.service.ts:272-283 | exactly the session with the token goes, with its replay rows |
| AuthService.AuthService.RevokeSession | apps/api/src/services/account.service.ts:283-293 | exactly the user's own session goes, and a foreign one is not found |
| AuthService.AuthService.RevokeOtherSessions | apps/api/src/services/account.service.ts:295-305 | at most the kept session of the user is left |
| AuthService.AuthService.RevokeAllSessions | apps/api/src/services/account.service.ts:307-312 | no session of the user is left |
| SshPool.CountsAreExact | packages/vps/src/ssh.ts:50-123 | at every point of an orderly run a count is the number of instances using the key, the idle timer runs exactly when that is zero, and a client in use is the pooled one and not ended |
| SshPool.TimerEndsNobodysClient | packages/vps/src/ssh.ts:221-228 | the idle timer ends only a client nobody uses |
| SshPool.LateCloseChangesNothing | packages/vps/src/ssh.ts:90-111 | a late event of an ended client leaves the pool, and a replacement in it, as it is |
| SshPool.CloseKeepsInvExactly | packages/vps/src/ssh.ts:90-111 | an event of a client keeps the counts right if and only if nobody uses that client |
| SshPool.ConnectKeepsInvExactly | packages/vps/src/ssh.ts:50-80 | connecting keeps the counts right if and only if the instance was not connected |
| SshPool.EarlyCloseEndsAnothersClient | packages/vps/src/ssh.ts:214-231 | after an early close the first user's disconnect lets the timer end the client somebody else is using |
| SshPool.SSHService.Connect | packages/vps/src/ssh.ts:50-80 | shares or makes the pooled connection as the model says, and keeps the counts exactly for an instance that was not connected |
| SshPool.SSHService.Disconnect | packages/vps/src/ssh.ts:214-231 | gives the instance's link back as the model says and keeps the counts |
| SshPool.SSHService.OnIdle | packages/vps/src/ssh.ts:223-226 | ends a client that nobody uses and keeps the counts |
| SshPool.SSHService.CleanupPool | packages/vps/src/ssh.ts:90-111 | evicts only the client's own entry; the counts are kept if and only if nobody uses it, and an ended client changes nothing |
| Usernames.DecimalInjective | apps/api/src/services/account.service.ts:49 | different counters print differently |
| Usernames.TakenRunIsBounded | apps/api/src/services/account.service.ts:48-57 | a table holds at most as many consecutive candidates as it has users |
| Usernames.GenerateUniqueUsername | apps/api/src/services/account.service.ts:35-59 | ends after at most one lookup more than there are users with the first free name among base, base1, base2, and so on |
| Usernames.BaseIsTaken | apps/api/src/services/account.service.ts:36-42 | the base is the normalized name, or without a name the mailbox before the at sign, or `user` when fewer than three characters of it are left |
| Usernames.NormalizeChar | apps/api/src/services/account.service.ts:36-42 | capitals become small letters, and what is neither letter, digit nor underscore goes |
| Usernames.CandidateIsName | apps/api/src/services/account.service.ts:36-49 | every candidate is at least three characters of the allowed alphabet |

## Left out

- ReleaseInvariant.ActiveReleaseIsExact: excludes runs with an error at or after a commit; what follows such an error is characterised exactly by `LateErrorIsExact`.
- ReleaseRouting.StepKeepsRoute: asks for orderly steps: no late error, the backup command and the two compensations take effect, no rollback's handler puts a route back that disagrees with the active pointer, and no release is given up that shares its runtime with the live one; and it asks that aliases of existing releases differ. `updateDomainRoute` is not modelled.
- ReleaseDowntime.ZeroDowntime: asks for a live release with a port other than zero, which the source would replace by the candidate's port. A Compose stack whose runtime is missing makes the source refuse an activation; the model goes on without joining it.
- ReleaseRecovery.CrashRecovery: speaks of projects reached by orderly steps, and of reconciliations that come to their end.
- ReleaseRecovery.FailedActivationIsUndone: asks that the backup command and the handler's steps take effect and that no rollback request comes in between.
- Admission.AdmissionBound: excludes rollback requests and recording a runtime after the six-hour reservation has expired; `UncheckedReleaseNeedsRoom` says what those cost.
- DeploymentJob.EveryAttemptStartsAlike: assumes that the handler's own updates are written and reservations given back; the lemmas about one invocation say exactly what happens otherwise.
- DeploymentJob.DeploymentWorker.Process: covers operation `deploy` without concurrent user actions; rollback and sandbox clean-up jobs, a missing deployment row, alerts and log lines are not modelled.
- Purge.NoProtectedReleaseIsPurged: excludes rollback requests that hit a purged release or a purge past its re-check, and leases that run out during a purge; requests of that kind are characterised exactly.
- Purge.RemovalIsSafe: no two projects share an image tag, a deployment or a plain container, a Compose stack stands for all its containers, and workspace directories are a step that succeeds or fails.
- Maintenance.MaintenanceService.RemoveLabelledOrphans: orphaned networks and workspace directories are not modelled; containers of sandbox deployments have no release and are orphans after a day.
- Sessions.EachTokenIsAcceptedOnce: asks that a rotation is committed before the session it read expires; `RetiredTokenIsAcceptedExactly` says when a token is accepted again.
- SshPool.CountsAreExact: asks that instances connect once at a time and that no client is closed under its user; both conditions are shown to be exact. A connection still being set up is not distinguished from one that is up.
- ComposeSplit.SplitComposePolicy: the order of keys in the result object is not modelled.
- Pooled connections are modelled by client identity in maps, not as shared heap objects.
- A token stands for its SHA-256 hash, and random tokens and ids are never drawn twice.
- Removing a deployment's containers by label when it is cancelled, which takes its live release down both after an activation and before the build of a redelivered deployment; deletion of deployments and projects, sandbox deployments, DNS, TLS and YAML text.
- The session cache in front of the database, mail, OAuth, audit entries, telemetry, HTTP routes, the front end.
- Preflight checks, environment decryption, Git, build and Compose sanitising are steps that succeed or fail.
- The CPU total takes part in admission only as in the source: against the machine's cores, not against what is committed.
