# backup-controller, modelled and proved in Dafny

backup-controller backs up a namespace's volumes and databases and brings them
back. Its reconcilers stop and restart anywhere, take turns through Leases,
pause an app, cut one consistent backup, and later choose what to restore so
that no database comes back ahead of its volumes. This project models those
parts and proves what they promise.

`dafny verify dfyconfig.toml` checks everything.

## How the model works

| part | modules |
|---|---|
| Leases: identities, names and their order, the protocol, waits-for circles | Holders, LeaseNames, LeaseProtocol, Leases, LeaseCycles |
| restic: snapshots and tags, the rewrite, the exclusive lock | Restic, Retime, ResticLock |
| one BackupRun among the app, Flux, VolSync and CloudNativePG | BackupWorld, BackupEffects, BackupRuns, BackupGuarantees, BackupTraces |
| many runs that pause and resume | PauseConservation |
| one RestoreRun among Jobs, pods and Clusters | RestoreWorld, RestoreEffects, RestoreRuns, RestoreTraces |
| selection, the paused moment, the webhook, and how they fit the backup | Selection, Synced, Webhook, Recovery |
| key cache, two-listing WAL check, due tick | KeyCache, WalSince, Schedule |

The API server and the stores are values that change one call at a time. Where
several actors interleave, the model is either a state machine over single calls
(LeaseProtocol, ResticLock, PauseConservation, KeyCache) or a class whose methods
follow the reconciler call by call (Leases, BackupRuns, RestoreRuns, and the
classes in ResticLock and KeyCache). In those classes the environment takes any
number of steps before every call, and every call may fail before or after it
took effect. A process that stops is one whose remaining calls all fail before
they take effect. A pass keeps its invariant for the stored status and for the
copy in memory at once; that is the gap a stop falls into.

Reads, the clock, listings in any order, new IDs and the answers of Kueue are
inputs. Times are nanoseconds; stored moments are whole seconds.

## What turned out false, and when it holds

- Runs can wait in a circle. `LeaseCycles.StoppedReturnMakesACircle` gives one:
  a run that is stopped inside releaseAll holds later Leases without the first
  one. `LeaseCycles.CirclesNeedAReturn` proves that every circle contains such a
  run.
- The consistent cut needs a quiet run: no read in the busy check of pause failed
  on a source that was busy (`internal/runs/backuprun.go:462` takes an unread
  source for idle), every clone that is there is from a second before pausedAt,
  and every snapshot in the repositories is at least two seconds older than
  pausedAt. On a quiet run `BackupGuarantees.InvHasOneCut` proves the cut.
  BackupTraces has a run from its plan to its end for each of the three, in which
  the other two hold and the cut is lost. What stays open is the other half in
  general: that every run that is not quiet can go wrong.
- An ordinary pass of a RestoreRun may resume the app while an old instance is
  left, after an abort that stored its items as Failed and then failed itself:
  `RestoreTraces.OrdinaryPassResumesEarly`. `RestoreTraces.OrdinaryOrderIff` gives
  the exact condition on the stored status.
- A tick gets a second run when its first run expired before the next tick:
  `Schedule.ExpiredTickRunsAgain`, a monthly schedule. `Schedule.DueAgainIff` gives
  the exact condition.
- A run may scale another run's workloads back up when its terminal write failed
  after it released its Leases: `PauseConservation.WindowTouchesAPause`. By
  `PauseConservation.OnlyTheWindowTouches` this is the only way, and
  `PauseConservation.Conservation` holds regardless.
- A retry of Retime by a snapshot's own ID finds the copy if and only if that
  snapshot was not a rewritten one: `Retime.RetryFindsTheCopyIff`.
- A paused snapshot names a base backup of every database, except one whose
  Backup completed without an ID (`internal/runs/backuprun.go:787`):
  `BackupGuarantees.InvNamesEveryDatabase` states this gap.
- The two listings of WALSince are a full scan exactly under the condition in
  `WalSince.TwoListingsSuffice`, which `WalSince.AlongTheNamesSuffices` derives
  from modification times that follow the directory names.

## Hypotheses

One namespace; each claim has its own repository; runs disappear only through
their finalizer; nothing outside the controller edits its Leases, deletes its
Jobs or writes the marked workloads, their Kustomizations and the sources of a
run that holds their Leases. Marked workloads are the only writers of the app and
are not deleted during a run. The trigger of a run is its own. VolSync starts a
sync only for a trigger it has not completed, cuts one clone for it and saves
from that clone. All marked workloads are listed in one read.

## Model

| member | source | states |
|---|---|---|
| `Holders.ParseInvertsIdentity` | internal/lease/lease.go:58-76 | ParseHolder gives a holder back from its identity if and only if kind, name and UID are non-empty and kind and name hold no slash |
| `Holders.IdentityInvertsParse` | internal/lease/lease.go:58-76 | whatever ParseHolder accepts renders back to the same identity |
| `Holders.IdentityInjective` | internal/lease/lease.go:58-76 | two well-formed holders with one identity are the same holder |
| `Holders.IdentityReads` | internal/lease/lease.go:58-60 | the identity as a waiting run shows it |
| `LeaseNames.RenderInjective` | internal/lease/lease.go:31-44 | different Leases of a namespace never render to one name |
| `LeaseNames.RenderedNames` | internal/lease/lease.go:31-44 | the names of the Leases as the documentation gives them |
| `LeaseNames.SortByNameAscends` | internal/runs/sources.go:37-50 | claims and Clusters listed by name come in strict order, none lost |
| `LeaseNames.CollectLeaseNames` | internal/runs/backuprun.go:398-419 | the loop of leaseNames gives backup-pause, then each claim followed by its repository, then the Clusters, as LeasesAreNeeded says without the loop |
| `LeaseNames.LeasesAreNeeded` | internal/runs/backuprun.go:398-419 | a run asks for a Lease if and only if it is backup-pause and the run pauses, the claim of one of its volumes, the repository of such a claim, or the Cluster of one of its databases |
| `LeaseNames.AllItemsListsAll` | internal/runs/cnpg.go:54-68 | the items of a run with spec.all are the listed claims by name, then the Clusters by name |
| `LeaseNames.LeasesAlongTheOrder` | internal/runs/restorerun.go:441-463 | every plan takes its Leases strictly along one order of all Leases of the namespace, when no two claims share a repository |
| `LeaseProtocol.StepKeepsInv` | internal/lease/lease.go:115-196 | every single call of any run, failed before or after it took effect, keeps what the protocol relies on |
| `LeaseProtocol.WritingOverDead` | internal/lease/lease.go:157-167 | the conditional update that takes a Lease over never overwrites the Lease of a live run |
| `LeaseProtocol.Exclusion` | internal/lease/lease.go:115-196 | in every interleaving a Lease that a live run took and did not begin to release still names that run, so no two live runs hold it |
| `LeaseProtocol.TakeAlone` | internal/lease/lease.go:115-167 | a Take whose calls go through and that nobody disturbs answers yes if and only if the Lease is free, its own, or that of a run that is not alive |
| `Leases.OthersAreRelied` | internal/runs/leases.go:27-50 | no call of another run changes a Lease that names this live run, or makes one name it |
| `Leases.Client.Take` | internal/lease/lease.go:115-167 | Take, call by call among other runs: held only when the Lease names the run; and with no call of another run in between and none that failed, the answer is the one the Lease as it is calls for |
| `Leases.Client.Release` | internal/lease/lease.go:180-196 | without an error the Lease no longer names the run, no other Lease of the run changes, and with nothing in between there is no error |
| `Leases.Client.Holding` | internal/runs/leases.go:67-93 | the names are stored first; yes means that every Lease names the run, and with nothing in between it is yes exactly when every Lease is free |
| `Leases.Client.ReleaseAll` | internal/runs/leases.go:105-112 | without an error no Lease at all names the run |
| `LeaseCycles.HoldsOnlyEarlier` | internal/runs/leases.go:67-93 | a waiting run that never began to give back holds only Leases that come before the one it waits for |
| `LeaseCycles.CirclesNeedAReturn` | internal/runs/leases.go:67-112 | in every interleaving each circle of waiting runs contains a run that was stopped partway through releaseAll |
| `LeaseCycles.StoppedReturnMakesACircle` | internal/runs/leases.go:105-112 | such a circle does occur: two runs, one stopped after it released its first Lease |
| `Retime.Repository.Retime` | internal/restic/retime.go:144-219 | the searches, the write and the remove have the effect of Retimed, whatever fails |
| `Retime.CallMoves` | internal/restic/retime.go:144-219 | one call moves the progress as its faults allow, never back, and returns the copy exactly when it completes |
| `Retime.AtMostOneCopy` | internal/restic/retime.go:104-219 | after any sequence of calls the store differs from the first one by at most one copy and the missing original; one of them is always there and no other snapshot changes |
| `Retime.ExactlyOnce` | internal/restic/retime.go:104-219 | once a call returned, every later call returns the same copy and writes nothing; the copy has the same data at the asked moment, the old ID as its original, and the new tags behind the old ones |
| `Retime.RetryFindsTheCopyIff` | internal/restic/retime.go:197-197 | a retry by the snapshot's own ID finds the moved copy if and only if the snapshot was no rewritten one before |
| `Retime.AddTagsMeans` | internal/restic/retime.go:188-193 | the copy keeps the old tags in front and carries every new tag, each once |
| `ResticLock.StepKeepsInv` | internal/restic/retime.go:234-310 | every step of check, write, wait and check keeps that two processes see each other's lock |
| `ResticLock.LockExclusion` | internal/restic/retime.go:234-310 | two processes never both hold the lock, one of them exclusively, while neither lock is stale |
| `ResticLock.Locker.CheckLocks` | internal/restic/retime.go:282-310 | the check, lock by lock among other processes; with nothing in between it passes exactly when no lock blocks |
| `ResticLock.Locker.LockExclusive` | internal/restic/retime.go:234-262 | with ok the exclusive lock is held; otherwise the caller is outside and, unless a call on its own lock failed, has no new lock; with nothing in between it is ok exactly when the context did not end and no lock blocks |
| `ResticLock.UnblockedMeans` | internal/restic/retime.go:287-308 | only a lock of another process that is at most 30 minutes old blocks, and only when one of the two is exclusive |
| `ResticLock.Locker.Retime` | internal/restic/retime.go:104-117 | the rewrite happens under the lock or not at all, its result is returned unless a call on the own lock file failed, and with nothing in between it happens exactly when no lock blocks |
| `Restic.NewestIsNewest` | internal/restic/repository.go:327-344 | the window search gives a newest snapshot of the window, or none exactly when the window is empty |
| `Restic.AtOrBefore` | internal/restic/repository.go:241-253 | the loop gives the newest snapshot at or before the time |
| `Restic.SyncedSnapshot` | internal/restic/repository.go:327-344 | the loop gives the newest snapshot of the sync's window, one second wider on each side |
| `Restic.TagReadsBack` | internal/restic/repository.go:350-383 | the base backup tag of a Cluster is read back for that Cluster and for no other |
| `Restic.PausedBaseBackupMeans` | internal/restic/repository.go:366-383 | a tag list names a base backup for a Cluster exactly when some tag carries the prefix with something behind it, and then the first such tag does |
| `Restic.NewestIsFirst` | internal/restic/repository.go:327-344 | of several snapshots with the newest time the search gives the first one listed |
| `BackupWorld.EnvKeepsInv` | internal/runs/backuprun.go:318-347 | the app, Flux, VolSync, CloudNativePG, the clock and a deletion of the run keep the invariant of the run |
| `BackupWorld.FrozenStays` | internal/runs/pause.go:227-244 | an app that is scaled to zero, without pods and cut off from Flux, writes nothing and stays so |
| `BackupEffects.CutKeepsInv` | internal/runs/backuprun.go:327-335 | once the pods are gone, nothing of the run exists that could hold another version than the present one |
| `BackupEffects.PauseKeepsInv` | internal/runs/backuprun.go:467-482 | the recorded plan can put the app back: counts and suspensions in it are the owner's |
| `BackupEffects.ResumeKeepsInv` | internal/runs/backuprun.go:500-510 | the resume moment may be recorded once no clone and no database backup needs the pause |
| `BackupEffects.FoundIsSound` | internal/runs/backuprun.go:711-722 | the snapshot picked for a volume was written by the run's own sync |
| `BackupEffects.RetimeKeepsVolume` | internal/runs/backuprun.go:735-742 | moving the recorded snapshot keeps the one moment, the one list of tags and the cut version, whatever fails in the move |
| `BackupEffects.MoveIsSound` | internal/runs/backuprun.go:735-743 | whatever fails in the move the claim stays sound, and once it returned the item names a tagged snapshot |
| `BackupEffects.MovesOnlyItsOwn` | internal/runs/backuprun.go:735-742 | on a quiet run the move writes nothing but a copy of the run's own snapshot at the cut and leaves every other snapshot as it is |
| `BackupRuns.BackupRunReconciler.WriteStatus` | internal/runs/backuprun.go:939-944 | a write stores exactly the copy in memory, or nothing; after a deletion it fails |
| `BackupRuns.BackupRunReconciler.PausePlan` | internal/runs/pause.go:179-213 | the plan names every marked workload with its count and each Kustomization that still applies one |
| `BackupRuns.BackupRunReconciler.Pause` | internal/runs/backuprun.go:455-487 | the plan is stored before the first patch; a source that is busy makes the run wait; and a failed patch aborts the run |
| `BackupRuns.BackupRunReconciler.SourcesIdle` | internal/runs/backuprun.go:456-465 | yes means that no source is busy with another trigger, unless a read failed on one that was; no means that some source is |
| `BackupRuns.BackupRunReconciler.ApplyPause` | internal/runs/pause.go:227-244 | without an error every marked workload is at zero and cut off from Flux |
| `BackupRuns.BackupRunReconciler.PausedPodsGone` | internal/runs/pause.go:359-372 | yes means that the app is stopped at the cut version; no means that a pod is left or a read failed |
| `BackupRuns.BackupRunReconciler.StartVolume` | internal/runs/backuprun.go:551-569 | a volume gets the run's trigger and starts; it fails only when a call failed, the claim, its settings or the source are not the controller's, or the source is busy with another trigger |
| `BackupRuns.BackupRunReconciler.StartDatabase` | internal/runs/backuprun.go:571-588 | a database that the pass saw hibernated is skipped, any other starts its Backup, and it fails only when a call failed or the Cluster is not there |
| `BackupRuns.BackupRunReconciler.ClonesCut` | internal/runs/backuprun.go:613-639 | yes means that every Running volume's clone for this run is cut, on a quiet run; no means that some volume has no such clone; and it is yes once the syncs have ended |
| `BackupRuns.BackupRunReconciler.Resume` | internal/runs/backuprun.go:500-515 | the resume moment is stored before anything is scaled, and the app stays paused only while a database backup runs or a clone is missing |
| `BackupRuns.BackupRunReconciler.ResumeWorkloads` | internal/runs/pause.go:302-323 | without an error every workload and every Kustomization is as its owner wants it |
| `BackupRuns.BackupRunReconciler.CollectDatabase` | internal/runs/backuprun.go:781-791 | the item takes exactly the result that the Backup shows, and a base backup counts as taken while paused only when it holds the cut version |
| `BackupRuns.BackupRunReconciler.FindSnapshot` | internal/runs/backuprun.go:711-734 | once the sync has ended the snapshot is found and recorded before it is moved, or the item is done when the sync saved none |
| `BackupRuns.BackupRunReconciler.RecordFound` | internal/runs/backuprun.go:711-734 | what is recorded is the newest snapshot of the sync's window; it waits for the move exactly when the run paused workloads and no database failed |
| `BackupRuns.BackupRunReconciler.CollectVolume` | internal/runs/backuprun.go:679-743 | a volume fails exactly when its mover failed before the sync ended, waits for the resume, and then finds its snapshot in one pass and moves it in the next |
| `BackupRuns.BackupRunReconciler.Move` | internal/runs/backuprun.go:735-742 | the recorded snapshot is moved to the resume moment with the tags of the databases; the item is done only then, and is done when no call failed on a quiet run |
| `BackupRuns.BackupRunReconciler.Release` | internal/runs/backuprun.go:871-887 | without an error everything is back and no Lease of the protocol names the run |
| `BackupRuns.BackupRunReconciler.Finish` | internal/runs/backuprun.go:849-865 | the terminal phase is stored only after everything is given back and every item is done: Succeeded when none failed, Failed when one did or abort ended the run |
| `BackupRuns.BackupRunReconciler.Abort` | internal/runs/backuprun.go:828-836 | every item that is not done fails, and without a failed call the run ends |
| `BackupRuns.BackupRunReconciler.Finalize` | internal/runs/backuprun.go:891-904 | the finalizer goes only after everything is given back |
| `BackupRuns.BackupRunReconciler.Work` | internal/runs/backuprun.go:287-371 | one pass keeps the invariant of the run for the stored status and for the copy in memory; unless a call fails it aborts past the deadline, ends, waits for a Lease, a busy source or a pod that is there, or gets done all there is to do |
| `BackupRuns.BackupRunReconciler.Proceed` | internal/runs/backuprun.go:337-371 | a pass over a stopped or resumed app: no item stays Pending, every backup that had ended is collected, the app is resumed once nothing needs the pause, and a run whose items are all done ends Succeeded if and only if none failed |
| `BackupRuns.BackupRunReconciler.Reconcile` | internal/runs/backuprun.go:91-123 | a pass from the stored run, with faults and interference at every call; an item fails in it only for a cause in the cluster, unless a call failed, abort did it, or the run is not quiet |
| `BackupRuns.BackupRunReconciler.Passes` | internal/runs/backuprun.go:91-123 | any number of passes keeps the invariant at every call and moves the stored status only onward |
| `BackupGuarantees.InitIsSound` | internal/runs/backuprun.go:135-144 | a planned run satisfies the invariant |
| `BackupGuarantees.InvHasOneCut` | internal/runs/backuprun.go:613-639 | every snapshot that was not tagged before the run and is tagged now was written by the run's own sync, and it and every base backup its tags name holds one app version, on a quiet run |
| `BackupGuarantees.InvHasOneMoment` | internal/runs/backuprun.go:500-539 | all snapshots the run moved carry the resume moment and one list of tags, that of its databases |
| `BackupGuarantees.InvNamesEveryDatabase` | internal/runs/backuprun.go:674-677 | a moved snapshot names the base backup of every database of the run or says that it was hibernated |
| `BackupGuarantees.InvHasFinalDatabases` | internal/runs/backuprun.go:745-755 | once a run that paused workloads has its resume moment, every database item is done |
| `BackupGuarantees.InvReportsTrue` | internal/runs/backuprun.go:653-673 | what the run reports is so: a volume that succeeded names a snapshot in the repository, tagged on a run that paused and backed up every database, or its sync saved none; a database that succeeded has that completed Backup; one that was skipped was hibernated |
| `BackupWorld.WindowHolds` | internal/restic/repository.go:327-332 | the sync's window, widened by one second on each side, holds every snapshot from the start of the sync to its end |
| `BackupGuarantees.NamedBackupIsRecorded` | internal/runs/backuprun.go:761-773 | the base backup a moved snapshot names for a Cluster is the one the run recorded for that Cluster while the app was paused |
| `BackupGuarantees.Lifetime` | internal/runs/backuprun.go:76-123 | over the whole life of a run, with any stops and faults, all these guarantees hold at every call, no Lease names a finished run, and a run that no abort ended is Succeeded if and only if no item failed |
| `BackupGuarantees.PhasesDescend` | internal/runs/backuprun.go:957-966 | whatever is stored, the phases of the items descend a well-founded order and stay once they are done |
| `BackupTraces.ActKeepsInv` | internal/runs/backuprun.go:318-347 | each write of a pass, under the test that the pass makes before it, keeps the invariant |
| `BackupTraces.LeadsToSound` | internal/runs/backuprun.go:318-347 | every world that such writes and the environment reach from a planned run satisfies the invariant |
| `BackupTraces.BlindReadBreaksTheCut` | internal/runs/backuprun.go:461-464 | a run from its plan to its end: a failed read passes over a busy source, the run takes the clone of that sync for its own and tags a snapshot of a later version |
| `BackupTraces.CloneOfTheSecondBreaksTheCut` | internal/runs/backuprun.go:629-636 | the same ending with every read answered, after a clone that an older sync left within the second of the pause |
| `BackupTraces.YoungSnapshotBreaksTheCut` | internal/restic/repository.go:327-344 | a run whose sync saves nothing tags a snapshot of an older sync that is one nanosecond younger than two seconds before the pause |
| `PauseConservation.StepKeepsInv` | internal/runs/pause.go:179-244 | every call of any run, with a restart at any point, keeps that only the holder of backup-pause has something changed and that its plan covers it |
| `PauseConservation.Conservation` | internal/runs/pause.go:179-323 | in every interleaving each recorded count is the owner's, and once all runs are terminal every workload and Kustomization is as before the first run |
| `PauseConservation.OnlyTheWindowTouches` | internal/runs/backuprun.go:871-887 | a run that gives back without the Lease is one whose terminal write failed after its release |
| `PauseConservation.WindowTouchesAPause` | internal/runs/backuprun.go:849-865 | that window is real: such a run scales the workload of the next run's pause back up |
| `PauseConservation.RunComesAndGoes` | internal/runs/pause.go:179-323 | a run that may begin can stop each of its workloads and cut it off from Flux by calls of its own, and from there end with everything as its owner wants it and the Lease free |
| `RestoreWorld.EnvKeepsInv` | internal/runs/restore_items.go:277-342 | the Job controller, CloudNativePG, the owner, the webhook's refusal and a deletion of the run keep the invariant of the run |
| `RestoreRuns.RestoreRunReconciler.ApplyPause` | internal/runs/pause.go:227-244 | workloads are stopped only under a stored selection and a stored plan, after their Kustomizations; without an error the whole plan is applied |
| `RestoreRuns.RestoreRunReconciler.PausePlan` | internal/runs/pause.go:179-213 | the plan names the listed workloads, and once each every Kustomization that still applies one |
| `RestoreRuns.RestoreRunReconciler.Pause` | internal/runs/restorerun.go:472-493 | the plan is stored before the first patch; a listed workload that is not there ends the run, and a failed patch aborts it |
| `RestoreRuns.RestoreRunReconciler.PausedPodsGone` | internal/runs/pause.go:359-372 | yes means that the whole plan is applied and no pod of its workloads is left; no means that one is or a read failed |
| `RestoreRuns.RestoreRunReconciler.AppIsDown` | internal/runs/restorerun.go:341-353 | before anything is restored the pause is applied again and no pod of the paused workloads is left |
| `RestoreRuns.RestoreRunReconciler.Select` | internal/runs/restorerun.go:325-336 | without a backup for some Pending item the run ends Failed, with those items Failed and the other Pending ones Skipped; else the selection is stored |
| `RestoreRuns.RestoreRunReconciler.GiveBack` | internal/runs/pause.go:302-323 | everything is back, the Kustomizations last; in abort and finalize no Job and no pod of one is left at any of the patches, and in every other pass nothing of the old Clusters whose items no abort stored as Failed |
| `RestoreRuns.RestoreRunReconciler.StartJob` | internal/runs/restore_items.go:45-85 | the item waits exactly when a pod mounts the claim, fails only when a call failed or the repository is not found, and else its Job is created after its name is stored |
| `RestoreRuns.RestoreRunReconciler.FollowJob` | internal/runs/restore_items.go:87-106 | the item becomes exactly what its Job shows: Succeeded when it completed, Failed when it failed or is gone |
| `RestoreRuns.RestoreRunReconciler.DeleteCluster` | internal/runs/restore_items.go:347-357 | the delete reaches only the Cluster with the recorded UID, after the phase Deleted is stored, every volume is restored and the app is down; without an error that Cluster is being deleted or gone |
| `RestoreRuns.RestoreRunReconciler.StartDatabase` | internal/runs/restore_items.go:279-297 | without a Cluster the item fails; else the UID and the phase Deleted are stored before the delete, the Cluster is being deleted, and the pass waits for the shutdown |
| `RestoreRuns.RestoreRunReconciler.AwaitDatabase` | internal/runs/restore_items.go:299-326 | the pass waits while the old Cluster or an instance is left, deletes that Cluster again if need be, and a new one makes the item Recovering exactly when it is the run's recovery; without a wait nothing of the old one is left |
| `RestoreRuns.RestoreRunReconciler.FollowDatabase` | internal/runs/restore_items.go:328-339 | a Recovering item becomes exactly what its Cluster shows |
| `RestoreRuns.RestoreRunReconciler.RestoreDatabases` | internal/runs/restorerun.go:377-399 | every Pending Cluster is deleted, or skipped exactly when a volume failed; after a pass that waits for no shutdown nothing is left of any old Cluster whose item no abort stored as Failed |
| `RestoreRuns.RestoreRunReconciler.Resume` | internal/runs/restorerun.go:499-507 | the resume is stored before anything is given back |
| `RestoreRuns.RestoreRunReconciler.DeleteJobs` | internal/runs/restorerun.go:592-612 | without an error every Job that has not failed on its own is gone |
| `RestoreRuns.RestoreRunReconciler.JobPodsGone` | internal/runs/restorerun.go:613-623 | without an error no pod of a restore Job is left |
| `RestoreRuns.RestoreRunReconciler.Release` | internal/runs/restorerun.go:592-633 | Jobs and pods are gone before the app comes back, and no Lease of the protocol names the run at the end |
| `RestoreRuns.RestoreRunReconciler.Finish` | internal/runs/restorerun.go:566-582 | the terminal phase is stored only after everything is given back and every item is done: Succeeded when none failed, Failed when one did or abort ended the run |
| `RestoreRuns.RestoreRunReconciler.Abort` | internal/runs/restorerun.go:545-554 | every item that has not ended fails, and without a failed call the run ends |
| `RestoreRuns.RestoreRunReconciler.Work` | internal/runs/restorerun.go:302-419 | one pass keeps the invariant; unless a call fails or a pod is still stopping it aborts past the deadline, ends, waits for a Lease or for a pod of the app that is there, stores the selection or the pause, or gets done all there is to do |
| `RestoreRuns.RestoreRunReconciler.RestoreItems` | internal/runs/restorerun.go:355-418 | a pass over a stopped app: every Pending volume starts unless its claim is mounted, every Job that had ended is followed, the Clusters come once all volumes are done, the app comes back once no Cluster is Pending or Deleted, and a run whose items are all done ends Succeeded if and only if none failed |
| `RestoreRuns.RestoreRunReconciler.Reconcile` | internal/runs/restorerun.go:98-130 | a pass from the stored run keeps every earlier change in order |
| `RestoreRuns.RestoreRunReconciler.Passes` | internal/runs/restorerun.go:98-130 | any number of passes: all changes in order, phases only onward, and terminal means given back |
| `RestoreRuns.Lifetime` | internal/runs/restorerun.go:85-130 | over the whole life of a run nothing changes before the selection is stored; a Job starts and a Cluster is deleted only while every patch of the stored, unresumed pause is there and no pod of its workloads is left; the app comes back only in order; what succeeded was restored; no Lease names a finished run; and a run that no abort ended is Succeeded if and only if no item failed |
| `RestoreRuns.InvDelivers` | internal/runs/restore_items.go:96-105 | a volume that succeeded was restored by a Job that completed, and a Cluster that succeeded came back with the run's recovery and became healthy |
| `RestoreTraces.OrdinaryOrderIff` | internal/runs/restorerun.go:401-405 | under a stored status an ordinary pass gives the app back only with nothing left of the old Clusters, whatever the cluster does, if and only if no item with a UID is one that an abort stored as Failed |
| `RestoreTraces.AbortFailsHalfway` | internal/runs/restorerun.go:545-554 | a run from its plan: an abort stores all items as Failed and the resume, and fails to scale back while the old instance is there |
| `RestoreTraces.OrdinaryPassResumesEarly` | internal/runs/restorerun.go:401-405 | the next ordinary pass then resumes the app beside that instance |
| `Selection.SelectSnapshot` | internal/runs/restore_select.go:134-174 | the (previous + 1)-th newest snapshot in reach, or none exactly when there are not that many |
| `Selection.SortByTimeSorts` | internal/runs/restore_select.go:152-152 | the sort ascends by time and keeps exactly the snapshots |
| `Selection.CountSorted` | internal/runs/restore_select.go:154-173 | the place in the sorted list is the rank among the snapshots in reach |
| `Selection.NewestByMeans` | internal/bootstrap/basebackups.go:155-167 | the search gives a newest base backup that ended by the time, or none exactly when none did |
| `Selection.AtOrBefore` | internal/bootstrap/basebackups.go:155-167 | the loop gives the newest base backup that ended by the time |
| `Selection.SelectBaseBackup` | internal/runs/restore_select.go:253-305 | the base backup the paused snapshots name if the store holds it; else the end of the archive when the Cluster was hibernated and wrote nothing since, or when no moment is asked; else the newest base backup that ended by the moment; and none exactly when no branch gives one |
| `Selection.RightIsUnique` | internal/runs/restore_select.go:253-305 | there is one such target |
| `Selection.RightIsNotAhead` | internal/runs/restore_select.go:253-305 | it is in the store and not ahead of the moment |
| `Selection.SelectBackups` | internal/runs/restore_select.go:47-118 | every Pending item gets its backup, in sync mode at one moment; or no item stays Pending, those that failed have none in reach at that moment, and the others are skipped |
| `Selection.OneMomentForAll` | internal/runs/restore_select.go:74-82 | in sync mode all volumes restore paused snapshots of one time |
| `Synced.Moment` | internal/synced/synced.go:73-91 | the newest paused second if and only if every repository holds it, in whatever order the map is walked |
| `Synced.MomentIsUnique` | internal/synced/synced.go:73-91 | a namespace has at most one such moment |
| `Synced.FirstAtMeans` | internal/synced/synced.go:95-102 | At finds a paused snapshot of the moment exactly when the repository holds one, and it is the first one listed |
| `Synced.ChooseMeans` | internal/populator/choose.go:84-122 | what fills a claim with a pin, at a moment, and without either; the error and the empty bind exactly when they are due |
| `Synced.LatestIsNewest` | internal/populator/choose.go:84-97 | without a pin and a moment it is the newest snapshot, of several the first one listed |
| `Synced.ClaimsFromMoment` | internal/bootstrap/webhook.go:425-463 | yes exactly when every marked claim comes back from the moment, with the earliest start of a finished restore |
| `Synced.PopulatorMeetsWebhook` | internal/populator/populator.go:295-321 | at the moment every repository is filled from a paused snapshot of that second, and the recorded entry passes the webhook's test |
| `Webhook.WaitingRun` | internal/bootstrap/webhook.go:270-287 | a run that is alive and recorded the Cluster as Deleted, or none exactly when there is none |
| `Webhook.RecoveryFor` | internal/bootstrap/webhook.go:512-528 | exactly the recorded stop, the end of the archive without one, or a refusal when the store lost it |
| `Webhook.NeverAhead` | internal/bootstrap/webhook.go:512-528 | a target that was not ahead when selected is what the webhook writes, or the create is refused |
| `Webhook.AutomaticRecovery` | internal/bootstrap/webhook.go:361-404 | the goal is in the listing or the end of the archive, and with uniform tags it is the one goal for every order of the map |
| `Webhook.AutomaticIsUnique` | internal/bootstrap/webhook.go:383-399 | there is only one such goal |
| `Webhook.PastTheMoment` | internal/bootstrap/webhook.go:383-403 | the goal passes the moment only when the database was hibernated and silent since, or when no base backup ended by it |
| `Webhook.EarliestDecides` | internal/bootstrap/webhook.go:377-382 | checking the WAL after the earliest restore finds every database that wrote beside a filled claim |
| `Webhook.Handle` | internal/bootstrap/webhook.go:118-260 | each answer exactly when it is due: a recovery for the create of an archiving Cluster once every read answered, nothing is left, a base backup is listed and the waiting run's target is still in the store; unchanged over an empty archive, a declared recovery or an opt-out; a refusal and an error in the cases left |
| `Webhook.NeverEmptyOverAnArchive` | internal/bootstrap/webhook.go:118-260 | so an archiving Cluster without a declared recovery or an opt-out never starts empty over an archive that holds something |
| `Recovery.MomentIsUniform` | internal/runs/backuprun.go:500-539 | the tags of the moment are uniform because one quiet BackupRun tagged its snapshots |
| `Recovery.VolumesComeBackAtCut` | internal/populator/choose.go:84-97 | the populator fills every claim with the version at which the run stopped the app |
| `Recovery.TaggedComesBackAtCut` | internal/bootstrap/webhook.go:383-387 | a Cluster whose base backup the moment names recovers to it, and it holds the version of the volumes |
| `Recovery.HibernatedComesBack` | internal/bootstrap/webhook.go:388-396 | a Cluster that the moment says was hibernated, without WAL since, recovers to the end of its archive, and the run did find it hibernated |
| `Recovery.OthersComeBackBefore` | internal/bootstrap/webhook.go:400-403 | in every other case the goal is the newest base backup that ended by the moment, and past the moment only when there is none |
| `KeyCache.CachedOpenRefinesOpen` | internal/restic/keycache.go:65-109 | over any interleaving each answer is that of Open, at most one derivation runs at a time, and each entry is derived at most once |
| `KeyCache.OpenMeans` | internal/restic/keycache.go:121-137 | the first key file that is not a wrong key decides, by its key or by its error; no key opens exactly when all are wrong; and no key file means no repository |
| `KeyCache.Caller.OpenCached` | internal/restic/keycache.go:81-109 | one call among others answers as Open does, stores the key it derived and never keeps the slot; with a free slot, nothing in between and every read through there is an answer |
| `KeyCache.Caller.Derive` | internal/restic/keycache.go:121-137 | the loop over the key files gives the first that opens, or the error of Open |
| `WalSince.WALSince` | internal/bootstrap/s3.go:65-95 | yes exactly when a file right under wals/ or in the last directory is newer, for every order of the listings |
| `WalSince.AlongTheNamesSuffices` | internal/bootstrap/s3.go:59-64 | in an archive whose files are never older along the names of the directories the two listings equal the full scan |
| `WalSince.TwoListingsSuffice` | internal/bootstrap/s3.go:51-64 | this equals a scan of the whole archive if and only if a newer file in some directory comes with one in the last directory or right under wals/ |
| `Schedule.DueTick` | internal/runs/schedule.go:204-213 | the greatest tick after the baseline and not after now, or none exactly when there is none |
| `Schedule.Baseline` | internal/runs/schedule.go:143-154 | the newest tick that has a run, or the creation of the namespace |
| `Schedule.Reconciles` | internal/runs/schedule.go:143-186 | over any sequence of reconciles with runs that disappear in between, a reconcile creates a run exactly when a tick is due and nothing makes it wait, and for the newest due tick; no tick gets two when none disappears, or when runs only expire and no two ticks are further apart than their time to live |
| `Schedule.DueAgainIff` | internal/runs/schedule.go:143-156 | an earlier tick is due again if and only if no run of it or of a later tick is left and no tick came since |
| `Schedule.TwiceMeansGone` | internal/runs/schedule.go:143-156 | so a tick has two runs only after its first one and every later one disappeared |
| `Schedule.ExpiredTickRunsAgain` | internal/runs/schedule.go:24-28 | a monthly tick runs twice in a month of 31 days, since its run expires after 30 |

## Left out

- The stages plan and admit, Kueue admission, events, conditions and metrics: plumbing; a modelled run starts out planned, and an eviction or a passed deadline is an input.
- The deletion of an expired run: Schedule lets any run disappear, and models the time to live of a scheduled run.
- BackupRuns of one claim or one Cluster: they pause nothing and tag nothing, so they would only add easy members.
- S3, TLS, Secrets, JSON, zstd and the ciphers: stores are maps, and key files give a verdict for a password.
- The fields of Jobs, ReplicationSources and Clusters that no decision reads, retention, and setRecovery and keepRecovery, which edit an object.
- into restores: an AlreadyExists on the create of the claim is accepted, so the ownership rule is not a theorem of the code.
- archiveHolder: it holds only for creates one after another; its answer is an input of Handle.
- The populator's callbacks: only the choice of the snapshot and the recorded entry are modelled.
- Deletion of a paused workload or a Kustomization during a run, which the code skips over.
- RestoreRuns.RestoreRunReconciler.GiveBack: a patched object is back or it is not; the counts are in BackupRuns and PauseConservation.
- RestoreRuns.RestoreRunReconciler.Select: which items have no backup in reach is an input; Selection.SelectBackups says which.
- BackupRuns.BackupRunReconciler.ResumeWorkloads: the Resumed marks enter the copy in memory when both loops are through; after an error the pass ends without a write, so the partial marks are never seen.
- PauseConservation.Conservation: a RestoreRun re-applies its pause while an item is Pending; the model asks that the resume is not stored, which RestoreRuns shows to follow.
- KeyCache.CachedOpenRefinesOpen: the hash of an entry is taken to be injective.
- Selection.SelectBackups: a failed WAL check is part of an unreadable archive.
- Holders.ParseInvertsIdentity: strings are sequences of characters, not bytes.
