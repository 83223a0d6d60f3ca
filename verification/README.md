# Verification of the upgrade protocol

This project models how patroni-postgres-operator takes a Patroni cluster from one major PostgreSQL
version to the next, and proves what the upgrade promises: as long as the user edits the spec
considerately, the database is never lost and a database that is asked to run finds its own version
and identity on every volume, whatever the operator, the jobs or the API server do in between; and an
upgrade that is left undisturbed ends.

`dafny verify dfyconfig.toml` checks everything (Dafny 4.11).

## How the model is built

- `Volumes`, `Scripts`: the directories of a data volume (`data`, `data.new`, `data.new.done`,
  `data.preserve`) and the three conversion scripts as step programs, one command a step, with what an
  interrupted command leaves behind. `Shell` has the same scripts in their own imperative form and
  proves that they take exactly those steps; `Lives` what that means for pods killed and restarted.
- `Leader`, `Replica`, `LateKills`: one volume under its script, for every sequence of starts, commands
  and kills.
- `World`: the cluster: persisted status, annotations, StatefulSet, running pods, streamer, jobs and
  volumes. An `Event` is one API call of the operator taking effect, or one step of the environment
  (user, Patroni, job controller). A crash of the operator is simply that no further call follows.
- `Protocol`, `Safety`, `Edits`, `Conversion`, `Downtime`, `Unlisted`, `Histories`, `Versions`, `Conduct`:
  invariants and theorems over every run. `Edits` has the guard on the user's edits, `Conduct` what the
  operator lets itself be guided by.
- `Runs`, `Feasible`, `Witness`: runs that exist: that every upgradable cluster can be upgraded, and what
  an inconsiderate edit or a table with two offers leads to.
- `ApiServer`, `Operator`: the handlers and `Reconcile` call by call. Before every call the
  environment may act, and every call may succeed, be refused, or take effect and still fail. The
  handlers are proved to make only calls the protocol allows, and, when nothing fails, to do what
  `Rounds` says.
- `Laws`, `Setbacks`, `Progress`: what one undisturbed reconcile does and does not do, said of the cluster
  before and after it; `Setbacks` when a job has failed. `Completion`: how many reconciles an upgrade takes,
  with jobs that fail. `Deployment`: the operator on a new cluster.
- `Initdb`: the arguments handed to initdb, and a reader of them.
- `CatchUp`, `Replication`, `Extensions`, `Schedules`, `Claims`, `Images`, `StageChain`, `Names`, `Escape`,
  `Availability`: the pieces around the protocol.

Three fields of `World.World` are history variables, which nothing in the cluster shows. `finished` holds
the jobs of the current stage that have succeeded since they were last created; `Allowed` uses it to say
what a handler must have seen. `seen` is the spec as the current reconcile has read it, which may be
older than the spec in the cluster: claims and replicas are asked for by it, and a write of the status
conflicts, without effect, if the instance has been edited since it was read. `told` is the number of ready
replicas in the answer to the reconcile's last request for replicas; whether the cluster is ready is decided
by it.

## Assumptions about the environment

- pg_upgrade leaves either nothing usable in `data.new` or, at once, the whole new database there and
  `pg_control.old` in `data`. Renames and copies of single files are atomic.
- With no replicas asked for, the StatefulSet reports zero available replicas only if no database pod
  runs (`Operator.Reconciler.AvailableReplicas`). With a minimum ready time of 60 seconds the number
  alone does not say so; `Availability.YoungLeaderSharesItsVolume` shows what then happens.
- Only running Patroni pods change the leader, the `config` annotation and, on an empty cluster,
  `initialize`; Patroni makes a pod the leader only if it has the database.
- Reads are current, an update that returns was made against the object that was read (optimistic
  concurrency), one reconcile runs at a time, and the pods of a deleted or finished job have stopped.
- Two data directories of one cluster with the same version and the same last checkpoint hold the same
  files. So a completed `rsync --size-only` makes an exact copy of the leader's `data.new` on a replica that
  had caught up with the leader before pg_upgrade (`Volumes.CaughtUpWith`); on any other replica the copy
  need not be whole (`Scripts.Copied`). That no conversion comes to rsync on such a replica is proved
  (`Edits.RsyncOnlyWhenCaughtUp`).
- A pod's missing claim may be created from the StatefulSet's template. The admission policy in
  config/validations/pvc-management-admissionpolicy.yaml denies that; where it is installed there are fewer
  runs, and `Unlisted.ScaleUpBeyondTheListMakesOne` does not apply.

## Edits

The operator admits an upgrade by the claims its status lists, and reconciles no claims from then on. So
what happens to the data depends on when the user edits the spec:

- As long as the number of nodes is left alone, any version may be asked for at any time, and the data is
  safe in every state of every run (`Edits.DataIsSafe`, and `Deployment.Deploy` for the operator itself).
- In general the data is safe if every edit is considerate (`Edits.Considerate`): the version or the
  number of nodes is changed only while the status lists as many claims as the spec has nodes and no
  claim and no replica asked for lies beyond them (on a cluster whose status lists none yet: while no
  node is taken away); and the number of nodes only while no upgrade is under way or asked for, and
  not so as to cut off the leader. After a scale-in Patroni must not move the leader to a pod the spec
  has no node for.
- Otherwise it need not be. `Witness.UnguardedEditBreaksTheData` is a run from a new cluster in which one
  edit asks for the upgrade while the status lists fewer claims than the spec has nodes, and at its end a
  database is asked to run that meets a volume of the old version. `Unlisted.ConsistentExactlyIfUnlistedAgree`
  says for every run from stage primary to the scale-up of postupgrade exactly when that happens.
- Among the claims an ordinary reconcile deletes after a scale-in, exactly the leader's takes the database
  with it (`Edits.OnlyTheLeadersClaimMatters`).

## Where the code falls short of its documentation

- The documented list of stages has no preupgrade-scaledown; the code has it, and the model follows
  the code.
- A replica whose `data/PG_VERSION` cannot be read is never converted: `set -e` ends the script at its
  first command. A kill after the replica's data was removed, or a second job for a replica that was
  emptied on purpose, gets there (`Replica.RerunRecoversExactlyWhenReadable`,
  `Replica.KillAfterRemovalIsNeverRecovered`). The data stays safe; the upgrade does not go on.
- primary-upgrade reports the old checkpoint exactly if no pod of it was killed between pg_upgrade and the
  last line (`LateKills.CheckpointIsReportedExactly`). After such a kill a cluster of several nodes never gets
  beyond stage secondaries (`Conversion.LostCheckpointEndsTheUpgrade`).
- A kill while primary-upgrade copies the leader's configuration files loses those not copied yet; a kill
  after the last copy loses none (`LateKills.FilesAreCarriedExactly`).
- With a minimum ready time, zero available replicas can be reported while the leader's pod runs, and then
  primary-upgrade can be started beside it (`Availability.YoungLeaderSharesItsVolume`).
- An edit that raises version and nodes together, or asks for an upgrade while nodes are being added, is
  accepted (see Edits).
- A `data.preserve` left over from an earlier upgrade wins over the replica's own files
  (`Replica.OwnConfigExactly`).
- A locale or an encoding with a blank in it does not reach the new database, because the shell splits
  INITDB_ARGS (`Initdb.ArgsAreReadBackExactly`).
- With an image table that offers some version two upgrades, the offers kept from before an upgrade
  admit its reverse (`Witness.NoDowngradeExactlyIfSingle`). The shipped table is not such a table.

## Model

| member | source | states |
|---|---|---|
| Edits.DataIsSafe | private/upgrade/upgrade.go:93-120 | In every state of every run in which edits leave the number of nodes alone, with crashes and errors between any two calls and any edits of the version: if replicas are asked for, the leader's data is the whole database of the template's version with the identifier in `initialize` and no volume contradicts it; and the leader's volume always holds the whole database |
| Edits.DataIsSafeIfConsiderate | controllers/patronipostgres_controller.go:126-161 | The same for all runs whose edits are considerate, with nodes added and taken away |
| Edits.ConsiderateIsOrderly | controllers/patronipostgres_controller.go:131-142 | Considerate edits alone bring it about that an upgrade is admitted only with all claims and replicas listed, that preupgrade-sync scales no further, and that no reconcile deletes the leader's claim |
| Edits.OnlyTheLeadersClaimMatters | private/controllers/pvc/pvc.go:117-122 | A claim an ordinary reconcile may delete takes the database with it exactly if it is the leader's |
| Safety.PatroniKeepsSafe | private/controllers/statefulset/statefulset.go:155-174 | Patroni acts on volumes only while they are its own: pods run only in stages where every volume agrees with the cluster |
| Safety.MovedKeepsSafe | private/upgrade/common.go:59-66 | Any command, kill or failure of any conversion job in any stage keeps the stage's data invariant |
| Safety.EnterPrimary | private/upgrade/scaledown.go:43-62 | Leaving the scale-down stage, the data invariant of stage primary holds exactly if the volume the operator goes by is the leader's |
| Safety.EnterSecondaries | private/upgrade/primary.go:172-199 | When primary is complete the recorded identifier is that of the leader's whole new database |
| Safety.EnterMove | private/upgrade/secondary.go:105-119 | When secondaries is complete every other listed volume is empty or the whole new database |
| Safety.LeaveMove | private/upgrade/primary-move.go:142-146 | When primary-move is complete every listed volume agrees with the new version and identifier, and every volume if all are listed |
| Conversion.ReplicasWaitForLeader | private/upgrade/upgrade.go:71-80 | While no pod runs, no replica's data changes before the leader's data.new is the whole new database |
| Conversion.CheckpointIsRecordedOnce | private/controllers/configmap/configmap.go:205-216 | In every run, once a checkpoint is recorded no event replaces it, by another or by an empty one, until postupgrade clears it |
| Conversion.RecordedCheckpointIsTheLeaders | private/upgrade/primary.go:172-187 | In every run, from any point of stage primary until postupgrade asks for pods, no checkpoint is recorded but the last one of the leader's old database |
| Conversion.LostCheckpointEndsTheUpgrade | private/controllers/configmap/configmap.go:193-196 | In every run in which the pod of primary-upgrade is killed after pg_upgrade with no checkpoint recorded, a cluster of several nodes never gets beyond stage secondaries |
| Downtime.IdentifierIsRecordedOnce | private/upgrade/primary.go:172-199 | Once the leader is converted and its new identifier recorded, no run changes the record before postupgrade asks for pods, whatever jobs are created again |
| Edits.RsyncOnlyWhenCaughtUp | private/upgrade/upgrade-scripts/secondary-upgrade:38-57 | In every run with considerate edits, a conversion comes to rsync only on a replica at the last checkpoint of the leader's old database, so the copy is exact |
| Unlisted.ConsistentExactlyIfUnlistedAgree | private/upgrade/secondary-client.go:60-63 | However stage primary is left for the scale-up of postupgrade, the database then asked to run is consistent exactly if the volumes the status did not list agree with the new version and identifier |
| Unlisted.UnlistedVolumeBreaksConsistency | controllers/patronipostgres_controller.go:131-145 | If primary starts with the old version on a volume the status does not list, every scale-up of postupgrade contradicts that volume |
| Witness.UnguardedEditBreaksTheData | controllers/patronipostgres_controller.go:131-142 | For every table with an offer, a run from a new cluster whose edits are all considerate but the one that asks for the upgrade while fewer claims are listed than the spec has nodes, and that ends with an inconsistent database asked to run |
| Unlisted.ScaleUpBeyondTheListMakesOne | private/upgrade/preupgrade-sync.go:65-68 | In preupgrade-sync, a reconcile that has read one node more than the status lists lets such a volume arise, where pods may have their claims made from the template |
| Protocol.InvAlways | private/upgrade/upgrade.go:93-120 | In every state of every run, orderly or not: jobs and streamer belong to the current stage, no pods or replicas while volumes are converted, targets differ from versions, annotations match the stage |
| Protocol.NoJobsLeft | private/upgrade/common.go:158-167 | Whenever the persisted status moves on, no job and no streamer of the stage it leaves remains |
| Histories.NothingStale | private/upgrade/common.go:59-66 | In every state of every run a job exists only in its own stage, and the streamer only in secondaries |
| Histories.JobsAreOfThisVisit | private/upgrade/common.go:59-66 | A job that exists was created after the stage was last entered, so a Succeeded job is never left over |
| Histories.JobsEndBeforeTheyGo | private/upgrade/common.go:158-167 | In every run no job is deleted before it has succeeded or failed |
| Histories.VolumesAreExclusive | private/upgrade/secondary-client.go:60-63 | Two jobs never mount the same volume; replica jobs mount their own listed volume, the others the leader's; no pods or replicas meanwhile |
| Histories.LeaderIsFixed | private/controllers/configmap/configmap.go:232-253 | From primary through primary-move every event keeps the leader's volume, the listed volumes and zero replicas |
| Histories.StagesInOrder | private/upgrade/upgrade.go:101-117 | Within an upgrade persisted states never go back, the target is constant, and the version changes only in the write that moves to postupgrade |
| Histories.NoStageIsSkipped | private/upgrade/upgrade.go:70-90 | Every stage between two that occur in one upgrade occurs |
| Histories.AnnotationsAreCleared | private/controllers/configmap/configmap.go:218-230 | Without an upgrade there are no upgrade annotations; before postupgrade asks for pods the pause is gone |
| Histories.OnlyThePauseGoes | private/controllers/configmap/configmap.go:138-158 | In every run from the start of stage primary to the scale-up of postupgrade, Patroni's settings are the old ones, without the pause once stage primary is left; without settings it is never left |
| Conduct.IgnoredIsLeftAlone | controllers/patronipostgres_controller.go:90-94 | In every run in which the operator has read, and goes on reading, that the instance is to be ignored, the cluster is what the user, Patroni and the jobs alone make of it |
| Conduct.PostupgradeWaitsForReplicas | private/upgrade/postupgrade.go:53-68 | In every run the job of postupgrade is created only in a reconcile that has asked for the replicas of the spec at the new version and was told that all were ready |
| Conduct.UpgradeGetsReportedSettings | private/upgrade/primary.go:76-129 | In every run primary-upgrade is given the arguments that a preupgrade job's report calls for, one without prepared transactions, and initdb reads that report's locale, encoding and checksums off them if no value has a blank |
| Initdb.ArgsAreReadBackExactly | private/upgrade/preupgrade.go:142-155 | The arguments written for a configuration are read back as its locale, encoding and checksums exactly if no value has a blank |
| Laws.AdmittedExactlyIf | controllers/patronipostgres_controller.go:90-142 | A reconcile admits a ready cluster exactly if it is not to be ignored, the spec asks for another version that is on offer, and with several volumes a leader is named |
| Laws.UnofferedIsRefused | controllers/patronipostgres_controller.go:131-146 | A version that is not on offer is refused with an error, and nothing is reconciled |
| Laws.SyncFindsReplicas | private/upgrade/preupgrade-sync.go:65-77 | A reconcile that creates the job of preupgrade-sync leaves the replicas of the spec asked for at the old version |
| Laws.PostupgradeWaits | private/upgrade/postupgrade.go:61-63 | While not all replicas are ready, a reconcile neither creates the job of postupgrade nor leaves the stage |
| Laws.ResultIsRecorded | private/upgrade/primary.go:172-199 | After a reconcile a succeeded job of primary-upgrade is gone only with checkpoint and identifier on record and the pause removed, even if it had failed before |
| Setbacks.FailureIsAnswered | private/upgrade/common.go:158-167 | Whichever job has failed, the reconcile that gets as far returns an error, stays in the stage and deletes the job |
| Setbacks.FailedUpgradeIsDeleted | private/upgrade/primary.go:192-204 | A primary-upgrade job that has failed without succeeding is deleted by the next reconcile, with an error, whatever else holds |
| Witness.NoDowngradeExactlyIfSingle | controllers/patronipostgres_controller.go:131-144 | No run of a cluster, with any edits, admits an upgrade that does not raise the version, exactly for tables that offer each version at most one upgrade |
| Witness.TwoOffersDowngradeACluster | private/controllers/statefulset/statefulset.go:326-328 | With two offers for one version, a run of a new cluster through a whole upgrade that then admits the reverse |
| Versions.VersionNeverDecreases | private/controllers/statefulset/statefulset.go:326-331 | With such a table the cluster's version never decreases, and the image that runs the jobs has the binaries of both versions |
| Versions.ClusterFollowsPolicy | controllers/patronipostgres_controller.go:126-144 | Every event of the cluster is a step, or none, of the admission policy |
| Versions.ShippedIsSingle | private/image/registry.go:28-40 | The shipped table offers each version at most one upgrade |
| Images.Register | private/image/registry.go:42-48 | The registry maps exactly the listed versions, each to the last image that lists it |
| Images.UpgradeVersions | private/image/image.go:42-51 | The loop returns the image's versions above the given one, in order |
| Images.AboveMember | private/image/image.go:42-51 | A version is among them exactly if the image lists it and it is higher |
| Images.OfferedHasBinaries | private/image/registry.go:50-52 | An offered version is listed, with the current one, by the image that serves the current one |
| Images.LookupLists | private/image/registry.go:50-52 | A version has an image exactly if some image lists it |
| Leader.UpgradeIsCrashSafe | private/upgrade/upgrade-scripts/primary-upgrade:23-67 | For any kills, the volume holds the old database or its successor; an exit 0 names the successor and prints the old checkpoint or nothing |
| Leader.ReplayIsHarmless | private/upgrade/upgrade-scripts/primary-upgrade:23-67 | On a converted volume any runs change nothing and print the same identifier and an empty checkpoint |
| Leader.OthersAreLeftAlone | private/upgrade/upgrade-scripts/primary-upgrade:6-34 | A volume that is neither the old database the job names nor converted is left alone by every run, and none exits 0 |
| Leader.UndisturbedUpgrade | private/upgrade/upgrade-scripts/primary-upgrade:36-67 | One undisturbed run converts, prints checkpoint and identifier, and carries the leader's configuration files over |
| LateKills.CheckpointIsReportedExactly | private/upgrade/upgrade-scripts/primary-upgrade:36-67 | For any kills and restarts, an exit 0 has printed the old checkpoint exactly if no pod was killed between pg_upgrade and the last line, and nothing otherwise |
| LateKills.FilesAreCarriedExactly | private/upgrade/upgrade-scripts/primary-upgrade:52-61 | For any kills and restarts, after an exit 0 the leader's configuration files are in the new directory exactly if initdb made the same of those not copied yet when a pod was killed; all were copied exactly if none was killed while copying |
| Leader.MoveIsCrashSafeAndRecovers | private/upgrade/upgrade-scripts/primary-upgrade-move:8-11 | For any kills the database is in data.new or in place, and an undisturbed rerun puts it in place |
| Shell.Container.PrimaryUpgrade | private/upgrade/upgrade-scripts/primary-upgrade:6-67 | The script in its own form, killed at any command, leaves the volume and the exit of the same steps of `Scripts.Run` |
| Shell.Container.SecondaryUpgrade | private/upgrade/upgrade-scripts/secondary-upgrade:5-79 | Likewise, with the waiting loop and both loops over the configuration files |
| Shell.Container.PrimaryUpgradeMove | private/upgrade/upgrade-scripts/primary-upgrade-move:8-11 | Likewise |
| Shell.RunToCompletion | private/upgrade/common.go:91 | A pod restarted on failure takes the steps of `Restarts` |
| Lives.PrimaryScriptIsCrashSafe | private/upgrade/upgrade-scripts/primary-upgrade:23-67 | The imperative script, restarted after any kills, keeps the old database or its successor, and reports only the old checkpoint or none |
| Lives.SecondaryScriptIsCrashSafe | private/upgrade/upgrade-scripts/secondary-upgrade:21-79 | The imperative script, restarted after any kills: data.new.done is whole if it exists, an exit 0 leaves data absent or whole |
| Lives.MoveScriptIsCrashSafe | private/upgrade/upgrade-scripts/primary-upgrade-move:8-11 | The imperative script, restarted after any kills, keeps the database, and an exit 0 means it is in place |
| Replica.ConversionIsCrashSafe | private/upgrade/upgrade-scripts/secondary-upgrade:21-79 | For any kills, data.new.done is a whole copy whenever it exists, and an exit 0 leaves data absent or whole |
| Replica.OwnConfigExactly | private/upgrade/upgrade-scripts/secondary-upgrade:49-64 | The copy has the replica's own configuration files exactly if no file already in data.preserve differs from them |
| Replica.NeverConvertedUnlessCaughtUp | private/upgrade/upgrade-scripts/secondary-upgrade:38-73 | For any kills, a replica that had not caught up with the leader is never made into the new database: an exit 0 leaves it empty |
| Replica.InPlaceExactlyIfCaughtUp | private/upgrade/upgrade-scripts/secondary-upgrade:38-79 | Left alone, a replica is converted in place exactly if it had caught up with the leader, leaving no data.preserve, and emptied otherwise |
| Replica.RerunRecoversExactlyWhenReadable | private/upgrade/upgrade-scripts/secondary-upgrade:21-28 | From any crash point an undisturbed rerun exits 0 exactly if data/PG_VERSION can be read |
| Replica.KillAfterRemovalIsNeverRecovered | private/upgrade/upgrade-scripts/secondary-upgrade:70-79 | A kill after the data of a mismatched replica was removed leaves a volume no later run completes |
| Replica.UnreadableIsStuck | private/upgrade/upgrade-scripts/secondary-upgrade:5-22 | Without a readable PG_VERSION, or without the checkpoint or the identifier, no run changes the volume or exits 0 |
| Replica.ConvertedStays | private/upgrade/upgrade-scripts/secondary-upgrade:21-28 | A replica that has been converted stays as it is whatever is started and killed, and a run left alone exits 0 at once |
| Operator.Reconciler.Reconcile | controllers/patronipostgres_controller.go:75-164 | Whatever fails and whatever happens meanwhile, every call is one the protocol allows, so none but the read of the instance if that says to ignore it; undisturbed it does exactly one `ReconcileRound` |
| Operator.Reconciler.Body | controllers/patronipostgres_controller.go:126-163 | The status left to the deferred write is one that may be persisted: advance, admission or refresh; undisturbed it is `BodyRound` |
| Operator.Reconciler.Handle | private/upgrade/upgrade.go:93-120 | The status moves only when the stage is complete, to the next handler's state or to Ready with the annotations cleared |
| Operator.Reconciler.Preupgrade | private/upgrade/preupgrade.go:59-98 | Done only with the job succeeded and deleted, no prepared transactions reported, and the arguments recorded that its report calls for |
| Operator.Reconciler.ScaleDown | private/upgrade/scaledown.go:43-62 | Done only with zero replicas asked for and no pod running |
| Operator.Reconciler.PreupgradeSync | private/upgrade/preupgrade-sync.go:56-92 | Done at once for one volume, otherwise only with the job succeeded and deleted; the job is created only with the replicas of the spec asked for |
| Operator.Reconciler.PrimaryUpgrade | private/upgrade/primary.go:66-207 | Done only with the result recorded, the pause removed and the job deleted; the job carries the recorded initdb arguments; undisturbed it is `PrimaryRound` |
| Operator.Reconciler.RecordResult | private/upgrade/primary.go:179-187 | On success checkpoint and identifier are the job's; on failure only the prefix of the calls has taken effect |
| Operator.Reconciler.Secondaries | private/upgrade/secondary.go:60-122 | Done only with every replica's job succeeded and deleted and the streamer gone; undisturbed it is `SecondariesRound` |
| Operator.Reconciler.EnsureClients | private/upgrade/secondary-client.go:54-158 | One job for each listed volume but the leader's, in order, created only while the streamer serves the leader's volume; undisturbed exactly the missing ones are created |
| Operator.Reconciler.EnsureStreamer | private/upgrade/secondary-stream.go:55-174 | On success the streamer runs on the leader's volume; undisturbed it is created unless it exists |
| Operator.Reconciler.CountClients | private/upgrade/secondary.go:83-97 | Counts successes and failures and deletes in the foreground exactly the jobs that only failed |
| Operator.Reconciler.PrimaryMove | private/upgrade/primary-move.go:63-163 | The version in memory follows the upgrade only when the job has succeeded; undisturbed it is `MoveRound` |
| Operator.Reconciler.Postupgrade | private/upgrade/postupgrade.go:51-83 | Done only with the job succeeded and deleted; the job is created only when the answer to the request for replicas has counted all of them ready |
| Operator.Reconciler.EnsureHelper | private/upgrade/common.go:59-156 | Get or create: the job returned is the one in the cluster |
| Operator.Reconciler.CleanupJob | private/upgrade/common.go:158-167 | A job that has succeeded or failed, and no other, is deleted |
| Operator.Reconciler.ReconcileSts | private/controllers/statefulset/statefulset.go:87-318 | On success the StatefulSet has the spec's replicas and the status's version |
| Operator.Reconciler.ReconcileStatefulSet | private/controllers/statefulset/statefulset.go:320-334 | Ready with fresh offers exactly when the answer counted all replicas ready, Scaling with the old offers otherwise; undisturbed it changes the StatefulSet only |
| Operator.Reconciler.ReconcileClaims | private/controllers/pvc/pvc.go:47-125 | On success every node has a claim and the status lists one for each; no claim of a node goes in any case; undisturbed exactly the needed claims are left, with their contents |
| Operator.Reconciler.Ordinary | controllers/patronipostgres_controller.go:148-161 | The status in memory is one `MayRefresh` allows; undisturbed claims, StatefulSet and status are those of `OrdinaryRound` |
| ApiServer.Api.GetSyncLeader | private/controllers/configmap/configmap.go:232-253 | Volume 0 for a one-volume cluster, the annotation otherwise, an error without it |
| Stability.AllowedLater | controllers/patronipostgres_controller.go:116-122 | A call that was allowed when the handler decided on it is still allowed after any steps of the environment |
| Progress.CreatesAll | private/upgrade/secondary-client.go:60-155 | Every replica gets a job, those that had one keep it, the others get the one for their volume, and no other job is made |
| Progress.RoundAdvances | private/upgrade/upgrade.go:93-120 | One undisturbed reconcile of a settled cluster under upgrade succeeds and strictly lowers the measure or reaches Ready at the target |
| Completion.UpgradeEnds | private/upgrade/upgrade.go:93-120 | The upgrade reaches Ready at its target within Rank + 1 reconciles and two more for each time that jobs fail, for any number of nodes |
| Completion.EditedClusterIsUpgraded | controllers/patronipostgres_controller.go:126-145 | A ready cluster whose spec asks for an offered version is Ready at that version within 19 reconciles and two more for each time that jobs fail, for any number of nodes |
| Progress.ReconcileIsIdempotent | controllers/patronipostgres_controller.go:148-161 | A reconcile without an upgrade leaves exactly the claims and replicas of the spec, none replaced, and Ready exactly if all are ready; a second one changes nothing |
| Completion.RankIsBounded | private/upgrade/upgrade.go:70-90 | That is at most 18 reconciles if no job fails |
| Feasible.UpgradeIsPossible | private/upgrade/upgrade.go:70-90 | From every cluster whose upgrade has been admitted and whose volumes can be converted, whatever the number of nodes, a run leads to Ready at the target |
| Feasible.ReachesPostupgrade | private/upgrade/primary-move.go:142-146 | Such a run passes all conversion stages, every script left alone; the replicas that were at the leader's last checkpoint are then the new database, the others are empty, and unlisted volumes are as they were |
| Deployment.Deploy | controllers/patronipostgres_controller.go:75-164 | Any number of reconciles of a new cluster, under every schedule and fault pattern, is a legal run; it is safe at every point if the schedule leaves the number of nodes alone, and at every point up to which the edits were considerate |
| StageChain.Init | private/upgrade/upgrade.go:70-90 | For any distinct handlers the map holds one step for each, linked to the next in the list |
| StageChain.UpgradeMap | private/upgrade/upgrade.go:70-90 | Every handler is linked to the next in the list, and the last to none |
| StageChain.WalkVisitsTheRest | private/upgrade/upgrade.go:81-83 | From any position the links visit the rest of the list, each once and in order, and end |
| StageChain.UpgradeVisitsEveryStage | private/upgrade/preupgrade-scaledown.go:32-38 | The eight handlers have distinct names and the links visit them all |
| CatchUp.SyncRestorePoints | cmd/upgrade/preupgrade-sync.go:160-202 | On success the primary has been checkpointed since and is at the recorded position, and every replica has replayed exactly to it and has its restart point there; while no statement fails only the deadline ends it; on a cluster that stands still it succeeds exactly if every replica has reported the position |
| CatchUp.WaitReplicas | cmd/upgrade/preupgrade-sync.go:114-134 | In every interleaving the answer is true exactly if as many goroutines succeeded as there are replicas, and a success means synced |
| CatchUp.Cluster.ReadReplicas | cmd/upgrade/preupgrade-sync.go:62-89 | On success exactly n-1 different replicas, each of which has replayed to the position; it goes on asking until the deadline, and the first answer will do if all have reported |
| CatchUp.Cluster.Rows | cmd/upgrade/preupgrade-sync.go:65-80 | The rows are those of exactly the replicas that are connected and have reported the position or a later one |
| Replication.AllRowsExactlyIf | cmd/upgrade/preupgrade-sync.go:85-87 | There are n-1 rows exactly if every replica has reported |
| CatchUp.WaitReplicasReplayLSN | cmd/upgrade/preupgrade-sync.go:136-158 | On success every replica has replayed to the position and checkpointed after; while no statement fails it tries again until the deadline |
| Replication.RowsAreEveryone | cmd/upgrade/preupgrade-sync.go:85-87 | n-1 different replicas are all of them |
| Replication.SyncedIsExact | cmd/upgrade/preupgrade-sync.go:189-198 | If the primary has not moved, replicas that have caught up are exactly there |
| CatchUp.MemberNames | cmd/upgrade/preupgrade-sync.go:234-236 | The member names are distinct |
| Extensions.UpdateExtensions | cmd/upgrade/postupgrade.go:108-130 | In every interleaving no goroutine blocks on the channel, and an error is returned exactly if some database cannot be updated |
| Extensions.Postupgrade | cmd/upgrade/postupgrade.go:132-149 | Databases are analyzed only after all extensions of all databases are updated; success exactly if everything can be done |
| Claims.Reconcile | private/controllers/pvc/pvc.go:47-125 | On success, and it succeeds if no call fails, the claims are exactly the needed ones, listed in order; no needed claim is deleted or created over; nothing is deleted before all needed claims exist |
| Claims.ReconcileConverged | private/controllers/pvc/pvc.go:47-125 | On a converged cluster a run creates and deletes nothing |
| Names.PVCNameIsInjective | private/controllers/pvc/pvc.go:127-130 | Claims of different nodes or different clusters have different names |
| Names.MemberNameIsInjective | cmd/upgrade/preupgrade-sync.go:234-236 | So have members |
| Names.LeaderRoundTrip | private/controllers/configmap/configmap.go:248-249 | For every cluster name and index the leader's name parses back to the index |
| Names.ScanOfDecimal | private/controllers/configmap/configmap.go:249 | A number is scanned as printed, signed or not, or refused if it does not fit in 64 bits |
| Escape.ScriptsArriveUnchanged | private/upgrade/upgrade.go:64-68 | For every text and environment, the API's expansion of the doubled text is the text |
| Availability.YoungLeaderSharesItsVolume | private/upgrade/scaledown.go:57-59 | From every upgradable cluster of several volumes a run leads to the second scale-down stage with no replica asked for and, if the leader's pod became ready less than a minute before, none counted, although that pod runs; if the status moves on then, primary-upgrade may be started on the pod's volume |

## Left out

- Deployment.Deploy: is about safety only; that an upgrade ends is `Completion`, and that it can is `Feasible`. The former needs reconciles that nothing disturbs and an environment that settles between them, and counts reconciles instead of seconds.
- Completion.UpgradeEnds: is about sequences of clusters in which the environment has settled before every reconcile; that an environment can do so is not proved of these sequences, but `Feasible` proves that runs to the end exist. It needs the number of nodes to be fixed during the upgrade, because claims are not reconciled then, and a recorded checkpoint when there is more than one node.
- Operator.Reconciler.ReconcileClaims: claims are known by their index there; their names, and why different indices have different names, are in `Claims` and `Names`.
- CatchUp.SyncRestorePoints: what a CHECKPOINT itself writes is a part of what the primary may write at any time; deadlines are a number of statements; the pauses between attempts, and termination of the loop in `readReplicas` before the deadline, are not modelled.
- Operator.Reconciler.ScaleDown: zero available replicas is taken to mean that no pod runs; `Availability` says what happens when it does not.
- Operator.Reconciler.EnsureStreamer: the streamer's Service and its readiness are not modelled; a replica's script waits until the daemon answers.
- Operator.Reconciler.Preupgrade: the text the job logs and its parsing are one step that may fail; so are the logs of primary-upgrade.
- Shell.RunToCompletion: a job's limit of retries and its deadline appear in `World` as the step `FailJob` only.
- Stale caches, and conflicts of updates other than of the instance: reads are current, and an update that conflicts is one that is refused.
- Two reconciles at once, and a second operator: there is one at a time.
- A change of the leader while preupgrade-sync runs, seen by the job's own connections: the job holds one connection to one primary.
- The request that pauses Patroni over HTTP: the environment may change the `config` annotation at any time while pods run.
- The Kubernetes objects around the database (roles, secrets, services, network policies, disruption budgets, pod templates, labels and owners): they are calls without effect on an upgrade.
- PostgreSQL, pg_upgrade, rsync and Patroni themselves: each is a step with the effect the assumptions state.
- Copies of single configuration files that fail, and directories that cannot be removed: a failure of those is a kill at that command.
- Garbage collection: a job deleted in the background is gone at once, one deleted in the foreground stays until it is collected.
- The expansion of file name patterns in INITDB_ARGS by the shell.
- The number of ready replicas in the instance's status, which informs the user only.
- Node attributes, volume sizes, storage classes and volume resizing: a claim is its directories.
