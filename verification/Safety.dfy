/** What the upgrade promises about the data: at every point of every run the
    leader's volume holds the whole database, and a database that is asked to run
    finds its own version and system identifier everywhere. */
module Safety {
  import opened Base
  import opened Volumes
  import opened Scripts
  import opened Images
  import opened World
  import opened Protocol
  import opened Stability
  import Leader
  import Replica

  // ----- the property

  /** Whenever database pods are asked for, the leader's data is a whole database of the version in
      the pod template with the identifier in `initialize`, and no other volume contradicts it. */
  ghost predicate Consistent(w: World) {
    Replicas(w) > 0 && w.config.initialize.Some? ==>
      && w.leader.Some?
      && IsDatabase(Vol(w, w.leader.value).data, w.sts.value.template, w.config.initialize.value)
      && forall i: nat :: Agrees(Vol(w, i).data, w.sts.value.template, w.config.initialize.value)
  }

  /** The leader's volume holds the whole database under the recorded identifier, in data or in data.new;
      only between pg_upgrade and the recording of its result is data.new ahead of the record. */
  predicate NothingLost(w: World) {
    w.config.initialize.Some? ==>
      && w.leader.Some?
      && var x, id := Vol(w, w.leader.value), w.config.initialize.value;
         (|| IsDatabase(x.data, w.status.version, id)
          || IsDatabase(x.dataNew, w.status.upgradeVersion, id)
          || IsDatabase(x.data, w.status.upgradeVersion, id)
          || (InStage(w, Primary) && Leader.Converted(x, w.status.version, w.status.upgradeVersion)))
  }

  // ----- the condition on a run

  // Every claim there is, and every pod asked for, is one the status lists.
  ghost predicate Listed(w: World) {
    && Replicas(w) <= w.status.volumes
    && forall i :: i in w.vols ==> i < w.status.volumes
  }

  /** The calls that could set an upgrade going on fewer volumes than the cluster has, or take the
      leader's volume away: an admission with claims or pods the status does not list, a scale-up for
      preupgrade-sync beyond the listed volumes, a scale-in that cuts off the leader. */
  ghost predicate Orderly(w: World, e: Event) {
    match e
    case Env(_) => true
    case Op(Persist(s)) => w.status.upgradeVersion == 0 && s.upgradeVersion != 0 ==> Listed(w)
    case Op(PutSts(s)) => InStage(w, Sync) ==> s.replicas <= w.status.volumes
    case Op(DropClaim(i)) => w.leader != Some(i)
    case Op(_) => true
  }

  ghost predicate OrderlyRun(w: World, es: seq<Event>) {
    es == [] || (OrderlyRun(w, es[..|es| - 1]) && Orderly(After(w, es[..|es| - 1]), es[|es| - 1]))
  }

  // ----- the invariant

  // Between admission and the return to service.
  predicate InUpgrade(w: World) {
    w.status.upgradeVersion != 0 && !InStage(w, Postupgrade)
  }

  // Volume i when Patroni is in charge: nothing of a conversion is left, and it does not contradict the cluster.
  predicate HomeVol(w: World, i: nat) {
    && Vol(w, i).done.Absent?
    && match w.config.initialize
       case None => Vol(w, i).data.Absent?
       case Some(id) => Agrees(Vol(w, i).data, w.status.version, id)
  }

  // The database is where Patroni expects it.
  ghost predicate AtHome(w: World) {
    && (forall i: nat :: HomeVol(w, i))
    && match w.config.initialize
       case None => w.leader.None?
       case Some(id) => w.leader.Some? && IsDatabase(Vol(w, w.leader.value).data, w.status.version, id)
  }

  // AtHome, but for the volumes the status does not list.
  ghost predicate ListedHome(w: World) {
    && w.config.initialize.Some?
    && w.leader == Some(Target(w))
    && IsDatabase(Vol(w, Target(w)).data, w.status.version, w.config.initialize.value)
    && Vol(w, Target(w)).done.Absent?
    && forall i: nat :: IsReplica(w, i) ==> HomeVol(w, i)
  }

  // A listed volume that is not the leader's: one the conversion is for.
  predicate IsReplica(w: World, i: nat) {
    i < w.status.volumes && i != Target(w)
  }

  // A replica the conversion has not reached.
  predicate Waiting(w: World, i: nat) {
    Vol(w, i).done.Absent? && VersionOf(Vol(w, i).data) != Some(w.status.upgradeVersion)
  }

  // The recorded checkpoint is the last one of the database the leader's volume x held.
  predicate CheckpointOk(w: World, x: Volume) {
    w.config.checkpoint.Some? ==> Disabled(x.data) && w.config.checkpoint.value == LastCheckpoint(x.data)
  }

  // What primary-upgrade has achieved on the leader's volume x.
  predicate UpJobOk(w: World, x: Volume) {
    && (UpJob in w.jobs ==>
        w.jobs[UpJob].task.Upgrade? && Leader.UpgradePodOk(x, w.jobs[UpJob].pod, w.jobs[UpJob].task))
    && (UpJob in w.finished ==>
          && Leader.Converted(x, w.status.version, w.status.upgradeVersion)
          && w.finished[UpJob].Upgraded?
          && w.finished[UpJob].newSysId == SysIdOf(x.dataNew)
          && Leader.Honest(w.finished[UpJob].oldCheckpoint, x))
    && CheckpointOk(w, x)
  }

  ghost predicate PrimaryOk(w: World) {
    match w.config.initialize
    case None => AtHome(w) && UpJob !in w.jobs && UpJob !in w.finished
    case Some(id) =>
      && w.leader == Some(Target(w))
      && Vol(w, Target(w)).done.Absent?
      && Leader.UpgradeOk(Vol(w, Target(w)), w.status.version, w.status.upgradeVersion, id)
      && UpJobOk(w, Vol(w, Target(w)))
      && forall i: nat :: IsReplica(w, i) ==> Waiting(w, i)
  }

  // A replica under conversion, whatever its job has come to.
  predicate ReplicaOk(w: World, i: nat)
    requires w.config.initialize.Some?
  {
    && Replica.VolumeOk(Vol(w, i), w.status.upgradeVersion, w.config.initialize.value)
    && (SupJob(i) in w.jobs ==>
          && w.jobs[SupJob(i)].task.Convert?
          && Replica.PodOk(Vol(w, i), w.jobs[SupJob(i)].pod, w.jobs[SupJob(i)].task))
    && (SupJob(i) in w.finished ==> Replica.Settled(Vol(w, i), w.status.upgradeVersion, w.config.initialize.value))
  }

  ghost predicate SecondariesOk(w: World) {
    && w.config.initialize.Some?
    && w.leader == Some(Target(w))
    && Vol(w, Target(w)).done.Absent?
    && Volumes.Converted(Vol(w, Target(w)), w.status.version, w.status.upgradeVersion, w.config.initialize.value)
    && CheckpointOk(w, Vol(w, Target(w)))
    && forall i: nat :: IsReplica(w, i) ==> ReplicaOk(w, i)
  }

  predicate SettledVol(w: World, i: nat)
    requires w.config.initialize.Some?
  {
    Replica.Settled(Vol(w, i), w.status.upgradeVersion, w.config.initialize.value)
  }

  // What primary-upgrade-move has achieved on the leader's volume x.
  predicate MoveJobOk(w: World, x: Volume, id: string) {
    && Leader.MoveOk(x, w.status.upgradeVersion, id)
    && (MoveJob in w.jobs ==> Leader.MovePodOk(x, w.jobs[MoveJob].pod, w.status.upgradeVersion, id))
    && (MoveJob in w.finished ==> Leader.Moved(x, w.status.upgradeVersion, id))
  }

  ghost predicate MoveStageOk(w: World) {
    && w.config.initialize.Some?
    && w.leader == Some(Target(w))
    && Vol(w, Target(w)).done.Absent?
    && MoveJobOk(w, Vol(w, Target(w)), w.config.initialize.value)
    && forall i: nat :: IsReplica(w, i) ==> SettledVol(w, i)
  }

  ghost predicate StageOk(w: World) {
    if InStage(w, Primary) then PrimaryOk(w)
    else if InStage(w, Secondaries) then SecondariesOk(w)
    else if InStage(w, PrimaryMove) then MoveStageOk(w)
    else AtHome(w)
  }

  // The data invariant of orderly runs.
  ghost predicate Safe(w: World) {
    && (InUpgrade(w) ==> Listed(w))
    && StageOk(w)
  }

  // ----- Patroni

  lemma PatroniKeepsVol(w: World, a: Action, i: nat)
    requires PodsOk(w) && AtHome(w)
    ensures HomeVol(PatroniStep(w, a), i)
  {
    assert HomeVol(w, i);
    if a.Clone? && w.leader.Some? {
      assert HomeVol(w, w.leader.value);
    }
  }

  lemma PatroniKeepsHome(w: World, a: Action)
    requires PodsOk(w) && AtHome(w)
    ensures AtHome(PatroniStep(w, a))
  {
    forall i: nat
      ensures HomeVol(PatroniStep(w, a), i)
    {
      PatroniKeepsVol(w, a, i);
    }
  }

  lemma PatroniKeepsListed(w: World, a: Action)
    requires PodsOk(w) && Listed(w)
    ensures Listed(PatroniStep(w, a))
  {
    var w' := PatroniStep(w, a);
    assert w'.status == w.status && w'.sts == w.sts;
    assert forall i :: i in w'.vols ==> i in w.vols || i < Replicas(w);
  }

  // With no pods there is nothing for Patroni to do.
  lemma PatroniIdles(w: World, a: Action)
    requires Quiet(w)
    ensures PatroniStep(w, a) == w
  {
  }

  lemma PatroniKeepsStage(w: World, a: Action)
    requires Inv(w) && StageOk(w)
    ensures StageOk(PatroniStep(w, a))
  {
    if Converting(w) {
      PatroniIdles(w, a);
    } else {
      PatroniKeepsHome(w, a);
    }
  }

  lemma PatroniKeepsSafe(w: World, a: Action)
    requires Inv(w) && Safe(w)
    ensures Safe(PatroniStep(w, a))
  {
    PatroniKeepsStage(w, a);
    if InUpgrade(w) {
      PatroniKeepsListed(w, a);
    }
  }

  // ----- conversion jobs

  // The pod of job `name` takes a step or stops; its record becomes j and its volume x.
  ghost predicate JobMoved(w: World, w': World, name: JobName, x: Volume) {
    && Active(w, name) && name in w'.jobs
    && w'.jobs[name].task == w.jobs[name].task
    && w' == w.(jobs := w.jobs[name := w'.jobs[name]], vols := w.vols[w.jobs[name].task.vol := x],
        finished := w'.finished)
    && w'.finished == if w'.jobs[name].pod.Finished? then w.finished[name := w'.jobs[name].pod.output] else w.finished
  }

  lemma UpJobMoves(w: World, w': World, x: Volume)
    requires JobOk(w, UpJob) && PrimaryOk(w) && JobMoved(w, w', UpJob, x) && w.config.initialize.Some?
    requires Leader.UpgradeOk(x, w.status.version, w.status.upgradeVersion, w.config.initialize.value)
    requires Leader.UpgradePodOk(x, w'.jobs[UpJob].pod, w.jobs[UpJob].task)
    requires x.done == Vol(w, Target(w)).done
    requires LastCheckpoint(x.data) == LastCheckpoint(Vol(w, Target(w)).data)
    requires Disabled(Vol(w, Target(w)).data) ==> Disabled(x.data)
    ensures PrimaryOk(w')
  {
    assert Target(w') == Target(w);
    assert forall i: nat :: IsReplica(w, i) ==> Waiting(w, i) ==> Waiting(w', i);
  }

  lemma SupJobMoves(w: World, w': World, i: nat, x: Volume)
    requires JobOk(w, SupJob(i)) && SecondariesOk(w) && JobMoved(w, w', SupJob(i), x)
    requires Replica.VolumeOk(x, w.status.upgradeVersion, w.config.initialize.value)
    requires Replica.PodOk(x, w'.jobs[SupJob(i)].pod, w.jobs[SupJob(i)].task)
    ensures SecondariesOk(w')
  {
    assert Target(w') == Target(w) && i != Target(w);
    forall k: nat | IsReplica(w', k)
      ensures ReplicaOk(w', k)
    {
      assert ReplicaOk(w, k);
      assert k != i ==> Vol(w', k) == Vol(w, k);
    }
  }

  lemma MoveJobMoves(w: World, w': World, x: Volume)
    requires JobOk(w, MoveJob) && MoveStageOk(w) && JobMoved(w, w', MoveJob, x)
    requires Leader.MoveOk(x, w.status.upgradeVersion, w.config.initialize.value)
    requires Leader.MovePodOk(x, w'.jobs[MoveJob].pod, w.status.upgradeVersion, w.config.initialize.value)
    requires x.done == Vol(w, Target(w)).done
    ensures MoveStageOk(w')
  {
    assert Target(w') == Target(w);
    assert forall i: nat :: IsReplica(w, i) ==> SettledVol(w, i) ==> SettledVol(w', i);
  }

  // Outside the conversion stages no job has a volume.
  lemma HelpersOnly(w: World, name: JobName)
    requires JobOk(w, name) && Active(w, name)
    ensures Converting(w)
  {
  }

  // A job of a conversion stage is the one that stage is for.
  lemma ActiveJob(w: World, name: JobName)
    requires JobOk(w, name) && Active(w, name)
    ensures InStage(w, Primary) ==> name == UpJob
    ensures InStage(w, Secondaries) ==> name.SupJob?
    ensures InStage(w, PrimaryMove) ==> name == MoveJob
    ensures TaskOk(w, name, w.jobs[name].task)
  {
  }

  lemma MovedKeepsSafe(w: World, w': World, name: JobName, x: Volume, pc: Pc, c: Chance)
    requires Inv(w) && StageOk(w) && JobMoved(w, w', name, x)
    requires w.jobs[name].pod == At(pc)
    requires var t := w.jobs[name].task;
             || (x == Run(w.vols[t.vol], pc, t, Served(w), c).vol
                 && w'.jobs[name].pod == Run(w.vols[t.vol], pc, t, Served(w), c).pod)
             || (x == Interrupt(w.vols[t.vol], pc, t, Served(w), c) && w'.jobs[name].pod == Idle)
    ensures StageOk(w')
  {
    assert JobOk(w, name);
    HelpersOnly(w, name);
    ActiveJob(w, name);
    var t := w.jobs[name].task;
    var v := w.vols[t.vol];
    if InStage(w, Primary) {
      UpMovedKeeps(w, w', x, pc, c);
    } else if InStage(w, Secondaries) {
      SupMovedKeeps(w, w', name.i, x, pc, c);
    } else {
      assert MoveStageOk(w);
      Leader.RunKeepsMove(v, pc, t, c, w.status.upgradeVersion, w.config.initialize.value);
      Leader.InterruptKeepsMove(v, pc, t, c, w.status.upgradeVersion, w.config.initialize.value);
      MoveJobMoves(w, w', x);
    }
  }

  lemma UpMovedKeeps(w: World, w': World, x: Volume, pc: Pc, c: Chance)
    requires Inv(w) && PrimaryOk(w) && InStage(w, Primary) && JobMoved(w, w', UpJob, x) && JobOk(w, UpJob)
    requires w.jobs[UpJob].pod == At(pc)
    requires var t := w.jobs[UpJob].task;
             || (x == Run(w.vols[t.vol], pc, t, Served(w), c).vol
                 && w'.jobs[UpJob].pod == Run(w.vols[t.vol], pc, t, Served(w), c).pod)
             || (x == Interrupt(w.vols[t.vol], pc, t, Served(w), c) && w'.jobs[UpJob].pod == Idle)
    ensures PrimaryOk(w')
  {
    var t := w.jobs[UpJob].task;
    var v := w.vols[t.vol];
    var id := w.config.initialize.value;
    Leader.RunKeepsUpgrade(v, pc, t, id, c);
    Leader.InterruptKeepsUpgrade(v, pc, t, id, c);
    UpJobMoves(w, w', x);
  }

  lemma SupMovedKeeps(w: World, w': World, i: nat, x: Volume, pc: Pc, c: Chance)
    requires Inv(w) && SecondariesOk(w) && InStage(w, Secondaries) && JobMoved(w, w', SupJob(i), x)
        && JobOk(w, SupJob(i))
    requires w.jobs[SupJob(i)].pod == At(pc)
    requires var t := w.jobs[SupJob(i)].task;
             || (x == Run(w.vols[t.vol], pc, t, Served(w), c).vol
                 && w'.jobs[SupJob(i)].pod == Run(w.vols[t.vol], pc, t, Served(w), c).pod)
             || (x == Interrupt(w.vols[t.vol], pc, t, Served(w), c) && w'.jobs[SupJob(i)].pod == Idle)
    ensures SecondariesOk(w')
  {
    var t := w.jobs[SupJob(i)].task;
    var src := Vol(w, Target(w));
    assert ReplicaOk(w, i);
    assert Served(w) == Replica.Source(src, w.streamer.Some?);
    assert Replica.ConversionTask(t, src);
    Replica.RunKeepsVolume(w.vols[i], pc, t, src, w.streamer.Some?, c);
    Replica.InterruptKeepsVolume(w.vols[i], pc, t, src, w.streamer.Some?, c);
    SupJobMoves(w, w', i, x);
  }

  // ----- steps that leave the data alone

  // The volumes and what identifies the cluster are the same.
  predicate SameData(w: World, w': World) {
    && w'.vols == w.vols && w'.config.initialize == w.config.initialize && w'.leader == w.leader
        && w'.status == w.status
    && (Converting(w) ==> w'.config.checkpoint == w.config.checkpoint)
  }

  // What is known of job `name` in w' was known in w, or is nothing: its pod is idle or at the first command.
  predicate Tame(w: World, w': World, name: JobName) {
    && (name in w'.finished ==> name in w.finished && w'.finished[name] == w.finished[name])
    && (name in w'.jobs ==>
          || (name in w.jobs && w'.jobs[name].task == w.jobs[name].task && w'.jobs[name].pod == w.jobs[name].pod)
          || (TaskOk(w', name, w'.jobs[name].task) && name !in w'.finished
              && (w'.jobs[name].pod.Idle?
                  || (!w'.jobs[name].task.Helper? && w'.jobs[name].pod == At(Entry(w'.jobs[name].task))))))
  }

  lemma HomeKept(w: World, w': World)
    requires AtHome(w) && SameData(w, w')
    ensures AtHome(w')
  {
    assert forall i: nat :: HomeVol(w, i) ==> HomeVol(w', i);
  }

  lemma PrimaryKept(w: World, w': World)
    requires PrimaryOk(w) && SameData(w, w') && w'.config.checkpoint == w.config.checkpoint && Tame(w, w', UpJob)
    requires w.config.initialize.None? ==> UpJob !in w'.jobs && UpJob !in w'.finished
    ensures PrimaryOk(w')
  {
    if w.config.initialize.Some? {
      assert forall i: nat :: Waiting(w, i) ==> Waiting(w', i);
    } else {
      HomeKept(w, w');
    }
  }

  lemma SecondariesKept(w: World, w': World)
    requires SecondariesOk(w) && SameData(w, w') && w'.config.checkpoint == w.config.checkpoint
    requires forall i: nat :: IsReplica(w, i) ==> Tame(w, w', SupJob(i))
    ensures SecondariesOk(w')
  {
    forall i: nat | IsReplica(w', i)
      ensures ReplicaOk(w', i)
    {
      assert ReplicaOk(w, i) && Tame(w, w', SupJob(i));
    }
  }

  lemma MoveKept(w: World, w': World)
    requires MoveStageOk(w) && SameData(w, w') && Tame(w, w', MoveJob)
    ensures MoveStageOk(w')
  {
    assert forall i: nat :: IsReplica(w, i) ==> SettledVol(w, i) ==> SettledVol(w', i);
  }

  /** A conversion comes to rsync only on a replica that had caught up with the leader before pg_upgrade. */
  lemma RsyncIsExact(w: World, i: nat)
    requires Inv(w) && StageOk(w) && SupJob(i) in w.jobs && w.jobs[SupJob(i)].pod == At(SRsync)
    ensures CaughtUpWith(Vol(w, i).data, Vol(w, Target(w)).data)
    ensures Copied(Vol(w, i).data, Vol(w, Target(w))) == Vol(w, Target(w)).dataNew
  {
    assert JobOk(w, SupJob(i));
    assert SecondariesOk(w) && ReplicaOk(w, i);
  }

  // One job's record changes tamely; the others stay as they are.
  lemma TameKeepsStage(w: World, w': World, name: JobName)
    requires StageOk(w) && SameData(w, w') && Tame(w, w', name)
    requires forall n :: n != name ==> Tame(w, w', n)
    requires InStage(w, Primary) && w.config.initialize.None? ==> UpJob !in w'.jobs
    ensures StageOk(w')
  {
    if InStage(w, Primary) {
      assert Tame(w, w', UpJob);
      PrimaryKept(w, w');
    } else if InStage(w, Secondaries) {
      assert forall i: nat :: Tame(w, w', SupJob(i));
      SecondariesKept(w, w');
    } else if InStage(w, PrimaryMove) {
      assert Tame(w, w', MoveJob);
      MoveKept(w, w');
    } else {
      HomeKept(w, w');
    }
  }

  lemma HelperKeepsStage(w: World, w': World)
    requires StageOk(w) && SameData(w, w') && !Converting(w)
    ensures StageOk(w')
  {
    HomeKept(w, w');
  }

  // StartJob, FailJob without a pod, CollectJob
  lemma RecordStepIsTame(w: World, a: Action, n: JobName)
    requires JobOk(w, n)
    requires a.StartJob? || a.CollectJob? || (a.FailJob? && !Active(w, a.name))
    ensures Tame(w, JobStep(w, a), n)
  {
  }

  lemma RecordStepKeepsStage(w: World, a: Action)
    requires JobsOk(w) && StageOk(w)
    requires a.StartJob? || a.CollectJob? || (a.FailJob? && !Active(w, a.name))
    ensures StageOk(JobStep(w, a))
  {
    var w' := JobStep(w, a);
    assert SameData(w, w') && (UpJob in w'.jobs ==> UpJob in w.jobs);
    forall n
      ensures Tame(w, w', n)
    {
      assert JobOk(w, n);
      RecordStepIsTame(w, a, n);
    }
    TameKeepsStage(w, w', a.name);
  }

  lemma HelperStepKeepsStage(w: World, a: Action)
    requires JobsOk(w) && StageOk(w) && a.FinishHelper?
    ensures StageOk(JobStep(w, a))
  {
    assert JobOk(w, a.name);
    if Converting(w) {
      assert JobStep(w, a) == w;
    } else {
      HelperKeepsStage(w, JobStep(w, a));
    }
  }

  lemma RunStepKeepsStage(w: World, name: JobName, c: Chance)
    requires Inv(w) && StageOk(w) && Active(w, name) && !w.jobs[name].deleting
    ensures StageOk(JobStep(w, RunJob(name, c)))
  {
    var t := w.jobs[name].task;
    var r := Run(w.vols[t.vol], w.jobs[name].pod.pc, t, Served(w), c);
    var w' := Land(w, name, r);
    assert JobMoved(w, w', name, r.vol);
    MovedKeepsSafe(w, w', name, r.vol, w.jobs[name].pod.pc, c);
  }

  // KillJob, and FailJob with a pod
  lemma StopStepKeepsStage(w: World, a: Action)
    requires Inv(w) && StageOk(w) && (a.KillJob? || a.FailJob?) && Active(w, a.name)
    ensures StageOk(JobStep(w, a))
  {
    var name := a.name;
    var t := w.jobs[name].task;
    var x := Interrupt(w.vols[t.vol], w.jobs[name].pod.pc, t, Served(w), a.chance);
    var w' := JobStep(w, a);
    assert JobMoved(w, w', name, x);
    MovedKeepsSafe(w, w', name, x, w.jobs[name].pod.pc, a.chance);
  }

  lemma JobStepKeepsStage(w: World, a: Action)
    requires Inv(w) && StageOk(w)
    ensures StageOk(JobStep(w, a))
  {
    match a
    case RunJob(name, c) =>
      if Active(w, name) && !w.jobs[name].deleting { RunStepKeepsStage(w, name, c); }
    case KillJob(name, c) =>
      if Active(w, name) { StopStepKeepsStage(w, a); }
    case FailJob(name, c) =>
      if Active(w, name) { StopStepKeepsStage(w, a); } else { RecordStepKeepsStage(w, a); }
    case FinishHelper(_, _) => HelperStepKeepsStage(w, a);
    case StartJob(_) => RecordStepKeepsStage(w, a);
    case CollectJob(_) => RecordStepKeepsStage(w, a);
    case _ =>
  }

  lemma EnvKeepsStage(w: World, a: Action)
    requires Inv(w) && StageOk(w)
    ensures StageOk(EnvStep(w, a))
  {
    PatroniKeepsStage(w, a);
    JobStepKeepsStage(w, a);
    if a.EditSpec? || a.Report? {
      var w' := EnvStep(w, a);
      assert forall n :: Tame(w, w', n);
      TameKeepsStage(w, w', UpJob);
    }
  }

  lemma EnvKeepsSafe(w: World, a: Action)
    requires Inv(w) && Safe(w)
    ensures Safe(EnvStep(w, a))
  {
    EnvKeepsStage(w, a);
    PatroniKeepsSafe(w, a);
    JobStepFrame(w, a);
  }

  // ----- operator calls

  // Calls that touch neither volumes nor what identifies the cluster.
  predicate DataBlind(c: Call) {
    !c.Persist? && !c.PutDbId? && !c.PutCheckpoint? && !c.NewClaim? && !c.DropClaim?
  }

  lemma BlindCallIsTame(w: World, c: Call, n: JobName)
    requires JobOk(w, n) && JobOk(Apply(w, c), n) && Allowed(w, c) && DataBlind(c)
    ensures Tame(w, Apply(w, c), n)
  {
  }

  lemma BlindCallKeepsStage(w: World, c: Call)
    requires Inv(w) && StageOk(w) && Allowed(w, c) && DataBlind(c)
    ensures StageOk(Apply(w, c))
  {
    var w' := Apply(w, c);
    CallKeepsInv(w, c);
    assert SameData(w, w');
    forall n
      ensures Tame(w, w', n)
    {
      assert JobOk(w, n) && JobOk(w', n);
      BlindCallIsTame(w, c, n);
    }
    TameKeepsStage(w, w', UpJob);
  }

  lemma CallKeepsListed(w: World, c: Call)
    requires Inv(w) && Listed(w) && InUpgrade(w) && Allowed(w, c) && Orderly(w, Op(c)) && !c.Persist?
    ensures Listed(Apply(w, c))
  {
  }

  lemma PutDbIdKeepsStage(w: World, id: string)
    requires StageOk(w) && Allowed(w, PutDbId(id))
    ensures StageOk(Apply(w, PutDbId(id)))
  {
    var w' := Apply(w, PutDbId(id));
    if w.config.settings.Some? {
      assert PrimaryOk(w) && Target(w') == Target(w);
      assert forall i: nat :: Waiting(w, i) ==> Waiting(w', i);
    }
  }

  lemma PutCheckpointKeepsStage(w: World, k: string)
    requires StageOk(w) && Allowed(w, PutCheckpoint(k))
    ensures StageOk(Apply(w, PutCheckpoint(k)))
  {
    var w' := Apply(w, PutCheckpoint(k));
    assert PrimaryOk(w) && Target(w') == Target(w);
    assert forall i: nat :: Waiting(w, i) ==> Waiting(w', i);
  }

  lemma ClaimCallKeepsStage(w: World, c: Call)
    requires Inv(w) && StageOk(w) && Allowed(w, c) && Orderly(w, Op(c)) && (c.NewClaim? || c.DropClaim?)
    ensures StageOk(Apply(w, c))
  {
    var w' := Apply(w, c);
    assert AtHome(w) && w' == w.(vols := w'.vols, pods := w'.pods);
    assert forall i: nat :: Vol(w', i) == Vol(w, i) || Vol(w', i) == EMPTY;
    assert forall i: nat :: HomeVol(w, i) ==> HomeVol(w', i);
  }

  // ----- moves of the persisted status

  // AtHome depends on the status through the version alone.
  lemma HomeMoves(w: World, w': World)
    requires AtHome(w)
    requires w'.vols == w.vols && w'.config == w.config && w'.leader == w.leader
    requires w'.status.version == w.status.version || w.config.initialize.None?
    ensures AtHome(w')
  {
    assert forall i: nat :: HomeVol(w, i) ==> HomeVol(w', i);
  }

  // scaledown -> primary
  lemma EnterPrimary(w: World, w': World)
    requires Inv(w) && AtHome(w) && InStage(w, Scaledown)
    requires w' == w.(status := Advance(w.status, Scaledown), finished := map[]) && w.jobs == map[]
    ensures PrimaryOk(w') <==> (w.config.initialize.Some? ==> w.leader == Some(Target(w)))
  {
    if w.config.initialize.Some? {
      assert HomeVol(w, Target(w'));
      forall i: nat | IsReplica(w', i)
        ensures Waiting(w', i)
      {
        assert HomeVol(w, i);
      }
    } else {
      HomeMoves(w, w');
    }
  }

  // primary -> secondaries
  lemma EnterSecondaries(w: World, w': World)
    requires Inv(w) && PrimaryOk(w) && InStage(w, Primary) && Done(w, Primary)
    requires w' == w.(status := Advance(w.status, Primary), finished := map[]) && w.jobs == map[]
    ensures SecondariesOk(w')
  {
    assert Target(w') == Target(w);
    forall i: nat | IsReplica(w', i)
      ensures ReplicaOk(w', i)
    {
      assert Waiting(w, i);
    }
  }

  // secondaries -> primary-move
  lemma EnterMove(w: World, w': World)
    requires Inv(w) && SecondariesOk(w) && InStage(w, Secondaries) && Done(w, Secondaries)
    requires w' == w.(status := Advance(w.status, Secondaries), finished := map[]) && w.jobs == map[]
    ensures MoveStageOk(w')
  {
    assert Target(w') == Target(w);
    forall i: nat | IsReplica(w', i)
      ensures SettledVol(w', i)
    {
      assert ReplicaOk(w, i);
      assert SupJob(i) in w.finished;
    }
  }

  // primary-move -> postupgrade
  lemma LeaveMove(w: World, w': World)
    requires MoveStageOk(w) && InStage(w, PrimaryMove) && Done(w, PrimaryMove)
    requires w' == w.(status := Advance(w.status, PrimaryMove), finished := map[])
    ensures ListedHome(w')
    ensures Listed(w) ==> AtHome(w')
  {
    forall i: nat | IsReplica(w', i) || i == Target(w') || (Listed(w) && i !in w.vols)
      ensures HomeVol(w', i)
    {
      assert IsReplica(w, i) ==> SettledVol(w, i);
    }
  }

  lemma PersistKeepsStage(w: World, s: Status)
    requires Inv(w) && Safe(w) && MayPersist(w, s) && s != w.status && w.jobs == map[]
    ensures StageOk(Apply(w, Persist(s)))
  {
    var w' := Apply(w, Persist(s));
    match w.status.state
    case Upgrading(k) =>
      assert w' == w.(status := Advance(w.status, k), finished := map[]);
      match k {
        case Scaledown => EnterPrimary(w, w');
        case Primary => EnterSecondaries(w, w');
        case Secondaries => EnterMove(w, w');
        case PrimaryMove => LeaveMove(w, w');
        case _ => HomeMoves(w, w');
      }
    case _ => HomeMoves(w, w');
  }

  lemma PersistKeepsSafe(w: World, s: Status)
    requires Inv(w) && Safe(w) && MayPersist(w, s) && Orderly(w, Op(Persist(s)))
    ensures Safe(Apply(w, Persist(s)))
  {
    if s == w.status {
      assert Apply(w, Persist(s)) == w;
    } else {
      NoJobsLeft(w, s);
      PersistKeepsStage(w, s);
    }
  }

  lemma CallKeepsSafe(w: World, c: Call)
    requires Inv(w) && Safe(w) && Allowed(w, c) && Orderly(w, Op(c))
    ensures Safe(Apply(w, c))
  {
    if c.Persist? {
      PersistKeepsSafe(w, c.next);
    } else {
      if InUpgrade(w) { CallKeepsListed(w, c); }
      if c.PutDbId? { PutDbIdKeepsStage(w, c.id); }
      else if c.PutCheckpoint? { PutCheckpointKeepsStage(w, c.checkpoint); }
      else if c.NewClaim? || c.DropClaim? { ClaimCallKeepsStage(w, c); }
      else { BlindCallKeepsStage(w, c); }
    }
  }

  // ----- every run

  lemma {:induction false} SafeAlways(table: seq<Image>, spec: Spec, es: seq<Event>)
    requires spec.nodes >= 1 && Legal(Initial(table, spec), es) && OrderlyRun(Initial(table, spec), es)
    ensures Inv(After(Initial(table, spec), es)) && Safe(After(Initial(table, spec), es))
  {
    InvAlways(table, spec, es);
    if es == [] {
      assert forall i: nat :: HomeVol(Initial(table, spec), i);
    } else {
      SafeAlways(table, spec, es[..|es| - 1]);
      var w := After(Initial(table, spec), es[..|es| - 1]);
      match es[|es| - 1]
      case Env(a) => EnvKeepsSafe(w, a);
      case Op(c) => CallKeepsSafe(w, c);
    }
  }

  lemma SafeIsConsistent(w: World)
    requires Inv(w) && Safe(w)
    ensures Consistent(w)
  {
    if Replicas(w) > 0 && w.config.initialize.Some? {
      assert AtHome(w);
      forall i: nat
        ensures Agrees(Vol(w, i).data, w.sts.value.template, w.config.initialize.value)
      {
        assert HomeVol(w, i);
      }
    }
  }

  lemma {:induction false} OrderlyRunsAreSafe(table: seq<Image>, spec: Spec, es: seq<Event>)
    requires spec.nodes >= 1 && Legal(Initial(table, spec), es) && OrderlyRun(Initial(table, spec), es)
    ensures Consistent(After(Initial(table, spec), es))
    ensures NothingLost(After(Initial(table, spec), es))
  {
    SafeAlways(table, spec, es);
    SafeIsConsistent(After(Initial(table, spec), es));
  }
}
