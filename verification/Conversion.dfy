/** What the conversion of a cluster keeps to: replicas wait for the leader, and the
    checkpoint primary-upgrade reports is recorded once, or the upgrade never ends. */
module Conversion {
  import opened Base
  import opened Volumes
  import opened Scripts
  import opened Images
  import opened World
  import opened Protocol
  import opened Stability
  import opened Safety
  import Histories

  // ----- replicas wait for the leader

  /** While no database pod runs, nothing touches a replica's data before the leader's data.new is the whole
      new database under the recorded identifier. */
  lemma ReplicasWaitForLeader(w: World, e: Event, i: nat)
    requires Inv(w) && Safe(w) && (e.Op? ==> Allowed(w, e.c) && !e.c.DropClaim?)
    requires w.pods == map[] && i != Target(w) && w.config.initialize.Some?
    requires Vol(Next(w, e), i).data != Vol(w, i).data
    ensures e.Env? && InStage(w, Secondaries)
    ensures IsDatabase(Vol(w, Target(w)).dataNew, w.status.upgradeVersion, w.config.initialize.value)
    ensures w.leader == Some(Target(w))
  {
    match e
    case Env(a) =>
      NoPodsNoPatroni(w, a, i);
      assert Active(w, a.name);
      assert JobOk(w, a.name);
    case Op(c) =>
      CallLeavesData(w, c, i);
  }

  lemma NoPodsNoPatroni(w: World, a: Action, i: nat)
    requires w.pods == map[]
    ensures Vol(EnvStep(w, a), i).data != Vol(w, i).data ==>
              (a.RunJob? || a.KillJob? || a.FailJob?) && Active(w, a.name) && w.jobs[a.name].task.vol == i
  {
  }

  lemma CallLeavesData(w: World, c: Call, i: nat)
    requires !c.DropClaim?
    ensures Vol(Apply(w, c), i).data == Vol(w, i).data
  {
  }

  // ----- the recorded checkpoint

  /** What the pod of primary-upgrade knows of the old directory d: whether pg_upgrade has taken the database away,
      and the checkpoint it will report. */
  predicate Knows(d: Dir, pod: Pod) {
    match pod
    case Idle => true
    case At(PCheck) => true
    case At(PClean(k)) => !Disabled(d) && k == CheckpointOf(d)
    case At(PInit(k)) => !Disabled(d) && k == CheckpointOf(d)
    case At(PUpgrade(k)) => !Disabled(d) && k == CheckpointOf(d)
    case At(PConf(k, _)) => Disabled(d) && (k == "" || k == LastCheckpoint(d))
    case At(PReport(k)) => Disabled(d) && (k == "" || k == LastCheckpoint(d))
    case At(_) => false
    case Finished(out) =>
      && Disabled(d)
      && (out.Upgraded? ==> out.oldCheckpoint == "" || out.oldCheckpoint == LastCheckpoint(d))
  }

  // What stage primary has done to the leader's old directory d, and what is recorded of it.
  predicate UpJobKnows(w: World, d: Dir) {
    && (UpJob in w.jobs ==> Knows(d, w.jobs[UpJob].pod))
    && (UpJob in w.finished ==> Knows(d, Finished(w.finished[UpJob])))
    && (w.config.checkpoint.Some? ==> Disabled(d) && w.config.checkpoint.value == LastCheckpoint(d))
  }

  predicate CheckpointFixed(w: World) {
    InStage(w, Primary) ==> UpJobKnows(w, Vol(w, Target(w)).data)
  }

  lemma CommandKeepsKnowledge(x: Volume, pc: Pc, t: Task, src: Option<Volume>, c: Chance)
    requires t.Upgrade? && Knows(x.data, At(pc))
    ensures var r := Run(x, pc, t, src, c);
            && Knows(r.vol.data, r.pod)
            && LastCheckpoint(r.vol.data) == LastCheckpoint(x.data)
            && (Disabled(x.data) ==> Disabled(r.vol.data))
    ensures Interrupt(x, pc, t, src, c).data == x.data
  {
  }

  lemma OnlyUpgradeRuns(w: World, name: JobName)
    requires JobOk(w, name) && InStage(w, Primary) && Active(w, name)
    ensures name == UpJob && w.jobs[name].task.Upgrade? && w.jobs[name].task.vol == Target(w)
  {
  }

  // The leader's old directory in the stage in which primary-upgrade works on it.
  predicate FixedBy(w: World, w': World) {
    var d, d' := Vol(w, Target(w)).data, Vol(w', Target(w)).data;
    UpJobKnows(w', d') && LastCheckpoint(d') == LastCheckpoint(d) && (Disabled(d) ==> Disabled(d'))
  }

  lemma LandKeepsFixed(w: World, r: Effect)
    requires CheckpointFixed(w) && InStage(w, Primary) && Active(w, UpJob) && w.jobs[UpJob].task.vol == Target(w)
    requires Knows(r.vol.data, r.pod)
    requires var d := Vol(w, Target(w)).data;
             LastCheckpoint(r.vol.data) == LastCheckpoint(d) && (Disabled(d) ==> Disabled(r.vol.data))
    ensures FixedBy(w, Land(w, UpJob, r))
  {
  }

  lemma InterruptKeepsFixed(w: World, a: Action)
    requires CheckpointFixed(w) && InStage(w, Primary) && Active(w, UpJob) && w.jobs[UpJob].task.vol == Target(w)
    requires w.jobs[UpJob].task.Upgrade? && (a.KillJob? || a.FailJob?) && a.name == UpJob
    ensures FixedBy(w, JobStep(w, a))
  {
    CommandKeepsKnowledge(w.vols[Target(w)], w.jobs[UpJob].pod.pc, w.jobs[UpJob].task, Served(w), a.chance);
  }

  lemma JobStepKeepsFixed(w: World, a: Action)
    requires JobsOk(w) && CheckpointFixed(w) && InStage(w, Primary)
    ensures FixedBy(w, JobStep(w, a))
  {
    assert JobOk(w, UpJob);
    if (a.RunJob? || a.KillJob? || a.FailJob?) && Active(w, a.name) {
      OnlyUpgradeRuns(w, a.name);
      if a.RunJob? {
        var x, job := w.vols[Target(w)], w.jobs[UpJob];
        CommandKeepsKnowledge(x, job.pod.pc, job.task, Served(w), a.chance);
        LandKeepsFixed(w, Run(x, job.pod.pc, job.task, Served(w), a.chance));
      } else {
        InterruptKeepsFixed(w, a);
      }
    }
  }

  lemma EnvKeepsFixed(w: World, a: Action)
    requires Inv(w) && CheckpointFixed(w)
    ensures CheckpointFixed(EnvStep(w, a))
  {
    EnvStepIsLater(w, a);
    if InStage(w, Primary) {
      PatroniIdles(w, a);
      JobStepKeepsFixed(w, a);
    }
  }

  lemma CallKeepsFixed(w: World, c: Call)
    requires Inv(w) && CheckpointFixed(w) && Allowed(w, c)
    ensures CheckpointFixed(Apply(w, c))
  {
    assert JobOk(w, UpJob);
    if c.Persist? && c.next != w.status {
      NoJobsLeft(w, c.next);
    }
  }

  lemma NextKeepsFixed(w: World, e: Event)
    requires Inv(w) && CheckpointFixed(w) && (e.Op? ==> Allowed(w, e.c))
    ensures CheckpointFixed(Next(w, e))
  {
    match e
    case Env(a) => EnvKeepsFixed(w, a);
    case Op(c) => CallKeepsFixed(w, c);
  }

  lemma {:induction false} FixedAlways(table: seq<Image>, spec: Spec, es: seq<Event>)
    requires spec.nodes >= 1 && Legal(Initial(table, spec), es)
    ensures CheckpointFixed(After(Initial(table, spec), es))
  {
    if es != [] {
      var front := es[..|es| - 1];
      FixedAlways(table, spec, front);
      InvAlways(table, spec, front);
      NextKeepsFixed(After(Initial(table, spec), front), es[|es| - 1]);
    }
  }

  /** Replaying stage primary is harmless: once a checkpoint is recorded, no later event of the upgrade records
      another one, empty or not; postupgrade alone removes it. */
  lemma {:induction false} CheckpointIsRecordedOnce(table: seq<Image>, spec: Spec, es: seq<Event>, e: Event)
    requires spec.nodes >= 1 && Legal(Initial(table, spec), es)
    requires e.Op? ==> Allowed(After(Initial(table, spec), es), e.c)
    ensures var w := After(Initial(table, spec), es);
            w.config.checkpoint.Some? ==>
              || Next(w, e).config.checkpoint == w.config.checkpoint
              || (e == Op(ClearAnnotations) && InStage(w, Postupgrade))
  {
    var w := After(Initial(table, spec), es);
    FixedAlways(table, spec, es);
    InvAlways(table, spec, es);
    if e.Env? {
      EnvStepIsLater(w, e.a);
    } else {
      OnlyPutChangesCheckpoint(w, e.c);
    }
  }

  lemma OnlyPutChangesCheckpoint(w: World, c: Call)
    ensures Apply(w, c).config.checkpoint != w.config.checkpoint ==> c.PutCheckpoint? || c.ClearAnnotations?
  {
  }

  // ----- whose checkpoint it is

  // k is the last checkpoint of the leader's old database as long as that is there, and nothing else is recorded.
  predicate LeadersCheckpoint(w: World, k: string) {
    && (InStage(w, Primary) || InStage(w, Secondaries) ==> LastCheckpoint(Vol(w, Target(w)).data) == k)
    && (w.config.checkpoint.Some? ==> w.config.checkpoint.value == k)
  }

  lemma EnvKeepsLeadersCheckpoint(w: World, a: Action, k: string)
    requires Inv(w) && CheckpointFixed(w) && Histories.Offline(w) && LeadersCheckpoint(w, k)
    ensures LeadersCheckpoint(EnvStep(w, a), k)
  {
    EnvStepIsLater(w, a);
    PatroniIdles(w, a);
    if InStage(w, Primary) {
      JobStepKeepsFixed(w, a);
    } else if InStage(w, Secondaries) {
      NoPodsNoPatroni(w, a, Target(w));
      if a.RunJob? || a.KillJob? || a.FailJob? {
        assert JobOk(w, a.name);
      }
    }
  }

  lemma CallKeepsLeadersCheckpoint(w: World, c: Call, k: string)
    requires Inv(w) && CheckpointFixed(w) && Histories.Offline(w) && Allowed(w, c) && LeadersCheckpoint(w, k)
    ensures LeadersCheckpoint(Apply(w, c), k)
  {
    Histories.OfflineCallKeepsTarget(w, c);
    CallLeavesData(w, c, Target(w));
    OnlyPutChangesCheckpoint(w, c);
  }

  lemma {:induction false} LeadersCheckpointStays(w: World, es: seq<Event>, k: string)
    requires Inv(w) && CheckpointFixed(w) && Legal(w, es) && Histories.StaysOffline(w, es) && LeadersCheckpoint(w, k)
    ensures CheckpointFixed(After(w, es)) && LeadersCheckpoint(After(w, es), k)
  {
    if es != [] {
      var front := es[..|es| - 1];
      Histories.StaysOfflineFront(w, es);
      LeadersCheckpointStays(w, front, k);
      Histories.InvAfter(w, front);
      NextKeepsFixed(After(w, front), es[|es| - 1]);
      match es[|es| - 1]
      case Env(a) => EnvKeepsLeadersCheckpoint(After(w, front), a, k);
      case Op(c) => CallKeepsLeadersCheckpoint(After(w, front), c, k);
    }
  }

  /** The checkpoint that is recorded is the last one of the leader's old database: in every run, from any point of
      stage primary until postupgrade asks for pods, none is recorded but the one the leader's data has there. */
  lemma {:induction false} RecordedCheckpointIsTheLeaders(table: seq<Image>, spec: Spec, before: seq<Event>,
      es: seq<Event>)
    requires spec.nodes >= 1 && Legal(Initial(table, spec), before)
    requires var w := After(Initial(table, spec), before);
             InStage(w, Primary) && Legal(w, es) && Histories.StaysOffline(w, es)
    ensures var w := After(Initial(table, spec), before);
            After(w, es).config.checkpoint.Some? ==>
              After(w, es).config.checkpoint.value == LastCheckpoint(Vol(w, Target(w)).data)
  {
    var w := After(Initial(table, spec), before);
    InvAlways(table, spec, before);
    FixedAlways(table, spec, before);
    LeadersCheckpointStays(w, es, LastCheckpoint(Vol(w, Target(w)).data));
  }

  // ----- a checkpoint that is never recorded

  // pg_upgrade has taken the database away, and no pod knows its checkpoint any more.
  predicate Forgotten(w: World) {
    && InStage(w, Primary) && w.config.checkpoint.None?
    && Disabled(Vol(w, Target(w)).data)
    && (UpJob in w.jobs ==> Ignorant(w.jobs[UpJob].pod))
    && (UpJob in w.finished ==> Ignorant(Finished(w.finished[UpJob])))
  }

  predicate Ignorant(pod: Pod) {
    match pod
    case Idle => true
    case At(PCheck) => true
    case At(PReport(k)) => k == ""
    case At(_) => false
    case Finished(out) => out.Upgraded? ==> out.oldCheckpoint == ""
  }

  // No replica has been converted, and none can be.
  ghost predicate Stuck(w: World) {
    && InStage(w, Secondaries) && w.config.checkpoint.None?
    && forall i {:trigger SupJob(i)} :: SupJob(i) !in w.finished
  }

  // A pod that is killed after pg_upgrade takes the checkpoint with it.
  lemma KillForgets(w: World, c: Chance)
    requires JobsOk(w) && CheckpointFixed(w) && InStage(w, Primary) && w.config.checkpoint.None?
    requires Active(w, UpJob) && (w.jobs[UpJob].pod.pc.PConf? || w.jobs[UpJob].pod.pc.PReport?)
    ensures Forgotten(EnvStep(w, KillJob(UpJob, c)))
  {
    assert JobOk(w, UpJob);
  }

  lemma JobStepStaysForgotten(w: World, a: Action)
    requires JobsOk(w) && Forgotten(w)
    ensures Forgotten(JobStep(w, a))
  {
    assert JobOk(w, UpJob);
    if (a.RunJob? || a.KillJob? || a.FailJob?) && Active(w, a.name) {
      OnlyUpgradeRuns(w, a.name);
    }
  }

  lemma CallStaysForgotten(w: World, c: Call)
    requires Inv(w) && Forgotten(w) && Allowed(w, c)
    ensures Forgotten(Apply(w, c)) || Stuck(Apply(w, c))
  {
    assert JobOk(w, UpJob);
  }

  lemma EnvStaysStuck(w: World, a: Action)
    requires Inv(w) && Stuck(w)
    ensures Stuck(EnvStep(w, a))
  {
    EnvStepIsLater(w, a);
    forall i
      ensures SupJob(i) !in EnvStep(w, a).finished
    {
      assert JobOk(w, SupJob(i));
      OnlyJobsFinish(w, a, SupJob(i));
    }
  }

  lemma CallStaysStuck(w: World, c: Call)
    requires Inv(w) && Stuck(w) && w.status.volumes > 1 && Allowed(w, c)
    ensures Stuck(Apply(w, c))
  {
    var replica := if Target(w) == 0 then 1 else 0;
    assert SupJob(replica) !in w.finished;
  }

  lemma OnlyJobsFinish(w: World, a: Action, name: JobName)
    requires name !in w.jobs && name !in w.finished
    ensures name !in EnvStep(w, a).finished
  {
  }

  lemma {:induction false} ForgottenForGood(w: World, es: seq<Event>)
    requires Inv(w) && (Forgotten(w) || Stuck(w)) && w.status.volumes > 1 && Legal(w, es)
    ensures Forgotten(After(w, es)) || Stuck(After(w, es))
    ensures After(w, es).status.volumes == w.status.volumes
  {
    if es != [] {
      var w1 := After(w, es[..|es| - 1]);
      ForgottenForGood(w, es[..|es| - 1]);
      Histories.InvAfter(w, es[..|es| - 1]);
      Histories.LeaderIsFixed(w1, es[|es| - 1]);
      match es[|es| - 1]
      case Env(a) =>
        if Stuck(w1) { EnvStaysStuck(w1, a); }
        else { PatroniIdles(w1, a); JobStepStaysForgotten(w1, a); }
      case Op(c) =>
        if Stuck(w1) { CallStaysStuck(w1, c); } else { CallStaysForgotten(w1, c); }
    }
  }

  /** If the pod of primary-upgrade is killed after pg_upgrade and before its report, and no checkpoint is recorded yet,
      a cluster of several nodes never gets beyond stage secondaries, whatever happens. */
  lemma {:induction false} LostCheckpointEndsTheUpgrade(table: seq<Image>, spec: Spec, before: seq<Event>, c: Chance,
      es: seq<Event>)
    requires spec.nodes >= 1 && Legal(Initial(table, spec), before)
    requires var w := After(Initial(table, spec), before);
             && InStage(w, Primary) && w.config.checkpoint.None? && w.status.volumes > 1
             && Active(w, UpJob) && (w.jobs[UpJob].pod.pc.PConf? || w.jobs[UpJob].pod.pc.PReport?)
             && Legal(EnvStep(w, KillJob(UpJob, c)), es)
    ensures var w' := After(EnvStep(After(Initial(table, spec), before), KillJob(UpJob, c)), es);
            InStage(w', Primary) || InStage(w', Secondaries)
  {
    var w := After(Initial(table, spec), before);
    InvAlways(table, spec, before);
    FixedAlways(table, spec, before);
    KillForgets(w, c);
    EnvKeepsInv(w, KillJob(UpJob, c));
    EnvStepIsLater(w, KillJob(UpJob, c));
    ForgottenForGood(EnvStep(w, KillJob(UpJob, c)), es);
  }
}
