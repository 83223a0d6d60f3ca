/** An upgrade can be completed, whatever the number of nodes: from every cluster whose volumes
    can be converted some legal run leads through all stages. */
module Feasible {
  import opened Base
  import opened Volumes
  import opened Scripts
  import opened World
  import opened Protocol
  import opened Initdb
  import opened Safety
  import opened Runs
  import Leader
  import Replica

  // Nothing is under way, and the operator has read the spec as it is, which does not say to ignore the cluster.
  predicate Lean(w: World) {
    w.jobs == map[] && w.streamer.None? && w.spec == w.seen && !w.seen.ignore
  }

  // What a chance has to provide for pg_upgrade to succeed.
  predicate Lucky(c: Chance) {
    c.success && c.id != ""
  }

  // A completed stage is left.
  function Left(w: World, k: Stage): World {
    Apply(w, Persist(Advance(w.status, k)))
  }

  lemma Leave(w: World, w1: World, k: Stage)
    requires Leads(w, w1) && InStage(w1, k) && Done(w1, k) && w1.spec == w1.seen && !w1.seen.ignore
    ensures Leads(w, Left(w1, k))
  {
    Step(w, w1, Op(Persist(Advance(w1.status, k))));
  }

  // ----- one job at a time

  // w with job `name` alone, standing at the first command of its script.
  function WithJob(w: World, name: JobName, t: Task): World
    requires !t.Helper?
  {
    w.(jobs := map[name := Job(t, At(Entry(t)), false, false)], finished := w.finished - {name})
  }

  lemma JobComes(w: World, name: JobName, t: Task)
    requires w.jobs == map[] && Allowed(w, NewJob(name, t)) && !t.Helper? && t.vol in w.vols
    ensures Leads(w, WithJob(w, name, t)) && Running(WithJob(w, name, t), name)
  {
    Stay(w);
    var w1 := Apply(w, NewJob(name, t));
    Step(w, w, Op(NewJob(name, t)));
    JobStarts(w1, name);
    assert EnvStep(w1, StartJob(name)) == WithJob(w, name, t);
    Then(w, w1, WithJob(w, name, t));
  }

  // w when job `name` has ended with `out` and left volume i as x, and has been deleted.
  function JobDone(w: World, name: JobName, i: nat, x: Volume, out: Output): World {
    w.(finished := w.finished[name := out], vols := w.vols[i := x])
  }

  lemma JobGoes(w: World, name: JobName, t: Task, r: Effect)
    requires w.jobs == map[] && !t.Helper? && t.vol in w.vols && r.pod.Finished?
    requires Leads(w, Land(WithJob(w, name, t), name, r))
    requires InStage(w, StageOf(name)) && name != UpJob && !w.seen.ignore
    ensures Leads(w, JobDone(w, name, t.vol, r.vol, r.pod.output))
  {
    var w3 := Land(WithJob(w, name, t), name, r);
    Step(w, w3, Op(DropJob(name)));
    assert Apply(w3, DropJob(name)) == JobDone(w, name, t.vol, r.vol, r.pod.output) by {
      assert w3.jobs - {name} == w.jobs;
      assert (w.finished - {name})[name := r.pod.output] == w.finished[name := r.pod.output];
    }
  }

  // ----- helper stages

  // w with the helper job `name` alone, which has succeeded with `out`.
  function WithHelper(w: World, name: JobName, out: Output): World {
    w.(jobs := map[name := Job(Helper, Finished(out), false, false)], finished := w.finished[name := out])
  }

  lemma HelperComes(w: World, name: JobName, out: Output)
    requires w.jobs == map[] && Allowed(w, NewJob(name, Helper))
    ensures Leads(w, WithHelper(w, name, out))
  {
    Stay(w);
    var w1 := Apply(w, NewJob(name, Helper));
    Step(w, w, Op(NewJob(name, Helper)));
    Step(w, w1, Env(FinishHelper(name, out)));
    assert EnvStep(w1, FinishHelper(name, out)) == WithHelper(w, name, out) by {
      assert w1.finished[name := out] == w.finished[name := out];
    }
  }

  // The cluster when the helper job `name` has come, succeeded with `out` and gone.
  function Helped(w: World, name: JobName, out: Output): World {
    w.(finished := w.finished[name := out])
  }

  lemma HelperHelps(w: World, name: JobName, out: Output)
    requires Lean(w) && InStage(w, StageOf(name)) && (name == SyncJob || name == PostJob)
    requires ScaledUp(w)
    requires if name == SyncJob then w.status.volumes != 1 else w.told == Some(w.seen.nodes)
    ensures Leads(w, Helped(w, name, out))
  {
    HelperComes(w, name, out);
    var w2 := WithHelper(w, name, out);
    Step(w, w2, Op(DropJob(name)));
    assert w2.jobs - {name} == w.jobs;
  }

  function PassedPreupgrade(w: World): World {
    Left(w.(config := w.config.(initdbArgs := Some(""))), Preupgrade)
  }

  lemma PassPreupgrade(w: World)
    requires Lean(w) && InStage(w, Preupgrade)
    ensures Leads(w, PassedPreupgrade(w))
  {
    var out := Settings(DbConfig("", "", false, 0));
    assert InitdbArgs(out.config) == "";
    HelperComes(w, PreJob, out);
    var w2 := WithHelper(w, PreJob, out);
    var w3 := Apply(w2, PutInitdbArgs(""));
    Step(w, w2, Op(PutInitdbArgs("")));
    var w4 := Apply(w3, DropJob(PreJob));
    Step(w, w3, Op(DropJob(PreJob)));
    assert w4.jobs == w.jobs;
    Leave(w, w4, Preupgrade);
  }

  function PassedScaledown(w: World, k: Stage): World
    requires w.sts.Some?
  {
    Left(w.(sts := Some(w.sts.value.(replicas := 0)), told := Some(w.ready), pods := map[]), k)
  }

  lemma PassScaledown(w: World, k: Stage)
    requires Lean(w) && (k == PreScaledown || k == Scaledown) && InStage(w, k) && w.sts.Some?
    ensures Leads(w, PassedScaledown(w, k))
  {
    var ask := PutSts(w.sts.value.(replicas := 0));
    Stay(w);
    var w1 := Apply(w, ask);
    Step(w, w, Op(ask));
    PodsStop(w1);
    Then(w, w1, w1.(pods := map[]));
    Leave(w, w1.(pods := map[]), k);
  }

  // A cluster of several volumes is asked to run for preupgrade-sync.
  function AskedToSync(w: World): World {
    if w.status.volumes == 1 then w else Apply(w, PutSts(Sts(w.seen.nodes, w.status.version)))
  }

  lemma PassSync(w: World)
    requires Lean(w) && InStage(w, Sync)
    ensures Leads(w, Left(AskedToSync(w), Sync))
  {
    Stay(w);
    var w1 := AskedToSync(w);
    if w.status.volumes == 1 {
      Leave(w, w, Sync);
    } else {
      Step(w, w, Op(PutSts(Sts(w.seen.nodes, w.status.version))));
      HelperHelps(w1, SyncJob, NoOutput);
      Then(w, w1, Helped(w1, SyncJob, NoOutput));
      Leave(w, Helped(w1, SyncJob, NoOutput), Sync);
    }
  }

  // ----- primary

  // The leader's volume when primary-upgrade has been left alone.
  function UpgradeTask(w: World): Task
    requires w.config.initialize.Some?
  {
    Upgrade(Target(w), w.config.initialize.value, w.status.version, w.status.upgradeVersion,
        if w.config.initdbArgs.Some? then w.config.initdbArgs.value else "")
  }

  function Converted(w: World, c: Chance): Volume
    requires w.config.initialize.Some?
  {
    Leader.UpgradeRunOut(Leader.Node(Vol(w, Target(w)), At(PCheck)), UpgradeTask(w), c).x
  }

  // The old database is on the leader's volume, with an identifier and a checkpoint, and Patroni has settings.
  predicate PrimaryReady(w: World) {
    && w.config.initialize.Some? && w.config.initialize.value != "" && w.config.settings.Some?
    && Target(w) in w.vols
    && Leader.Untouched(Vol(w, Target(w)), w.status.version, w.config.initialize.value)
    && CheckpointOf(Vol(w, Target(w)).data) != ""
  }

  function PassedPrimary(w: World, c: Chance): World
    requires PrimaryReady(w)
  {
    Left(w.(vols := w.vols[Target(w) := Converted(w, c)],
            config := w.config.(initialize := Some(c.id), checkpoint := Some(CheckpointOf(Vol(w, Target(w)).data)),
                                settings := Some(w.config.settings.value - {PAUSE}))), Primary)
  }

  // The cluster when the job of stage primary has succeeded.
  function AfterUpJob(w: World, c: Chance): World
    requires PrimaryReady(w)
  {
    var out := Upgraded(CheckpointOf(Vol(w, Target(w)).data), c.id);
    w.(jobs := map[UpJob := Job(UpgradeTask(w), Finished(out), false, false)],
       finished := w.finished[UpJob := out],
       vols := w.vols[Target(w) := Converted(w, c)])
  }

  lemma UpJobSucceeds(w: World, c: Chance)
    requires Lean(w) && InStage(w, Primary) && PrimaryReady(w) && w.config.initdbArgs.Some? && Lucky(c)
    ensures Leads(w, AfterUpJob(w, c))
    ensures Volumes.Converted(Converted(w, c), w.status.version, w.status.upgradeVersion, c.id)
    ensures LastCheckpoint(Converted(w, c).data) == CheckpointOf(Vol(w, Target(w)).data)
  {
    var t, x := UpgradeTask(w), Vol(w, Target(w));
    JobComes(w, UpJob, t);
    var w2 := WithJob(w, UpJob, t);
    Leader.UndisturbedUpgrade(x, t, c);
    NameAfterUpgrade(x, t, c);
    UpgradeRunsOut(w2, c);
    var m := Leader.UpgradeRunOut(Leader.Node(x, At(PCheck)), t, c);
    Then(w, w2, Land(w2, UpJob, Effect(m.x, m.pod)));
    assert Land(w2, UpJob, Effect(m.x, m.pod)) == AfterUpJob(w, c) by {
      assert w2.finished[UpJob := m.pod.output] == w.finished[UpJob := m.pod.output];
      assert w2.jobs[UpJob := w2.jobs[UpJob].(pod := m.pod)] == map[UpJob := Job(t, m.pod, false, false)];
    }
  }

  // The identifier the script prints is that of the new database.
  lemma NameAfterUpgrade(x: Volume, t: Task, c: Chance)
    requires t.Upgrade? && t.id != "" && Leader.Untouched(x, t.before, t.id) && c.success
    ensures SysIdOf(Leader.UpgradeRunOut(Leader.Node(x, At(PCheck)), t, c).x.dataNew) == c.id
  {
    Leader.UndisturbedUpgrade(x, t, c);
    Leader.RunOutReportsName(Leader.Node(x, At(PCheck)), t, c);
  }

  lemma PassPrimary(w: World, c: Chance)
    requires Lean(w) && InStage(w, Primary) && PrimaryReady(w) && w.config.initdbArgs.Some? && Lucky(c)
    ensures Leads(w, PassedPrimary(w, c))
  {
    var k := CheckpointOf(Vol(w, Target(w)).data);
    UpJobSucceeds(w, c);
    var w1 := AfterUpJob(w, c);
    var w2 := Apply(w1, PutCheckpoint(k));
    Step(w, w1, Op(PutCheckpoint(k)));
    var w3 := Apply(w2, PutDbId(c.id));
    Step(w, w2, Op(PutDbId(c.id)));
    var w4 := Apply(w3, DropJob(UpJob));
    Step(w, w3, Op(DropJob(UpJob)));
    Leave(w, w4, Primary);
    assert w4.jobs == w.jobs;
  }

  // ----- secondaries

  // A listed replica whose conversion can succeed: its claim exists and its version can be read.
  predicate ReplicaReady(w: World, i: nat) {
    i in w.vols && Waiting(w, i) && VersionOf(w.vols[i].data).Some?
  }

  ghost predicate SecondariesReady(w: World) {
    && w.config.initialize.Some? && w.config.initialize.value != ""
    && w.config.checkpoint.Some? && w.config.checkpoint.value != ""
    && w.config.checkpoint.value == LastCheckpoint(Vol(w, Target(w)).data)
    && w.status.version != w.status.upgradeVersion
    && Volumes.Converted(Vol(w, Target(w)), w.status.version, w.status.upgradeVersion, w.config.initialize.value)
  }

  // What has become of a replica: it is the new database if it had caught up with the leader, and empty otherwise.
  predicate ReplicaDone(w: World, w': World, i: nat)
    requires w.config.initialize.Some?
  {
    if CaughtUpWith(Vol(w, i).data, Vol(w, Target(w)).data) then
      IsDatabase(Vol(w', i).data, w.status.upgradeVersion, w.config.initialize.value)
    else
      Vol(w', i).data.Absent?
  }

  // Replicas from k on are as they were; those before it are done.
  ghost predicate ConvertedBelow(w: World, w': World, k: nat)
    requires w.config.initialize.Some?
  {
    && w' == w.(vols := w'.vols, finished := w'.finished)
    && w'.vols.Keys == w.vols.Keys
    && (forall i: nat :: !(IsReplica(w, i) && i < k) ==> Vol(w', i) == Vol(w, i))
    && (forall i: nat :: IsReplica(w, i) && i < k ==> SupJob(i) in w'.finished && ReplicaDone(w, w', i))
  }

  lemma ConvertOne(w: World, i: nat, c: Chance) returns (w': World)
    requires w.jobs == map[] && w.streamer == Some(Target(w)) && InStage(w, Secondaries) && SecondariesReady(w)
    requires IsReplica(w, i) && ReplicaReady(w, i) && !w.seen.ignore
    ensures Leads(w, w')
    ensures w'.vols.Keys == w.vols.Keys && forall j: nat :: j != i ==> Vol(w', j) == Vol(w, j)
    ensures w' == w.(vols := w'.vols, finished := w'.finished)
    ensures forall name :: name in w'.finished <==> name in w.finished || name == SupJob(i)
    ensures ReplicaDone(w, w', i)
  {
    var name := SupJob(i);
    var t := Convert(i, w.config.checkpoint.value, w.status.version, w.status.upgradeVersion,
        w.config.initialize.value);
    JobComes(w, name, t);
    var w2, src := WithJob(w, name, t), Vol(w, Target(w));
    Replica.InPlaceExactlyIfCaughtUp(w.vols[i], t, src, c);
    ConvertRunsOut(w2, i, c);
    var m := Replica.RunOut(Replica.Node(w.vols[i], At(SCheck)), t, src, c);
    Then(w, w2, Land(w2, name, Effect(m.x, m.pod)));
    JobGoes(w, name, t, Effect(m.x, m.pod));
    w' := JobDone(w, name, i, m.x, m.pod.output);
  }

  lemma {:induction false} ConvertAll(w: World, k: nat, c: Chance) returns (w': World)
    requires w.jobs == map[] && w.streamer == Some(Target(w)) && InStage(w, Secondaries) && SecondariesReady(w)
    requires k <= w.status.volumes && !w.seen.ignore && forall i: nat :: IsReplica(w, i) ==> ReplicaReady(w, i)
    ensures Leads(w, w') && ConvertedBelow(w, w', k)
  {
    if k == 0 {
      Stay(w);
      w' := w;
    } else {
      var w1 := ConvertAll(w, k - 1, c);
      if IsReplica(w, k - 1) {
        assert Vol(w1, k - 1) == Vol(w, k - 1) && Vol(w1, Target(w)) == Vol(w, Target(w));
        assert ReplicaReady(w, k - 1);
        w' := ConvertOne(w1, k - 1, c);
        Then(w, w1, w');
        forall i: nat | IsReplica(w, i) && i < k
          ensures SupJob(i) in w'.finished && ReplicaDone(w, w', i)
        {
          assert i != k - 1 ==> Vol(w', i) == Vol(w1, i);
        }
      } else {
        w' := w1;
      }
    }
  }

  lemma PassSecondaries(w: World, c: Chance) returns (w': World)
    requires Lean(w) && InStage(w, Secondaries) && SecondariesReady(w)
    requires forall i: nat :: IsReplica(w, i) ==> ReplicaReady(w, i)
    ensures Leads(w, w')
    ensures w' == Left(w, Secondaries).(vols := w'.vols) && w'.vols.Keys == w.vols.Keys
    ensures forall i: nat :: if IsReplica(w, i) then ReplicaDone(w, w', i) else Vol(w', i) == Vol(w, i)
  {
    Stay(w);
    if w.status.volumes == 1 {
      Leave(w, w, Secondaries);
      w' := Left(w, Secondaries);
    } else {
      var w2 := ServeAndConvert(w, c);
      var w3 := Apply(w2, DropStreamer);
      Step(w, w2, Op(DropStreamer));
      assert AllConverted(w3) by {
        assert forall i {:trigger SupJob(i)} :: SupJob(i) in w2.finished <==> SupJob(i) in w3.finished;
      }
      Leave(w, w3, Secondaries);
      w' := Left(w3, Secondaries);
    }
  }

  // The streamer is started, and all replicas are converted.
  lemma ServeAndConvert(w: World, c: Chance) returns (w': World)
    requires Lean(w) && InStage(w, Secondaries) && SecondariesReady(w) && w.status.volumes != 1
    requires forall i: nat :: IsReplica(w, i) ==> ReplicaReady(w, i)
    ensures Leads(w, w') && AllConverted(w')
    ensures w' == w.(streamer := Some(Target(w)), vols := w'.vols, finished := w'.finished)
        && w'.vols.Keys == w.vols.Keys
    ensures forall i: nat :: if IsReplica(w, i) then ReplicaDone(w, w', i) else Vol(w', i) == Vol(w, i)
  {
    Stay(w);
    var w1 := Apply(w, NewStreamer(Target(w)));
    Step(w, w, Op(NewStreamer(Target(w))));
    forall i: nat | IsReplica(w1, i)
      ensures ReplicaReady(w1, i)
    {
      assert IsReplica(w, i) && ReplicaReady(w, i);
    }
    w' := ConvertAll(w1, w.status.volumes, c);
    Then(w, w1, w');
    assert forall i: nat :: IsReplica(w1, i) ==> SupJob(i) in w'.finished;
    forall i: nat
      ensures if IsReplica(w, i) then ReplicaDone(w, w', i) else Vol(w', i) == Vol(w, i)
    {
      assert Vol(w1, i) == Vol(w, i) && Vol(w1, Target(w)) == Vol(w, Target(w));
      assert IsReplica(w1, i) ==> ReplicaDone(w1, w', i);
    }
  }

  // ----- primary-move

  lemma PassMove(w: World, c: Chance) returns (w': World)
    requires Lean(w) && InStage(w, PrimaryMove) && w.config.initialize.Some? && Target(w) in w.vols
    requires Leader.MoveOk(Vol(w, Target(w)), w.status.upgradeVersion, w.config.initialize.value)
    ensures Leads(w, w')
    ensures w' == Left(w, PrimaryMove).(vols := w'.vols) && w'.vols.Keys == w.vols.Keys
    ensures Leader.Moved(Vol(w', Target(w)), w.status.upgradeVersion, w.config.initialize.value)
    ensures forall i: nat :: i != Target(w) ==> Vol(w', i) == Vol(w, i)
  {
    var t, x := Move(Target(w)), Vol(w, Target(w));
    JobComes(w, MoveJob, t);
    var w2 := WithJob(w, MoveJob, t);
    Leader.MoveIsCrashSafeAndRecovers(x, [], t, w.status.upgradeVersion, w.config.initialize.value, c);
    MoveRunsOut(w2, c);
    var m := Leader.MoveRunOut(Leader.Node(x, At(MTest)), t, c);
    Then(w, w2, Land(w2, MoveJob, Effect(m.x, m.pod)));
    JobGoes(w, MoveJob, t, Effect(m.x, m.pod));
    var w4 := JobDone(w, MoveJob, Target(w), m.x, m.pod.output);
    Leave(w, w4, PrimaryMove);
    w' := Left(w4, PrimaryMove);
  }

  // ----- a whole upgrade

  /** A cluster to whose upgrade nothing stands in the way: it has been admitted, the leader's volume holds the
      database, and the version of every other listed volume can be read. */
  ghost predicate Upgradable(w: World) {
    && Lean(w) && w.status.state == Ready && w.status.volumes >= 1
    && w.status.upgradeVersion != 0 && w.status.upgradeVersion != w.status.version
    && w.sts.Some? && w.sts.value.template == w.status.version
    && w.leader == Some(Target(w)) && PrimaryReady(w)
    && forall i: nat :: IsReplica(w, i) ==> ReplicaReady(w, i)
  }

  // The cluster at the start of stage primary.
  function Stopped(w: World): World
    requires w.sts.Some?
  {
    w.(status := w.status.(state := Upgrading(Primary)), config := w.config.(initdbArgs := Some("")),
       sts := Some(w.sts.value.(replicas := 0)), told := Some(w.ready), pods := map[], finished := map[])
  }

  // The cluster at the start of stage preupgrade-sync.
  function AtSync(w: World): World
    requires w.sts.Some?
  {
    Stopped(w).(status := w.status.(state := Upgrading(Sync)))
  }

  lemma ReachesSync(w: World)
    requires Upgradable(w)
    ensures Leads(w, AtSync(w))
  {
    Stay(w);
    var w1 := w.(status := w.status.(state := Upgrading(Preupgrade)), finished := map[]);
    Step(w, w, Op(Persist(w1.status)));
    PassPreupgrade(w1);
    Then(w, w1, PassedPreupgrade(w1));
    var w2 := PassedPreupgrade(w1);
    PassScaledown(w2, PreScaledown);
    Then(w, w2, PassedScaledown(w2, PreScaledown));
    assert PassedScaledown(w2, PreScaledown) == AtSync(w);
  }

  lemma ReachesPrimary(w: World)
    requires Upgradable(w)
    ensures Leads(w, Stopped(w))
  {
    ReachesSync(w);
    var w3 := AtSync(w);
    PassSync(w3);
    var w4 := Left(AskedToSync(w3), Sync);
    Then(w, w3, w4);
    PassScaledown(w4, Scaledown);
    Then(w, w4, PassedScaledown(w4, Scaledown));
    assert PassedScaledown(w4, Scaledown) == Stopped(w);
  }

  // Replica i is at the leader's last checkpoint, as preupgrade-sync leaves it.
  predicate InStep(w: World, i: nat) {
    && VersionOf(Vol(w, i).data) == Some(w.status.version)
    && Vol(w, i).data.control.Some? && CheckpointOf(Vol(w, i).data) == CheckpointOf(Vol(w, Target(w)).data)
  }

  /** Every upgradable cluster can come to the point where postupgrade asks for the database at the new version.
      Then the replicas that were at the leader's last checkpoint are the new database, the others are empty, and
      the volumes the status does not list are as they were. */
  lemma ReachesPostupgrade(w: World, c: Chance) returns (w': World)
    requires Upgradable(w) && Lucky(c)
    ensures Leads(w, w') && AboutToServe(w') && Lean(w') && w'.table == w.table && w'.seen == w.seen
        && w'.leader == w.leader
    ensures w'.status == w.status.(state := Upgrading(Postupgrade), version := w.status.upgradeVersion)
    ensures w'.sts.Some? && w'.config.initialize == Some(c.id)
    ensures IsDatabase(Vol(w', Target(w)).data, w'.status.version, c.id)
    ensures forall i: nat :: i >= w.status.volumes && i != Target(w) ==> Vol(w', i) == Vol(w, i)
    ensures forall i: nat :: IsReplica(w, i) ==>
              if InStep(w, i) then IsDatabase(Vol(w', i).data, w'.status.version, c.id) else Vol(w', i).data.Absent?
  {
    ReachesPrimary(w);
    var w1 := Stopped(w);
    UpJobSucceeds(w1, c);
    PassPrimary(w1, c);
    var w2 := PassedPrimary(w1, c);
    Then(w, w1, w2);
    forall i: nat | IsReplica(w2, i)
      ensures ReplicaReady(w2, i)
    {
      assert IsReplica(w, i) && ReplicaReady(w, i) && w2.vols[i] == w.vols[i];
    }
    var w3 := PassSecondaries(w2, c);
    Then(w, w2, w3);
    assert Vol(w3, Target(w)) == Converted(w1, c);
    w' := PassMove(w3, c);
    Then(w, w3, w');
    assert forall i: nat :: i >= w.status.volumes && i != Target(w) ==> !IsReplica(w2, i);
    forall i: nat | IsReplica(w, i)
      ensures if InStep(w, i) then IsDatabase(Vol(w', i).data, w'.status.version, c.id) else Vol(w', i).data.Absent?
    {
      assert IsReplica(w2, i) && ReplicaDone(w2, w3, i) && Vol(w', i) == Vol(w3, i) && Vol(w2, i) == Vol(w, i);
      assert CaughtUpWith(Vol(w, i).data, Converted(w1, c).data) <==> InStep(w, i);
    }
  }

  // The cluster when postupgrade is over.
  function Completed(w: World): World {
    w.(sts := Some(Sts(w.seen.nodes, w.status.version)), told := Some(w.seen.nodes), ready := w.seen.nodes,
        config := w.config.(initdbArgs := None, checkpoint := None),
       status := w.status.(state := Ready, upgradeVersion := 0), finished := map[])
  }

  lemma PassPostupgrade(w: World)
    requires Lean(w) && AboutToServe(w)
    ensures Leads(w, Completed(w))
  {
    Stay(w);
    var ask := PutSts(Sts(w.seen.nodes, w.status.version));
    Step(w, w, Op(ask));
    var w0 := EnvStep(Apply(w, ask), Report(w.seen.nodes));
    Step(w, Apply(w, ask), Env(Report(w.seen.nodes)));
    Step(w, w0, Op(Fetch));
    Step(w, Apply(w0, Fetch), Op(ask));
    var w1 := Apply(Apply(w0, Fetch), ask);
    HelperHelps(w1, PostJob, NoOutput);
    var w2 := Helped(w1, PostJob, NoOutput);
    Then(w, w1, w2);
    var w3 := Apply(w2, ClearAnnotations);
    Step(w, w2, Op(ClearAnnotations));
    Leave(w, w3, Postupgrade);
    assert Left(w3, Postupgrade) == Completed(w);
  }

  /** Every upgradable cluster can be upgraded: some legal run leads to Ready at the target, with as many replicas
      as the spec has nodes asked for at the new version. */
  lemma UpgradeIsPossible(w: World, c: Chance) returns (w': World)
    requires Upgradable(w) && Lucky(c)
    ensures Leads(w, w')
    ensures w'.status == w.status.(state := Ready, version := w.status.upgradeVersion, upgradeVersion := 0)
    ensures w'.sts == Some(Sts(w.spec.nodes, w.status.upgradeVersion))
    ensures Lean(w') && w'.table == w.table && w'.spec == w.spec && w'.leader == w.leader
  {
    var w1 := ReachesPostupgrade(w, c);
    PassPostupgrade(w1);
    w' := Completed(w1);
    Then(w, w1, w');
  }
}
