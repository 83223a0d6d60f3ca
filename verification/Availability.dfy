/** What the scale-down stages read off the StatefulSet. With a minimum ready time, a count of zero
    available replicas does not by itself mean that no pod runs. */
module Availability {
  import opened Base
  import opened Scripts
  import opened World
  import opened Runs
  import opened Feasible

  const MIN_READY_SECONDS: nat := 60

  // The available replicas, given for how long each pod has been ready.
  function Available(w: World, readyFor: nat -> nat): nat {
    |set i | i in w.pods && readyFor(i) >= MIN_READY_SECONDS|
  }

  // After preupgrade-sync, with the leader's pod running and no replicas asked for any more.
  function JustScaledDown(w: World): World
    requires w.sts.Some?
  {
    Stopped(w).(status := w.status.(state := Upgrading(Scaledown)),
                sts := Some(Sts(0, w.status.version)), told := Some(w.ready),
                pods := map[Target(w) := w.status.version],
                vols := w.vols[Target(w) := Vol(w, Target(w))])
  }

  // The leader's pod is started for preupgrade-sync, and scaled down again as soon as that has succeeded.
  lemma LeaderStillRuns(w: World)
    requires Upgradable(w) && w.status.volumes != 1 && Target(w) < w.seen.nodes
    ensures Leads(w, JustScaledDown(w))
  {
    ReachesSync(w);
    var w1 := AtSync(w);
    var up := PutSts(Sts(w.seen.nodes, w.status.version));
    Runs.Step(w, w1, Op(up));
    var w2 := Apply(w1, up);
    Runs.Step(w, w2, Env(StartPod(Target(w))));
    var w3 := EnvStep(w2, StartPod(Target(w)));
    HelperHelps(w3, SyncJob, NoOutput);
    var w4 := Helped(w3, SyncJob, NoOutput);
    Then(w, w3, w4);
    Leave(w, w4, Sync);
    var w5 := Left(w4, Sync);
    ScalesDown(w, w5);
    assert w3.pods == map[Target(w) := w.status.version];
  }

  lemma ScalesDown(w: World, w1: World)
    requires Leads(w, w1) && InStage(w1, Scaledown) && w1.sts.Some? && !w1.seen.ignore
    ensures Leads(w, w1.(sts := Some(w1.sts.value.(replicas := 0)), told := Some(w1.ready)))
  {
    Runs.Step(w, w1, Op(PutSts(w1.sts.value.(replicas := 0))));
  }

  /** A pod that became ready less than a minute before the scale-down is not counted. So from every upgradable cluster
      of several volumes a run leads to the second scale-down stage with none asked for and none counted, although
      the leader's pod runs. The status may not move on then; if it does, primary-upgrade may be started on the
      volume of the running pod. */
  lemma YoungLeaderSharesItsVolume(w: World, readyFor: nat -> nat)
    requires Upgradable(w) && w.status.volumes != 1 && Target(w) < w.seen.nodes
    requires readyFor(Target(w)) < MIN_READY_SECONDS
    ensures var w' := JustScaledDown(w);
            var s := Advance(w'.status, Scaledown);
            var moved := Apply(w', Persist(s));
            var task := Upgrade(Target(w), w.config.initialize.value, w.status.version, w.status.upgradeVersion, "");
            && Leads(w, w') && InStage(w', Scaledown) && Replicas(w') == 0
            && Available(w', readyFor) == 0
            && !Allowed(w', Persist(s))
            && Allowed(moved, NewJob(UpJob, task))
            && task.vol in Apply(moved, NewJob(UpJob, task)).pods
  {
    LeaderStillRuns(w);
    var w' := JustScaledDown(w);
    assert (set i | i in w'.pods && readyFor(i) >= MIN_READY_SECONDS) == {};
    assert Target(w) in w'.pods;
    assert !Done(w', Scaledown);
    assert Target(w') == Target(w);
  }
}
