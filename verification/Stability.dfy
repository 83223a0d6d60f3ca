/** What the environment cannot take back between two calls of the operator, and
    so what the operator may still rely on when its next call takes effect. */
module Stability {
  import opened Scripts
  import opened World
  import opened Protocol

  predicate JobLater(w: World, w': World, name: JobName) {
    && (name in w'.jobs ==>
        name in w.jobs && w'.jobs[name].task == w.jobs[name].task && w'.jobs[name].deleting == w.jobs[name].deleting)
    && (name in w.finished ==> name in w'.finished && w'.finished[name] == w.finished[name])
    && (name in w.jobs && !w.jobs[name].deleting ==> name in w'.jobs)
    && (name in w.jobs && name in w'.jobs ==>
          && (w.jobs[name].failed ==> w'.jobs[name].failed)
          && (w.jobs[name].pod.Finished? ==> w'.jobs[name].pod == w.jobs[name].pod))
  }

  /** w' can follow w with no call of the operator in between. */
  ghost predicate Later(w: World, w': World) {
    && w'.table == w.table && w'.seen == w.seen && w'.told == w.told && w'.status == w.status
    && w'.sts == w.sts && w'.streamer == w.streamer && w.vols.Keys <= w'.vols.Keys
    && w'.config.initdbArgs == w.config.initdbArgs && w'.config.checkpoint == w.config.checkpoint
    && (w.leader.Some? ==> w'.leader.Some?)
    && (Quiet(w) ==> w'.pods == w.pods && w'.config == w.config && w'.leader == w.leader)
    && forall name :: JobLater(w, w', name)
  }

  lemma LaterRefl(w: World)
    ensures Later(w, w)
  {
  }

  lemma LaterTrans(a: World, b: World, c: World)
    requires Later(a, b) && Later(b, c)
    ensures Later(a, c)
  {
    forall name
      ensures JobLater(a, c, name)
    {
      assert JobLater(a, b, name) && JobLater(b, c, name);
    }
  }

  // What Patroni can change.
  lemma PatroniFrame(w: World, a: Action)
    ensures var w' := PatroniStep(w, a);
            && w' == w.(pods := w'.pods, vols := w'.vols, leader := w'.leader, config := w'.config)
            && w'.config == w.config.(initialize := w'.config.initialize, settings := w'.config.settings)
            && w.vols.Keys <= w'.vols.Keys
            && (w.leader.Some? ==> w'.leader.Some?)
            && (Quiet(w) ==> w' == w)
  {
  }

  lemma PatroniStepIsLater(w: World, a: Action)
    ensures Later(w, PatroniStep(w, a))
  {
    PatroniFrame(w, a);
  }

  lemma LandIsLater(w: World, at: JobName, r: Effect, name: JobName)
    requires JobOk(w, name) && Active(w, at)
    ensures JobLater(w, Land(w, at, r), name)
  {
  }

  lemma RecordIsLater(w: World, a: Action, name: JobName)
    requires JobOk(w, name) && !a.RunJob? && !a.FinishHelper?
    ensures JobLater(w, JobStep(w, a), name)
  {
  }

  lemma JobStepIsLaterFor(w: World, a: Action, name: JobName)
    requires JobsOk(w)
    ensures JobLater(w, JobStep(w, a), name)
  {
    assert JobOk(w, name);
    match a
    case RunJob(at, c) =>
      if Active(w, at) && !w.jobs[at].deleting {
        var t := w.jobs[at].task;
        LandIsLater(w, at, Run(w.vols[t.vol], w.jobs[at].pod.pc, t, Served(w), c), name);
      }
    case FinishHelper(_, _) =>
    case _ => RecordIsLater(w, a, name);
  }

  lemma EnvStepIsLater(w: World, a: Action)
    requires Inv(w)
    ensures Later(w, EnvStep(w, a))
  {
    PatroniStepIsLater(w, a);
    JobStepIsLater(w, a);
  }

  lemma JobStepIsLater(w: World, a: Action)
    requires Inv(w)
    ensures Later(w, JobStep(w, a))
  {
    forall name
      ensures JobLater(w, JobStep(w, a), name)
    {
      JobStepIsLaterFor(w, a, name);
    }
    JobStepFrame(w, a);
  }

  // What the job controller and the scripts can change.
  lemma JobStepFrame(w: World, a: Action)
    ensures var w' := JobStep(w, a);
            w' == w.(jobs := w'.jobs, finished := w'.finished, vols := w'.vols) && w'.vols.Keys == w.vols.Keys
  {
  }

  lemma DoneLater(w: World, w': World, k: Stage)
    requires Inv(w) && Later(w, w') && InStage(w, k) && Done(w, k)
    ensures Done(w', k)
  {
    assert JobLater(w, w', PreJob) && JobLater(w, w', SyncJob) && JobLater(w, w', UpJob);
    assert JobLater(w, w', MoveJob) && JobLater(w, w', PostJob);
    if k == Secondaries && w.status.volumes != 1 {
      forall i: nat
        ensures SupJob(i) in w.finished ==> SupJob(i) in w'.finished
        ensures SupJob(i) !in w'.jobs
      {
        assert JobLater(w, w', SupJob(i));
      }
    }
  }

  lemma ConvertedLater(w: World, w': World)
    requires Inv(w) && Later(w, w') && InStage(w, Secondaries) && AllConverted(w)
    ensures AllConverted(w')
  {
    forall i: nat {:trigger SupJob(i)} | i < w.status.volumes && i != Target(w')
      ensures SupJob(i) in w'.finished
    {
      assert JobLater(w, w', SupJob(i));
    }
  }

  lemma MayPersistLater(w: World, w': World, s: Status)
    requires Inv(w) && Later(w, w') && MayPersist(w, s)
    ensures MayPersist(w', s)
  {
    if w.status.state.Upgrading? && s != w.status {
      DoneLater(w, w', w.status.state.stage);
    }
  }

  // What the operator may do it may still do after the environment has acted, but for a write of the status.
  lemma AllowedLater(w: World, w': World, c: Call)
    requires Inv(w) && Later(w, w') && Allowed(w, c) && !c.Persist?
    ensures Allowed(w', c)
  {
    match c
    case PutInitdbArgs(_) => assert JobLater(w, w', PreJob);
    case PutCheckpoint(_) => assert JobLater(w, w', UpJob);
    case PutDbId(_) => assert JobLater(w, w', UpJob);
    case NewJob(name, _) => assert JobLater(w, w', name);
    case DropJob(name) => assert JobLater(w, w', name) && JobLater(w, w', UpJob);
    case RetireJob(name) => assert JobLater(w, w', name);
    case DropStreamer => ConvertedLater(w, w');
    case _ =>
  }
}
