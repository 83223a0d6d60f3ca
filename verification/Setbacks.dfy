/** Jobs that fail: what an undisturbed reconcile does about them. */
module Setbacks {
  import opened Scripts
  import opened World
  import opened Protocol
  import opened Rounds
  import opened Images
  import opened Initdb
  import opened Progress

  // ----- what a round leaves of the jobs

  // w1 has come of w by calls on jobs and annotations: its jobs are those of w, or new, and the status is that of w.
  ghost predicate Carried(w: World, w1: World) {
    && w1.status == w.status
    && forall name :: JobCarried(w, w1, name)
  }

  predicate JobCarried(w: World, w1: World, name: JobName) {
    name in w1.jobs ==>
      || (!w1.jobs[name].failed && w1.jobs[name].pod.Idle?)
      || (name in w.jobs && w1.jobs[name] == w.jobs[name].(deleting := w1.jobs[name].deleting))
  }

  lemma CallCarries(w: World, w1: World, c: Call)
    requires Carried(w, w1) && !c.Persist?
    ensures Carried(w, Apply(w1, c))
  {
    forall name
      ensures JobCarried(w, Apply(w1, c), name)
    {
      assert JobCarried(w, w1, name);
    }
  }

  lemma CleanupCarries(w: World, w1: World, name: JobName)
    requires Carried(w, w1)
    ensures Carried(w, Cleanup(w1, name))
  {
    CallCarries(w, w1, DropJob(name));
  }

  lemma {:induction false} CreateCarries(w: World, w1: World, os: seq<nat>)
    requires Carried(w, w1) && w1.config.checkpoint.Some? && w1.config.initialize.Some?
    ensures Carried(w, CreateMissing(w1, os))
  {
    if os != [] {
      var i := os[|os| - 1];
      CreateCarries(w, w1, os[..|os| - 1]);
      CallCarries(w, CreateMissing(w1, os[..|os| - 1]), NewJob(SupJob(i), ConvertTask(w1, i)));
    }
  }

  lemma {:induction false} RetireCarries(w: World, w1: World, os: seq<nat>)
    requires Carried(w, w1)
    ensures Carried(w, RetireFailed(w1, os))
  {
    if os != [] {
      RetireCarries(w, w1, os[..|os| - 1]);
      CallCarries(w, RetireFailed(w1, os[..|os| - 1]), RetireJob(SupJob(os[|os| - 1])));
    }
  }

  lemma {:induction false} DropCarries(w: World, w1: World, os: seq<nat>)
    requires Carried(w, w1)
    ensures Carried(w, DropAll(w1, os))
  {
    if os != [] {
      DropCarries(w, w1, os[..|os| - 1]);
      CallCarries(w, DropAll(w1, os[..|os| - 1]), DropJob(SupJob(os[|os| - 1])));
    }
  }

  lemma HelperCarries(w: World, w1: World, name: JobName)
    requires Carried(w, w1)
    ensures var w2 := Apply(w1, NewJob(name, Helper));
            Carried(w, w2) && Carried(w, Cleanup(w2, name))
  {
    CallCarries(w, w1, NewJob(name, Helper));
    CleanupCarries(w, Apply(w1, NewJob(name, Helper)), name);
  }

  lemma PreupgradeCarries(w: World)
    ensures Carried(w, PreupgradeRound(w).w)
  {
    HelperCarries(w, w, PreJob);
    var w1 := Apply(w, NewJob(PreJob, Helper));
    if Succeeded(w1, PreJob) && w1.jobs[PreJob].pod.output.Settings? {
      var put := PutInitdbArgs(InitdbArgs(w1.jobs[PreJob].pod.output.config));
      CallCarries(w, w1, put);
      CleanupCarries(w, Apply(w1, put), PreJob);
    }
  }

  lemma PrimaryCarries(w: World)
    ensures Carried(w, PrimaryRound(w).w)
  {
    CleanupCarries(w, w, UpJob);
    if UpJob !in w.jobs {
      if LeaderKnown(w) && w.config.initialize.Some? {
        var args := if w.config.initdbArgs.Some? then w.config.initdbArgs.value else "";
        var t := Upgrade(Target(w), w.config.initialize.value, w.status.version, w.status.upgradeVersion, args);
        CallCarries(w, w, NewJob(UpJob, t));
      }
    } else if Succeeded(w, UpJob) && w.jobs[UpJob].pod.output.Upgraded? {
      var out := w.jobs[UpJob].pod.output;
      CallCarries(w, w, PutCheckpoint(out.oldCheckpoint));
      var w1 := if out.oldCheckpoint != "" then Apply(w, PutCheckpoint(out.oldCheckpoint)) else w;
      CallCarries(w, w1, PutDbId(out.newSysId));
      CallCarries(w, Apply(w1, PutDbId(out.newSysId)), DropJob(UpJob));
    }
  }

  lemma SecondariesCarries(w: World)
    ensures Carried(w, SecondariesRound(w).w)
  {
    var w1, os := Apply(w, NewStreamer(Target(w))), Others(w.status.volumes, Target(w));
    CallCarries(w, w, NewStreamer(Target(w)));
    if w1.config.checkpoint.Some? && w1.config.initialize.Some? {
      CreateCarries(w, w1, os);
      var w2 := CreateMissing(w1, os);
      RetireCarries(w, w2, os);
      var w3 := RetireFailed(w2, os);
      CallCarries(w, w3, DropStreamer);
      DropCarries(w, Apply(w3, DropStreamer), os);
    }
  }

  lemma StageCarries(w: World, k: Stage, nodes: nat)
    ensures Carried(w, StageRound(w, k, nodes).w)
  {
    match k
    case Preupgrade => PreupgradeCarries(w);
    case PreScaledown => CallCarries(w, w, PutSts(if w.sts.Some? then w.sts.value.(replicas := 0) else Sts(0, 0)));
    case Sync =>
      CallCarries(w, w, PutSts(Sts(nodes, w.status.version)));
      HelperCarries(w, Apply(w, PutSts(Sts(nodes, w.status.version))), SyncJob);
    case Scaledown => CallCarries(w, w, PutSts(if w.sts.Some? then w.sts.value.(replicas := 0) else Sts(0, 0)));
    case Primary => PrimaryCarries(w);
    case Secondaries => SecondariesCarries(w);
    case PrimaryMove =>
      CleanupCarries(w, w, MoveJob);
      CallCarries(w, w, NewJob(MoveJob, Move(Target(w))));
    case Postupgrade =>
      CallCarries(w, w, PutSts(Sts(nodes, w.status.version)));
      HelperCarries(w, Apply(w, PutSts(Sts(nodes, w.status.version))), PostJob);
  }

  // ----- what a round does about a failed job

  // What its handler needs to get as far as the failed job, and to read what it printed if it has succeeded as well.
  predicate Reached(w: World, name: JobName) {
    match name
    case PreJob => Succeeded(w, PreJob) ==> w.jobs[PreJob].pod.output.Settings?
    case UpJob => Succeeded(w, UpJob) ==> w.jobs[UpJob].pod.output.Upgraded? && w.config.settings.Some?
    case SupJob(_) => w.streamer.Some? || Target(w) < w.status.volumes
    case PostJob => w.ready == w.spec.nodes
    case _ => true
  }

  // The round ends with an error, the stage is not left, and the failed job is deleted or being deleted.
  predicate Answered(w: World, v: Verdict, name: JobName) {
    v.err && v.w.status == w.status && (name in v.w.jobs ==> v.w.jobs[name].deleting)
  }

  lemma {:induction false} FailureIsCounted(w: World, os: seq<nat>, i: nat)
    requires i in os && OnlyFailed(w, i)
    ensures CountFailed(w, os) > 0
    ensures var r := RetireFailed(w, os);
            SupJob(i) in r.jobs && r.jobs[SupJob(i)].deleting
  {
    var front := os[..|os| - 1];
    if i in front {
      FailureIsCounted(w, front, i);
    } else {
      RetiresKeepsJobs(w, front, SupJob(i));
    }
  }

  lemma {:induction false} RetiresKeepsJobs(w: World, os: seq<nat>, name: JobName)
    requires name in w.jobs
    ensures name in RetireFailed(w, os).jobs
  {
    if os != [] {
      RetiresKeepsJobs(w, os[..|os| - 1], name);
    }
  }

  lemma ReplicaFailureIsAnswered(w: World, i: nat)
    requires JobOk(w, SupJob(i)) && Trouble(w, SupJob(i)) && Reached(w, SupJob(i))
    requires w.status.volumes > 1 ==> w.leader.Some?
    ensures Answered(w, SecondariesRound(w), SupJob(i))
  {
    var w1, os := Apply(w, NewStreamer(Target(w))), Others(w.status.volumes, Target(w));
    CreatesAll(w1, os);
    var w2 := CreateMissing(w1, os);
    assert w2.jobs[SupJob(i)] == w.jobs[SupJob(i)];
    FailureIsCounted(w2, os, i);
    RetireCarries(w2, w2, os);
    RoundWithFailure(w, w2, os);
  }

  lemma RoundWithFailure(w: World, w2: World, os: seq<nat>)
    requires w.status.volumes > 1 && w.leader.Some? && (w.streamer.Some? || Target(w) < w.status.volumes)
    requires w.config.checkpoint.Some? && w.config.initialize.Some?
    requires os == Others(w.status.volumes, Target(w)) && w2 == CreateMissing(Apply(w, NewStreamer(Target(w))), os)
    requires CountFailed(w2, os) > 0
    ensures SecondariesRound(w) == Verdict(RetireFailed(w2, os), false, true)
  {
  }

  lemma HelperFailureIsAnswered(w: World, k: Stage, name: JobName)
    requires JobOk(w, name) && Trouble(w, name) && Reached(w, name) && k == StageOf(name) && !name.SupJob?
    ensures Answered(w, StageRound(w, k, w.spec.nodes), name)
  {
    StageCarries(w, k, w.spec.nodes);
  }

  /** Whichever job of an upgrade has failed, the reconcile reports it, stays in the stage, and deletes the job, so that
      a later one can create it anew; a replica's job that has succeeded as well has not failed. */
  lemma FailureIsAnswered(w: World, name: JobName)
    requires Inv(w) && !w.spec.ignore && Lookup(w.table, w.status.version).Some?
    requires Trouble(w, name) && Reached(w, name)
    ensures var (w', err) := ReconcileRound(w);
            err && w'.status == w.status && (name in w'.jobs ==> w'.jobs[name].deleting)
  {
    var w0 := Apply(w, Fetch);
    assert JobOk(w, name) && JobOk(w0, name);
    if name.SupJob? {
      ReplicaFailureIsAnswered(w0, name.i);
    } else {
      HelperFailureIsAnswered(w0, StageOf(name), name);
    }
  }

  /** primary-upgrade, whatever its job has printed or the annotations hold: once it has failed without succeeding,
      the next undisturbed reconcile deletes it. */
  lemma FailedUpgradeIsDeleted(w: World)
    requires Inv(w) && !w.spec.ignore && Lookup(w.table, w.status.version).Some?
    requires Failed(w, UpJob) && !Succeeded(w, UpJob)
    ensures var (w', err) := ReconcileRound(w);
            err && UpJob !in w'.jobs && w'.status == w.status
  {
    assert JobOk(w, UpJob);
    FailureIsAnswered(w, UpJob);
    JobsAfterRound(w);
    assert JobCarried(Apply(w, Fetch), ReconcileRound(w).0, UpJob);
  }

  // After an undisturbed reconcile under upgrade every job is new or what it was before.
  lemma JobsAfterRound(w: World)
    requires Inv(w) && w.status.upgradeVersion != 0
    ensures var w' := ReconcileRound(w).0;
            forall name :: JobCarried(w, w', name)
  {
    var w0, w' := Apply(w, Fetch), ReconcileRound(w).0;
    if w.status.state.Upgrading? {
      var k := w.status.state.stage;
      StageCarries(w0, k, w0.spec.nodes);
      var v := StageRound(w0, k, w0.spec.nodes);
      forall name
        ensures JobCarried(w, w', name)
      {
        assert JobCarried(w0, v.w, name);
      }
    }
  }
}
