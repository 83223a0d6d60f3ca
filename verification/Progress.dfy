/** Progress: what one undisturbed reconcile of a cluster brings about when the environment has settled and no
    job has failed. */
module Progress {
  import opened Base
  import opened Scripts
  import opened World
  import opened Protocol
  import opened Rounds
  import opened Stability
  import opened Images
  import opened Initdb

  // What a job that succeeds has printed.
  predicate GoodOutput(w: World, name: JobName)
    requires Succeeded(w, name)
  {
    var out := w.jobs[name].pod.output;
    && (name == PreJob ==> out.Settings? && out.config.maxPreparedTransactions == 0)
    && (name == UpJob ==> out.Upgraded? && (out.oldCheckpoint != "" || w.config.checkpoint.Some?))
  }

  // A failed job; a replica's that has succeeded as well counts as a success.
  predicate Trouble(w: World, name: JobName) {
    name in w.jobs && w.jobs[name].failed && !(name.SupJob? && Succeeded(w, name))
  }

  // A job that has come to an end; if it has succeeded, with something to show for it.
  predicate EndedJob(w: World, name: JobName) {
    name in w.jobs ==> Ended(w, name) && !w.jobs[name].deleting && (Succeeded(w, name) ==> GoodOutput(w, name))
  }

  predicate GoodJob(w: World, name: JobName) {
    EndedJob(w, name) && !Trouble(w, name)
  }

  /** The environment has done its part: jobs have ended, pods have stopped or become ready as asked, the
      annotations Patroni keeps are there, and the spec has kept its number of nodes. */
  ghost predicate AtRest(w: World, nodes: nat) {
    && Inv(w)
    && nodes == w.spec.nodes == w.status.volumes && nodes >= 1
    && !w.spec.ignore && Lookup(w.table, w.status.version).Some?
    && LeaderKnown(w) && w.sts.Some?
    && w.config.initialize.Some? && w.config.settings.Some?
    && (forall name :: EndedJob(w, name))
    && (Replicas(w) == 0 ==> w.pods == map[])
    && (InStage(w, Postupgrade) && (Replicas(w) == nodes || PostJob in w.jobs) ==> w.ready == nodes)
    && (InStage(w, Secondaries) && nodes != 1 ==> w.config.checkpoint.Some?)
  }

  // Nor has a job failed.
  ghost predicate Settled(w: World, nodes: nat) {
    AtRest(w, nodes) && forall name :: GoodJob(w, name)
  }

  predicate NotDeleting(w: World, name: JobName) {
    name in w.jobs ==> !w.jobs[name].deleting
  }

  ghost predicate NoneDeleting(w: World) {
    forall name :: NotDeleting(w, name)
  }

  // ----- the measure

  predicate AllPresent(w: World) {
    forall i: nat {:trigger SupJob(i)} :: i < w.status.volumes && i != Target(w) ==> SupJob(i) in w.jobs
  }

  // Rounds left in the current stage, beyond the one that completes it.
  function StepsLeft(w: World, k: Stage, nodes: nat): nat {
    match k
    case Preupgrade => if PreJob in w.jobs then 0 else 1
    case PreScaledown => if Replicas(w) == 0 then 0 else 1
    case Sync => if w.status.volumes == 1 || SyncJob in w.jobs then 0 else 1
    case Scaledown => if Replicas(w) == 0 then 0 else 1
    case Primary => if UpJob in w.jobs then 0 else 1
    case Secondaries => if w.status.volumes == 1 || AllPresent(w) then 0 else 1
    case PrimaryMove => if MoveJob in w.jobs then 0 else 1
    case Postupgrade => if Replicas(w) != nodes then 2 else if PostJob in w.jobs then 0 else 1
  }

  function StagesAfter(k: Stage): nat {
    match k
    case Preupgrade => 15
    case PreScaledown => 13
    case Sync => 11
    case Scaledown => 9
    case Primary => 7
    case Secondaries => 5
    case PrimaryMove => 3
    case Postupgrade => 0
  }

  // A bound on the reconciles still needed after the next one.
  function Rank(w: World, nodes: nat): nat {
    match w.status.state
    case Upgrading(k) => StagesAfter(k) + StepsLeft(w, k, nodes)
    case _ => 17
  }

  // The rank does not depend on what the environment does between two reconciles.
  lemma RankLater(w: World, w': World, nodes: nat)
    requires Later(w, w') && (InStage(w, Secondaries) ==> Quiet(w))
    requires NoneDeleting(w)
    ensures Rank(w', nodes) == Rank(w, nodes)
  {
    forall name
      ensures name in w'.jobs <==> name in w.jobs
    {
      assert JobLater(w, w', name) && NotDeleting(w, name);
    }
    if InStage(w, Secondaries) {
      assert forall i: nat {:trigger SupJob(i)} :: SupJob(i) in w'.jobs <==> SupJob(i) in w.jobs;
    }
  }

  // ----- one round

  lemma SettledNoneDeleting(w: World, nodes: nat)
    requires Settled(w, nodes)
    ensures NoneDeleting(w)
  {
    forall name
      ensures NotDeleting(w, name)
    {
      assert GoodJob(w, name);
    }
  }

  // Creating and dropping jobs in the background marks none for deletion.
  lemma CallKeepsNoneDeleting(w: World, c: Call)
    requires NoneDeleting(w) && !c.RetireJob?
    ensures NoneDeleting(Apply(w, c))
  {
    forall name
      ensures NotDeleting(Apply(w, c), name)
    {
      assert NotDeleting(w, name);
    }
  }

  lemma CleanupKeepsNoneDeleting(w: World, name: JobName)
    requires NoneDeleting(w)
    ensures NoneDeleting(Cleanup(w, name))
  {
    CallKeepsNoneDeleting(w, DropJob(name));
  }

  // A round of stage k that ends well: it completes the stage, or leaves fewer steps in it.
  ghost predicate Advances(w: World, v: Verdict, k: Stage, nodes: nat) {
    && !v.err
    && v.w.status == w.status && v.w.pods == w.pods
    && (k == Primary || k == Secondaries ==> v.w.sts == w.sts)
    && NoneDeleting(v.w)
    && (!v.done ==> StepsLeft(v.w, k, nodes) < StepsLeft(w, k, nodes))
  }

  lemma PreupgradeAdvances(w: World, nodes: nat)
    requires Settled(w, nodes) && InStage(w, Preupgrade)
    ensures Advances(w, PreupgradeRound(w), Preupgrade, nodes)
  {
    SettledNoneDeleting(w, nodes);
    assert GoodJob(w, PreJob);
    var w1 := Apply(w, NewJob(PreJob, Helper));
    CallKeepsNoneDeleting(w, NewJob(PreJob, Helper));
    CleanupKeepsNoneDeleting(w1, PreJob);
    if Succeeded(w1, PreJob) {
      var args := InitdbArgs(w1.jobs[PreJob].pod.output.config);
      CallKeepsNoneDeleting(w1, PutInitdbArgs(args));
      CleanupKeepsNoneDeleting(Apply(w1, PutInitdbArgs(args)), PreJob);
    }
  }

  lemma ScaledownAdvances(w: World, k: Stage, nodes: nat)
    requires Settled(w, nodes) && InStage(w, k) && (k == PreScaledown || k == Scaledown)
    ensures Advances(w, ScaledownRound(w), k, nodes)
  {
    SettledNoneDeleting(w, nodes);
    CallKeepsNoneDeleting(w, PutSts(w.sts.value.(replicas := 0)));
  }

  lemma SyncAdvances(w: World, nodes: nat)
    requires NoneDeleting(w) && GoodJob(w, SyncJob)
    ensures Advances(w, SyncRound(w, nodes), Sync, nodes)
  {
    var w1 := Apply(w, PutSts(Sts(nodes, w.status.version)));
    var w2 := Apply(w1, NewJob(SyncJob, Helper));
    CallKeepsNoneDeleting(w, PutSts(Sts(nodes, w.status.version)));
    CallKeepsNoneDeleting(w1, NewJob(SyncJob, Helper));
    CleanupKeepsNoneDeleting(w2, SyncJob);
  }

  lemma PrimaryAdvances(w: World, nodes: nat)
    requires NoneDeleting(w) && GoodJob(w, UpJob)
    requires LeaderKnown(w) && w.config.initialize.Some? && w.config.settings.Some?
    ensures Advances(w, PrimaryRound(w), Primary, nodes)
  {
    forall name
      ensures NotDeleting(PrimaryRound(w).w, name)
    {
      assert NotDeleting(w, name);
    }
  }

  lemma MoveAdvances(w: World, nodes: nat)
    requires Settled(w, nodes) && InStage(w, PrimaryMove)
    ensures Advances(w, MoveRound(w), PrimaryMove, nodes)
  {
    SettledNoneDeleting(w, nodes);
    assert GoodJob(w, MoveJob);
    CallKeepsNoneDeleting(w, NewJob(MoveJob, Move(Target(w))));
    CleanupKeepsNoneDeleting(w, MoveJob);
  }

  lemma PostupgradeAdvances(w: World, nodes: nat)
    requires NoneDeleting(w) && GoodJob(w, PostJob)
    requires Replicas(w) == nodes ==> w.ready == nodes
    ensures Advances(w, PostupgradeRound(w, nodes), Postupgrade, nodes)
  {
    var w1 := Apply(w, PutSts(Sts(nodes, w.status.version)));
    var w2 := Apply(w1, NewJob(PostJob, Helper));
    CallKeepsNoneDeleting(w, PutSts(Sts(nodes, w.status.version)));
    CallKeepsNoneDeleting(w1, NewJob(PostJob, Helper));
    CleanupKeepsNoneDeleting(w2, PostJob);
  }

  // After the creating loop every replica of os has a job; those that had one keep it, new ones have not succeeded.
  lemma {:induction false} CreatesAll(w: World, os: seq<nat>)
    requires w.config.checkpoint.Some? && w.config.initialize.Some?
    ensures var r := CreateMissing(w, os);
            && (forall i :: i in os ==> SupJob(i) in r.jobs)
            && (forall name :: name in w.jobs ==> name in r.jobs && r.jobs[name] == w.jobs[name])
            && (forall name :: name in r.jobs && name !in w.jobs ==>
                  name.SupJob? && name.i in os && r.jobs[name] == Job(ConvertTask(w, name.i), Idle, false, false))
  {
    if os != [] {
      CreatesAll(w, os[..|os| - 1]);
    }
  }

  lemma {:induction false} NoneFailed(w: World, os: seq<nat>)
    requires forall i :: i in os ==> !OnlyFailed(w, i)
    ensures CountFailed(w, os) == 0 && RetireFailed(w, os) == w
  {
    if os != [] {
      NoneFailed(w, os[..|os| - 1]);
      assert os[|os| - 1] in os;
    }
  }

  lemma {:induction false} AllCounted(w: World, os: seq<nat>)
    ensures CountSucceeded(w, os) <= |os|
    ensures CountSucceeded(w, os) == |os| <==> forall i :: i in os ==> Succeeded(w, SupJob(i))
  {
    if os != [] {
      var front := os[..|os| - 1];
      AllCounted(w, front);
      assert os == front + [os[|os| - 1]];
    }
  }

  lemma {:induction false} DropAllKeeps(w: World, os: seq<nat>)
    ensures var r := DropAll(w, os);
            forall name :: name in r.jobs ==> name in w.jobs && r.jobs[name] == w.jobs[name]
  {
    if os != [] {
      DropAllKeeps(w, os[..|os| - 1]);
    }
  }

  // What the creating loop leaves is what the counting loop finds.
  lemma CountsAfterCreating(w: World, w1: World, os: seq<nat>)
    requires w1.config.checkpoint.Some? && w1.config.initialize.Some? && w1.jobs == w.jobs
    requires forall name :: GoodJob(w, name)
    ensures var w2 := CreateMissing(w1, os);
            && CountFailed(w2, os) == 0 && RetireFailed(w2, os) == w2
            && (CountSucceeded(w2, os) == |os| <==> forall i :: i in os ==> SupJob(i) in w.jobs)
            && (forall i :: i in os ==> SupJob(i) in w2.jobs)
            && NoneDeleting(w2)
  {
    var w2 := CreateMissing(w1, os);
    CreatesAll(w1, os);
    forall i | i in os
      ensures !OnlyFailed(w2, i)
      ensures Succeeded(w2, SupJob(i)) <==> SupJob(i) in w.jobs
    {
      assert GoodJob(w, SupJob(i));
    }
    NoneFailed(w2, os);
    AllCounted(w2, os);
    forall name
      ensures NotDeleting(w2, name)
    {
      assert GoodJob(w, name);
    }
  }

  lemma DropsNoneDeleting(w: World, os: seq<nat>)
    requires NoneDeleting(w)
    ensures NoneDeleting(DropAll(w, os))
  {
    DropAllKeeps(w, os);
    forall name
      ensures NotDeleting(DropAll(w, os), name)
    {
      assert NotDeleting(w, name);
    }
  }

  // What the secondaries handler needs of a settled cluster.
  ghost predicate Convertible(w: World, nodes: nat) {
    && nodes == w.status.volumes && nodes != 1
    && LeaderKnown(w)
    && w.config.initialize.Some? && w.config.checkpoint.Some?
    && forall name :: GoodJob(w, name)
  }

  lemma RoundByCounts(w: World, nodes: nat, w2: World, os: seq<nat>)
    requires Convertible(w, nodes) && os == Others(nodes, Target(w))
    requires w2 == CreateMissing(Apply(w, NewStreamer(Target(w))), os)
    requires CountFailed(w2, os) == 0 && RetireFailed(w2, os) == w2
    ensures SecondariesRound(w) ==
        if CountSucceeded(w2, os) == |os| then Verdict(DropAll(Apply(w2, DropStreamer), os), true, false)
                                   else Verdict(w2, false, false)
  {
  }

  // With a job for every replica, all of them have succeeded: the round ends by deleting everything.
  lemma CompleteRound(w: World, nodes: nat, w2: World, os: seq<nat>)
    requires Convertible(w, nodes) && AllPresent(w)
    requires os == Others(nodes, Target(w)) && w2 == CreateMissing(Apply(w, NewStreamer(Target(w))), os)
    ensures SecondariesRound(w) == Verdict(DropAll(Apply(w2, DropStreamer), os), true, false)
    ensures NoneDeleting(w2) && w2 == w.(streamer := w2.streamer, jobs := w2.jobs, finished := w2.finished)
  {
    var w1 := Apply(w, NewStreamer(Target(w)));
    CountsAfterCreating(w, w1, os);
    RoundByCounts(w, nodes, w2, os);
    assert forall i: nat :: i in os ==> SupJob(i) in w.jobs;
  }

  lemma SecondariesComplete(w: World, nodes: nat)
    requires Convertible(w, nodes) && AllPresent(w)
    ensures Advances(w, SecondariesRound(w), Secondaries, nodes)
  {
    var os := Others(nodes, Target(w));
    var w2 := CreateMissing(Apply(w, NewStreamer(Target(w))), os);
    CompleteRound(w, nodes, w2, os);
    CallKeepsNoneDeleting(w2, DropStreamer);
    DropsNoneDeleting(Apply(w2, DropStreamer), os);
  }

  // Otherwise the round creates the missing ones.
  lemma SecondariesCreate(w: World, nodes: nat)
    requires Convertible(w, nodes) && !AllPresent(w)
    ensures Advances(w, SecondariesRound(w), Secondaries, nodes)
  {
    var w1 := Apply(w, NewStreamer(Target(w)));
    var os := Others(nodes, Target(w));
    CountsAfterCreating(w, w1, os);
    var w2 := CreateMissing(w1, os);
    RoundByCounts(w, nodes, w2, os);
    assert AllPresent(w2);
    var i: nat :| i < nodes && i != Target(w) && SupJob(i) !in w.jobs;
    assert i in os;
  }

  lemma SecondariesAdvances(w: World, nodes: nat)
    requires Settled(w, nodes) && InStage(w, Secondaries)
    ensures Advances(w, SecondariesRound(w), Secondaries, nodes)
  {
    if nodes == 1 {
      SettledNoneDeleting(w, nodes);
    } else if AllPresent(w) {
      SecondariesComplete(w, nodes);
    } else {
      SecondariesCreate(w, nodes);
    }
  }

  lemma StageAdvances(w: World, k: Stage, nodes: nat)
    requires Settled(w, nodes) && InStage(w, k)
    ensures Advances(w, StageRound(w, k, nodes), k, nodes)
  {
    SettledNoneDeleting(w, nodes);
    assert GoodJob(w, SyncJob) && GoodJob(w, UpJob) && GoodJob(w, PostJob);
    match k
    case Preupgrade => PreupgradeAdvances(w, nodes);
    case PreScaledown => ScaledownAdvances(w, k, nodes);
    case Sync => SyncAdvances(w, nodes);
    case Scaledown => ScaledownAdvances(w, k, nodes);
    case Primary => PrimaryAdvances(w, nodes);
    case Secondaries => SecondariesAdvances(w, nodes);
    case PrimaryMove => MoveAdvances(w, nodes);
    case Postupgrade => PostupgradeAdvances(w, nodes);
  }

  predicate AtGoal(w: World, goal: int) {
    w.status.state == Ready && w.status.upgradeVersion == 0 && w.status.version == goal
  }

  // The status write that ends a completed stage.
  function Finish(w: World, k: Stage): World {
    var w1 := if k == Postupgrade then Apply(w, ClearAnnotations) else w;
    Apply(w1, Persist(Advance(w.status, k)))
  }

  lemma FinishAdvances(w: World, w1: World, k: Stage, nodes: nat)
    requires Inv(w) && InStage(w, k) && NoneDeleting(w1) && w1.status == w.status && w1.pods == w.pods
    requires k == Primary || k == Secondaries ==> w1.sts == w.sts
    ensures var w' := Finish(w1, k);
            && NoneDeleting(w')
            && (InStage(w', Secondaries) ==> Quiet(w'))
            && (AtGoal(w', w.status.upgradeVersion)
                || (w'.status.upgradeVersion == w.status.upgradeVersion && Rank(w', nodes) < StagesAfter(k)))
  {
    var w2 := if k == Postupgrade then Apply(w1, ClearAnnotations) else w1;
    CallKeepsNoneDeleting(w1, ClearAnnotations);
    CallKeepsNoneDeleting(w2, Persist(Advance(w1.status, k)));
  }

  // What a round that begins in w has to bring about in w'.
  ghost predicate Nearer(w: World, w': World, nodes: nat) {
    && NoneDeleting(w')
    && (InStage(w', Secondaries) ==> Quiet(w'))
    && (AtGoal(w', w.status.upgradeVersion)
        || (w'.status.upgradeVersion == w.status.upgradeVersion && Rank(w', nodes) < Rank(w, nodes)))
  }

  lemma HandleAdvances(w: World, nodes: nat)
    requires Settled(w, nodes) && w.status.upgradeVersion != 0
    ensures var (w', err) := HandleRound(w, nodes);
            !err && Nearer(w, w', nodes)
  {
    if w.status.state.Upgrading? {
      var k := w.status.state.stage;
      StageAdvances(w, k, nodes);
      var v := StageRound(w, k, nodes);
      FinishAdvances(w, v.w, k, nodes);
      assert v.done ==> HandleRound(w, nodes).0 == Finish(v.w, k);
    } else {
      SettledNoneDeleting(w, nodes);
      CallKeepsNoneDeleting(w, Persist(w.status.(state := Upgrading(Preupgrade))));
    }
  }

  lemma SettledOnceRead(w: World, nodes: nat)
    requires Settled(w, nodes)
    ensures Settled(Apply(w, Fetch), nodes) && Rank(Apply(w, Fetch), nodes) == Rank(w, nodes)
  {
    CallKeepsInv(w, Fetch);
    forall name
      ensures EndedJob(Apply(w, Fetch), name) && GoodJob(Apply(w, Fetch), name)
    {
      assert GoodJob(w, name);
    }
    assert AllPresent(Apply(w, Fetch)) <==> AllPresent(w);
  }

  /** One undisturbed reconcile of a settled cluster under upgrade brings the end nearer. */
  lemma RoundAdvances(w: World, nodes: nat)
    requires Settled(w, nodes) && w.status.upgradeVersion != 0
    ensures var (w', err) := ReconcileRound(w);
            !err && Nearer(w, w', nodes)
  {
    SettledOnceRead(w, nodes);
    HandleAdvances(Apply(w, Fetch), nodes);
  }

  // ----- without an upgrade

  // Reconcile has nothing to upgrade: it brings claims, StatefulSet and status in line with the spec.
  predicate Ordinary(w: World) {
    w.status.upgradeVersion == 0 && (w.status.state == Ready ==> w.status.version == w.spec.version)
  }

  /** Reconcile is level-triggered: an ordinary one that succeeds leaves exactly the claims and replicas the spec
      asks for, and, unless the status it wrote calls for an upgrade, a second one changes nothing. */
  lemma ReconcileIsIdempotent(w: World)
    requires Inv(w) && Ordinary(w) && !w.spec.ignore && !ReconcileRound(w).1
    ensures var w' := ReconcileRound(w).0;
            && (forall i: nat :: i in w'.vols <==> i < w.spec.nodes)
            && (forall i: nat :: i in w'.vols ==> w'.vols[i] == Vol(w, i))
            && Replicas(w') == w.spec.nodes == w'.status.volumes
            && (w'.status.state == Ready <==> w.ready == w.spec.nodes)
            && (Ordinary(w') ==> ReconcileRound(w') == (w', false))
  {
    var v := if w.status.state == Fresh then w.spec.version else w.status.version;
    var w0 := Apply(w, Fetch);
    var w1 := if w.status.state == Fresh then Apply(w0, Persist(Status(Scaling, v, 0, [], 0))) else w0;
    var img := Lookup(w.table, v).value;
    assert ReconcileRound(w) == OrdinaryRound(w1, img);
    OrdinaryTwice(w1, img);
    assert Apply(ReconcileRound(w).0, Fetch) == ReconcileRound(w).0.(told := None);
  }

  lemma OrdinaryTwice(w: World, img: Image)
    ensures var w' := OrdinaryRound(w, img).0;
            && w'.vols == ClaimsRound(w, w.spec.nodes).vols
            && OrdinaryRound(w'.(told := None), img).0 == w'
  {
    var w1 := ClaimsRound(w, w.spec.nodes);
    assert ClaimsRound(w1, w.spec.nodes).vols == w1.vols;
    assert ClaimsRound(w1, w.spec.nodes).pods == w1.pods;
  }
}
