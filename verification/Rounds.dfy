/** What one reconcile does when nothing fails and nothing else happens meanwhile:
    the specification the handlers are proved against. */
module Rounds {
  import opened Scripts
  import opened World
  import opened Images
  import opened Initdb

  // The cluster when a stage's handler returns, and what it returns.
  datatype Verdict = Verdict(w: World, done: bool, err: bool)

  predicate Failed(w: World, name: JobName) {
    name in w.jobs && w.jobs[name].failed
  }

  // A finished or failed job is deleted.
  function Cleanup(w: World, name: JobName): World {
    if Succeeded(w, name) || Failed(w, name) then Apply(w, DropJob(name)) else w
  }

  // GetSyncLeader succeeds, and VolumeStatuses has that index.
  predicate LeaderKnown(w: World) {
    (w.status.volumes > 1 ==> w.leader.Some?) && Target(w) < w.status.volumes
  }

  function PreupgradeRound(w: World): Verdict {
    var w1 := Apply(w, NewJob(PreJob, Helper));
    if Succeeded(w1, PreJob) then
      var out := w1.jobs[PreJob].pod.output;
      if !out.Settings? then Verdict(w1, false, true)
      else
        var refused := out.config.maxPreparedTransactions != 0;
        var w2 := if refused then w1 else Apply(w1, PutInitdbArgs(InitdbArgs(out.config)));
        Verdict(Cleanup(w2, PreJob), !refused, refused || Failed(w1, PreJob))
    else
      Verdict(Cleanup(w1, PreJob), false, Failed(w1, PreJob))
  }

  function ScaledownRound(w: World): Verdict {
    if w.sts.None? then Verdict(w, false, true)
    else
      var w1 := Apply(w, PutSts(w.sts.value.(replicas := 0)));
      Verdict(w1, w1.pods == map[], false)
  }

  function SyncRound(w: World, nodes: nat): Verdict {
    if w.status.volumes == 1 then Verdict(w, true, false)
    else
      var w1 := Apply(w, PutSts(Sts(nodes, w.status.version)));
      var w2 := Apply(w1, NewJob(SyncJob, Helper));
      Verdict(Cleanup(w2, SyncJob), Succeeded(w2, SyncJob), Failed(w2, SyncJob))
  }

  function PrimaryRound(w: World): Verdict {
    if UpJob !in w.jobs then
      if !LeaderKnown(w) || w.config.initialize.None? then Verdict(w, false, true)
      else
        var args := if w.config.initdbArgs.Some? then w.config.initdbArgs.value else "";
        var t := Upgrade(Target(w), w.config.initialize.value, w.status.version, w.status.upgradeVersion, args);
        Verdict(Apply(w, NewJob(UpJob, t)), false, false)
    else if Succeeded(w, UpJob) then
      var out := w.jobs[UpJob].pod.output;
      if !out.Upgraded? then Verdict(w, false, true)
      else
        var w1 := if out.oldCheckpoint != "" then Apply(w, PutCheckpoint(out.oldCheckpoint)) else w;
        if w1.config.settings.None? then Verdict(w1, false, true)
        else Verdict(Apply(Apply(w1, PutDbId(out.newSysId)), DropJob(UpJob)), true, Failed(w, UpJob))
    else
      Verdict(Cleanup(w, UpJob), false, Failed(w, UpJob))
  }

  function ConvertTask(w: World, i: nat): Task
    requires w.config.checkpoint.Some? && w.config.initialize.Some?
  {
    Convert(i, w.config.checkpoint.value, w.status.version, w.status.upgradeVersion, w.config.initialize.value)
  }

  // The volumes below n other than the leader's, in order.
  function Others(n: nat, leader: nat): (os: seq<nat>)
    ensures forall i :: i in os <==> 0 <= i < n && i != leader
  {
    if n == 0 then []
    else if n - 1 == leader then Others(n - 1, leader)
    else Others(n - 1, leader) + [n - 1]
  }

  // The loop of upgradeSecondariesEnsureseclients: one job for each volume of os
  function CreateMissing(w: World, os: seq<nat>): (r: World)
    requires w.config.checkpoint.Some? && w.config.initialize.Some?
    ensures r == w.(jobs := r.jobs, finished := r.finished)
  {
    if os == [] then w
    else
      var i := os[|os| - 1];
      Apply(CreateMissing(w, os[..|os| - 1]), NewJob(SupJob(i), ConvertTask(w, i)))
  }

  predicate OnlyFailed(w: World, i: nat) {
    !Succeeded(w, SupJob(i)) && Failed(w, SupJob(i))
  }

  // The counting loop: jobs that failed and did not succeed are deleted in the foreground.
  function RetireFailed(w: World, os: seq<nat>): (r: World)
    ensures r == w.(jobs := r.jobs)
  {
    if os == [] then w
    else
      var i := os[|os| - 1];
      var r := RetireFailed(w, os[..|os| - 1]);
      if OnlyFailed(w, i) then Apply(r, RetireJob(SupJob(i))) else r
  }

  function CountSucceeded(w: World, os: seq<nat>): nat {
    if os == [] then 0
    else CountSucceeded(w, os[..|os| - 1]) + if Succeeded(w, SupJob(os[|os| - 1])) then 1 else 0
  }

  function CountFailed(w: World, os: seq<nat>): nat {
    if os == [] then 0
    else CountFailed(w, os[..|os| - 1]) + if OnlyFailed(w, os[|os| - 1]) then 1 else 0
  }

  function DropAll(w: World, os: seq<nat>): (r: World)
    ensures r == w.(jobs := r.jobs)
  {
    if os == [] then w
    else Apply(DropAll(w, os[..|os| - 1]), DropJob(SupJob(os[|os| - 1])))
  }

  function SecondariesRound(w: World): Verdict {
    if w.status.volumes == 1 then Verdict(w, true, false)
    else if w.status.volumes > 1 && w.leader.None? then Verdict(w, false, true)
    else if w.streamer.None? && Target(w) >= w.status.volumes then Verdict(w, false, true)
    else
      var w1 := Apply(w, NewStreamer(Target(w)));
      if w1.config.checkpoint.None? || w1.config.initialize.None? then Verdict(w1, false, true)
      else
        var os := Others(w.status.volumes, Target(w));
        var w2 := CreateMissing(w1, os);
        var w3 := RetireFailed(w2, os);
        if CountFailed(w2, os) > 0 then Verdict(w3, false, true)
        else if CountSucceeded(w2, os) == |os| then Verdict(DropAll(Apply(w3, DropStreamer), os), true, false)
        else Verdict(w3, false, false)
  }

  function MoveRound(w: World): Verdict {
    if MoveJob !in w.jobs then
      if !LeaderKnown(w) then Verdict(w, false, true)
      else Verdict(Apply(w, NewJob(MoveJob, Move(Target(w)))), false, false)
    else
      Verdict(Cleanup(w, MoveJob), Succeeded(w, MoveJob), Failed(w, MoveJob))
  }

  function PostupgradeRound(w: World, nodes: nat): Verdict {
    var w1 := Apply(w, PutSts(Sts(nodes, w.status.version)));
    if w1.ready != nodes then Verdict(w1, false, false)
    else
      var w2 := Apply(w1, NewJob(PostJob, Helper));
      Verdict(Cleanup(w2, PostJob), Succeeded(w2, PostJob), Failed(w2, PostJob))
  }

  function StageRound(w: World, k: Stage, nodes: nat): Verdict {
    match k
    case Preupgrade => PreupgradeRound(w)
    case PreScaledown => ScaledownRound(w)
    case Sync => SyncRound(w, nodes)
    case Scaledown => ScaledownRound(w)
    case Primary => PrimaryRound(w)
    case Secondaries => SecondariesRound(w)
    case PrimaryMove => MoveRound(w)
    case Postupgrade => PostupgradeRound(w, nodes)
  }

  // One reconcile of a cluster with an upgrade admitted: the cluster afterwards, and whether it failed.
  function HandleRound(w: World, nodes: nat): (World, bool) {
    match w.status.state
    case Upgrading(k) =>
      var v := StageRound(w, k, nodes);
      if v.err then (v.w, true)
      else if !v.done then (v.w, false)
      else if k == Postupgrade then
        (Apply(Apply(v.w, ClearAnnotations), Persist(Advance(v.w.status, k))), false)
      else
        (Apply(v.w, Persist(Advance(v.w.status, k))), false)
    case _ => (Apply(w, Persist(w.status.(state := Upgrading(Preupgrade)))), false)
  }

  // ----- without an upgrade

  // pvc.Reconcile: exactly the first n claims, none of them replaced; a pod without its claim does not run.
  function ClaimsRound(w: World, n: nat): World {
    w.(vols := map i: nat | i < n :: Vol(w, i),
       pods := map i | i in w.pods && (i < n || i !in w.vols) :: w.pods[i])
  }

  function OrdinaryRound(w: World, img: Image): (World, bool) {
    var n := w.spec.nodes;
    var w1 := Apply(ClaimsRound(w, n), PutSts(Sts(n, w.status.version)));
    var s := w.status.(volumes := n);
    (Apply(w1, Persist(if w.ready == n then s.(state := Ready, upgradeVersions := Above(img.versions, s.version))
                       else s.(state := Scaling))), false)
  }

  // A cluster at one version that is asked for another.
  function AdmissionRound(w: World): (World, bool) {
    if w.spec.version in w.status.upgradeVersions && (w.status.volumes > 1 ==> w.leader.Some?) then
      (Apply(w, Persist(w.status.(upgradeVersion := w.spec.version))), false)
    else
      (w, true)
  }

  function BodyRound(w: World, img: Image): (World, bool) {
    if w.status.upgradeVersion != 0 then HandleRound(w, w.spec.nodes)
    else if w.status.state == Ready && w.status.version != w.spec.version then AdmissionRound(w)
    else OrdinaryRound(w, img)
  }

  // No call of the operator edits the spec, and only reading it anew changes the spec in memory.
  lemma BodyKeepsSpec(w: World, img: Image)
    ensures BodyRound(w, img).0.spec == w.spec && BodyRound(w, img).0.seen == w.seen
  {
    if w.status.upgradeVersion != 0 && w.status.state.Upgrading? {
      StageKeepsSpec(w, w.status.state.stage, w.spec.nodes);
    }
  }

  lemma StageKeepsSpec(w: World, k: Stage, nodes: nat)
    ensures StageRound(w, k, nodes).w.spec == w.spec && StageRound(w, k, nodes).w.seen == w.seen
  {
    match k
    case Preupgrade => PreupgradeKeepsSpec(w);
    case Primary => PrimaryKeepsSpec(w);
    case Secondaries => SecondariesKeepsSpec(w);
    case _ =>
  }

  lemma PreupgradeKeepsSpec(w: World)
    ensures PreupgradeRound(w).w.spec == w.spec && PreupgradeRound(w).w.seen == w.seen
  {
  }

  lemma PrimaryKeepsSpec(w: World)
    ensures PrimaryRound(w).w.spec == w.spec && PrimaryRound(w).w.seen == w.seen
  {
  }

  lemma SecondariesKeepsSpec(w: World)
    ensures SecondariesRound(w).w.spec == w.spec && SecondariesRound(w).w.seen == w.seen
  {
  }

  // One reconcile: the cluster afterwards, and whether it failed.
  function ReconcileRound(w: World): (World, bool) {
    var w0 := Apply(w, Fetch);
    if w.spec.ignore then (w0, false)
    else
      var w1 := if w.status.state == Fresh && Lookup(w.table, w.spec.version).Some? then
                  Apply(w0, Persist(Status(Scaling, w.spec.version, 0, [], 0)))
                else w0;
      if w1.status.state == Fresh || Lookup(w1.table, w1.status.version).None? then (w1, true)
      else BodyRound(w1, Lookup(w1.table, w1.status.version).value)
  }
}
