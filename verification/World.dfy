/** The cluster the operator works on: the persisted status, the objects in the
    API server, the running pods and the data volumes, with everything that can
    happen to them.

    An event is either one API call of the operator taking effect or one step of
    the environment. A crash of the operator is the absence of further calls. */
module World {
  import opened Base
  import opened Volumes
  import opened Scripts
  import opened Images
  import opened Initdb

  datatype Stage = Preupgrade | PreScaledown | Sync | Scaledown | Primary | Secondaries | PrimaryMove | Postupgrade

  // "" | "scaling" | "ready" | "upgrade-..."
  datatype State = Fresh | Scaling | Ready | Upgrading(stage: Stage)

  datatype Spec = Spec(ignore: bool, version: int, nodes: nat)

  datatype Status = Status(
    state: State,
    version: int,
    upgradeVersion: int,         // 0: no upgrade admitted
    upgradeVersions: seq<int>,
    volumes: nat)                // len(VolumeStatuses)

  // The annotations of the config map Patroni and the operator share.
  datatype Config = Config(
    initialize: Option<string>,             // database system identifier
    settings: Option<map<string, string>>,  // the parsed `config` annotation
    initdbArgs: Option<string>,
    checkpoint: Option<string>)

  const PAUSE: string := "pause"

  datatype Sts = Sts(replicas: nat, template: int)

  datatype JobName = PreJob | SyncJob | UpJob | SupJob(i: nat) | MoveJob | PostJob

  // Succeeded > 0 is pod.Finished?, Failed > 0 is failed; deleting: foreground deletion has begun.
  datatype Job = Job(task: Task, pod: Pod, failed: bool, deleting: bool)

  datatype World = World(
    table: seq<Image>,
    spec: Spec,
    seen: Spec,                        // history: the spec the current reconcile has read
    told: Option<nat>,                 // history: the ready replicas it was told of when it asked for replicas
    status: Status,
    config: Config,
    leader: Option<nat>,               // the sync-leader annotation
    sts: Option<Sts>,
    ready: nat,                        // ReadyReplicas in the StatefulSet's status
    pods: map<nat, int>,               // running database pods and their PG_VERSION
    streamer: Option<nat>,             // the volume the rsync daemon serves
    jobs: map<JobName, Job>,
    finished: map<JobName, Output>,    // history: jobs of this stage that have succeeded, until created anew
    vols: map<nat, Volume>)            // existing claims

  const NO_CONFIG: Config := Config(None, None, None, None)

  function Initial(table: seq<Image>, spec: Spec): World {
    World(table, spec, spec, None, Status(Fresh, 0, 0, [], 0), NO_CONFIG, None, None, 0, map[], None, map[], map[],
          map[])
  }

  function Vol(w: World, i: nat): Volume {
    if i in w.vols then w.vols[i] else EMPTY
  }

  function Replicas(w: World): nat {
    if w.sts.Some? then w.sts.value.replicas else 0
  }

  // The volume the operator takes for the leader's: GetSyncLeader.
  function Target(w: World): nat {
    if w.status.volumes > 1 && w.leader.Some? then w.leader.value else 0
  }

  function StageOf(name: JobName): Stage {
    match name
    case PreJob => Preupgrade
    case SyncJob => Sync
    case UpJob => Primary
    case SupJob(_) => Secondaries
    case MoveJob => PrimaryMove
    case PostJob => Postupgrade
  }

  predicate InStage(w: World, k: Stage) {
    w.status.state == Upgrading(k)
  }

  predicate Succeeded(w: World, name: JobName) {
    name in w.jobs && w.jobs[name].pod.Finished?
  }

  // ----- environment

  datatype Action =
    | EditSpec(spec: Spec)
    | Report(ready: nat)
    | StartPod(i: nat)
    | StopPod(i: nat)
    | Bootstrap(i: nat, chance: Chance)       // Patroni initializes an empty cluster
    | Elect(i: nat)                           // Patroni moves the leader to a pod with the data
    | Clone(i: nat, whole: bool, chance: Chance)
    | Write(i: nat, chance: Chance)           // checkpoints and configuration files advance
    | SetSettings(settings: map<string, string>)
    | StartJob(name: JobName)
    | RunJob(name: JobName, chance: Chance)   // one command of the job's script
    | KillJob(name: JobName, chance: Chance)
    | FailJob(name: JobName, chance: Chance)  // a pod was lost or the deadline passed
    | FinishHelper(name: JobName, output: Output)
    | CollectJob(name: JobName)               // a foreground deletion completes

  function SetVol(w: World, i: nat, x: Volume): World {
    w.(vols := w.vols[i := x])
  }

  function SetJob(w: World, name: JobName, job: Job): World {
    w.(jobs := w.jobs[name := job])
  }

  // The volume the rsync daemon serves, if it runs.
  function Served(w: World): Option<Volume> {
    match w.streamer
    case None => None
    case Some(i) => Some(Vol(w, i))
  }

  // A job whose script can take a step: its pod runs and its claim exists.
  predicate Active(w: World, name: JobName) {
    && name in w.jobs
    && !w.jobs[name].task.Helper?
    && w.jobs[name].pod.At?
    && w.jobs[name].task.vol in w.vols
  }

  // Patroni's half: StartPod to SetSettings.
  function PatroniStep(w: World, a: Action): World {
    match a
    case StartPod(i) =>
      if i < Replicas(w) && i !in w.pods then
        w.(pods := w.pods[i := w.sts.value.template], vols := w.vols[i := Vol(w, i)])
      else w
    case StopPod(i) => w.(pods := w.pods - {i})
    case Bootstrap(i, c) =>
      if i in w.pods && w.config.initialize.None? && Vol(w, i).data.Absent? then
        SetVol(w, i, Vol(w, i).(data := Present(Some(w.pods[i]), Some(Control(c.id, c.checkpoint)), None, true,
            c.conf)))
        .(leader := Some(i), config := w.config.(initialize := Some(c.id)))
      else w
    case Elect(i) =>
      if i in w.pods && w.config.initialize.Some?
          && IsDatabase(Vol(w, i).data, w.pods[i], w.config.initialize.value) then
        w.(leader := Some(i))
      else w
    case Clone(i, whole, c) =>
      if i in w.pods && w.leader.Some? && w.leader.value != i && w.leader.value in w.pods then
        var d := Vol(w, w.leader.value).data;
        SetVol(w, i, Vol(w, i).(data := if whole && d.Present? then d.(conf := c.conf) else Fragment(d, c)))
      else w
    case Write(i, c) =>
      var d := Vol(w, i).data;
      if i in w.pods && d.Present? && d.control.Some? then
        SetVol(w, i, Vol(w, i).(data := d.(control := Some(d.control.value.(checkpoint := c.checkpoint)),
            conf := c.conf)))
      else w
    case SetSettings(s) =>
      if w.pods != map[] then w.(config := w.config.(settings := Some(s))) else w
    case _ => w
  }

  // The effect r of a command of job `name` on the cluster.
  function Land(w: World, name: JobName, r: Effect): World
    requires Active(w, name)
  {
    var w' := SetVol(SetJob(w, name, w.jobs[name].(pod := r.pod)), w.jobs[name].task.vol, r.vol);
    if r.pod.Finished? then w'.(finished := w.finished[name := r.pod.output]) else w'
  }

  // The job controller's half: StartJob to CollectJob.
  function JobStep(w: World, a: Action): World {
    match a
    case StartJob(name) =>
      if name in w.jobs && !w.jobs[name].task.Helper? && w.jobs[name].pod.Idle? && !w.jobs[name].deleting then
        SetJob(w, name, w.jobs[name].(pod := At(Entry(w.jobs[name].task))))
      else w
    case RunJob(name, c) =>
      if Active(w, name) && !w.jobs[name].deleting then
        var t := w.jobs[name].task;
        Land(w, name, Run(w.vols[t.vol], w.jobs[name].pod.pc, t, Served(w), c))
      else w
    case KillJob(name, c) =>
      if Active(w, name) then
        var t := w.jobs[name].task;
        SetVol(SetJob(w, name, w.jobs[name].(pod := Idle)), t.vol,
               Interrupt(w.vols[t.vol], w.jobs[name].pod.pc, t, Served(w), c))
      else w
    case FailJob(name, c) =>
      if name !in w.jobs then w
      else if Active(w, name) then
        var t := w.jobs[name].task;
        SetVol(SetJob(w, name, w.jobs[name].(pod := Idle, failed := true)), t.vol,
               Interrupt(w.vols[t.vol], w.jobs[name].pod.pc, t, Served(w), c))
      else SetJob(w, name, w.jobs[name].(failed := true))
    case FinishHelper(name, out) =>
      if name in w.jobs && w.jobs[name].task.Helper? && !w.jobs[name].pod.Finished? then
        SetJob(w, name, w.jobs[name].(pod := Finished(out))).(finished := w.finished[name := out])
      else w
    case CollectJob(name) =>
      if name in w.jobs && w.jobs[name].deleting then
        w.(jobs := w.jobs - {name})
      else w
    case _ => w
  }

  // One environment step; an action whose conditions do not hold does nothing.
  function EnvStep(w: World, a: Action): World {
    match a
    case EditSpec(s) => if s.nodes >= 1 then w.(spec := s) else w
    case Report(n) => w.(ready := n)
    case StartJob(_) => JobStep(w, a)
    case RunJob(_, _) => JobStep(w, a)
    case KillJob(_, _) => JobStep(w, a)
    case FailJob(_, _) => JobStep(w, a)
    case FinishHelper(_, _) => JobStep(w, a)
    case CollectJob(_) => JobStep(w, a)
    case _ => PatroniStep(w, a)
  }

  // ----- API calls of the operator

  datatype Call =
    | Fetch                             // reads the instance
    | Persist(next: Status)
    | PutInitdbArgs(args: string)
    | PutCheckpoint(checkpoint: string)
    | PutDbId(id: string)               // also resumes Patroni
    | ClearAnnotations
    | NewJob(name: JobName, task: Task)
    | DropJob(name: JobName)            // background deletion
    | RetireJob(name: JobName)          // foreground deletion
    | PutSts(sts: Sts)
    | NewStreamer(vol: nat)
    | DropStreamer
    | NewClaim(i: nat)
    | DropClaim(i: nat)
    | Other                             // objects with no bearing on an upgrade

  function Apply(w: World, c: Call): World {
    match c
    case Fetch => w.(seen := w.spec, told := None)
    case Persist(s) => w.(status := s, finished := if s.state == w.status.state then w.finished else map[])
    case PutInitdbArgs(args) => w.(config := w.config.(initdbArgs := Some(args)))
    case PutCheckpoint(k) => w.(config := w.config.(checkpoint := Some(k)))
    case PutDbId(id) =>
      if w.config.settings.Some? then
        w.(config := w.config.(initialize := Some(id), settings := Some(w.config.settings.value - {PAUSE})))
      else w
    case ClearAnnotations => w.(config := w.config.(initdbArgs := None, checkpoint := None))
    case NewJob(name, t) =>
      if name in w.jobs then w
      else w.(jobs := w.jobs[name := Job(t, Idle, false, false)], finished := w.finished - {name})
    case DropJob(name) => w.(jobs := w.jobs - {name})
    case RetireJob(name) =>
      if name in w.jobs then
        SetJob(w, name, w.jobs[name].(deleting := true))
      else w
    case PutSts(s) => w.(sts := Some(s), told := Some(w.ready))
    case NewStreamer(i) => if w.streamer.None? then w.(streamer := Some(i)) else w
    case DropStreamer => w.(streamer := None)
    case NewClaim(i) => if i in w.vols then w else SetVol(w, i, EMPTY)
    case DropClaim(i) => w.(vols := w.vols - {i}, pods := w.pods - {i})
    case Other => w
  }

  // ----- the order of calls the operator keeps to

  // Stage k has been completed, as far as the operator can observe.
  ghost predicate Done(w: World, k: Stage) {
    match k
    case Preupgrade => PreJob !in w.jobs && FitToUpgrade(w) && w.config.initdbArgs == Some(ReportedArgs(w))
    case PreScaledown => w.sts.Some? && Replicas(w) == 0 && w.pods == map[]
    case Sync => w.status.volumes == 1 || (SyncJob in w.finished && SyncJob !in w.jobs)
    case Scaledown => w.sts.Some? && Replicas(w) == 0 && w.pods == map[]
    case Primary =>
      && UpJob in w.finished && UpJob !in w.jobs
      && Recorded(w)
      && w.config.settings.Some? && PAUSE !in w.config.settings.value
    case Secondaries =>
      || w.status.volumes == 1
      || (w.streamer.None? && AllConverted(w) && forall i {:trigger SupJob(i)} :: SupJob(i) !in w.jobs)
    case PrimaryMove => MoveJob in w.finished && MoveJob !in w.jobs
    case Postupgrade =>
      && PostJob in w.finished && PostJob !in w.jobs
      && w.config.initdbArgs.None? && w.config.checkpoint.None?
  }

  // What primary-upgrade printed is in the annotations.
  predicate Recorded(w: World) {
    && UpJob in w.finished && w.finished[UpJob].Upgraded?
    && w.config.initialize == Some(w.finished[UpJob].newSysId)
    && (w.finished[UpJob].oldCheckpoint != "" ==> w.config.checkpoint == Some(w.finished[UpJob].oldCheckpoint))
  }

  // The preupgrade job has found a database that can be upgraded.
  predicate FitToUpgrade(w: World) {
    PreJob in w.finished && w.finished[PreJob].Settings? && w.finished[PreJob].config.maxPreparedTransactions == 0
  }

  // The arguments for initdb that make a database with the settings the preupgrade job has found.
  function ReportedArgs(w: World): string
    requires FitToUpgrade(w)
  {
    InitdbArgs(w.finished[PreJob].config)
  }

  ghost predicate AllConverted(w: World) {
    forall i {:trigger SupJob(i)} :: 0 <= i < w.status.volumes && i != Target(w) ==> SupJob(i) in w.finished
  }

  function Follow(k: Stage): Stage
    requires !k.Postupgrade?
  {
    match k
    case Preupgrade => PreScaledown
    case PreScaledown => Sync
    case Sync => Scaledown
    case Scaledown => Primary
    case Primary => Secondaries
    case Secondaries => PrimaryMove
    case PrimaryMove => Postupgrade
  }

  function Advance(s: Status, k: Stage): Status {
    match k
    case Postupgrade => s.(state := Ready, upgradeVersion := 0)
    case PrimaryMove => s.(state := Upgrading(Postupgrade), version := s.upgradeVersion)
    case _ => s.(state := Upgrading(Follow(k)))
  }

  // The statuses the operator may write over the persisted one.
  ghost predicate MayPersist(w: World, s: Status) {
    || s == w.status
    || match w.status.state
       case Fresh => Lookup(w.table, w.seen.version).Some? && s == Status(Scaling, w.seen.version, 0, [], 0)
       case Upgrading(k) => Done(w, k) && s == Advance(w.status, k)
       case _ =>
         if w.status.upgradeVersion != 0 then
           s == w.status.(state := Upgrading(Preupgrade))
         else
           || (Serving(w) && MayRefresh(w, s))
           || MayAdmit(w, s)
  }

  // The cluster is at the version it is asked for, or on its way there, and no upgrade is under way.
  predicate Serving(w: World) {
    && !w.status.state.Fresh? && w.status.upgradeVersion == 0
    && (w.status.state == Ready ==> w.status.version == w.seen.version)
  }

  // An ordinary reconcile: with the claims just listed, ready exactly if all replicas asked for were.
  predicate MayRefresh(w: World, s: Status) {
    && s.version == w.status.version && s.upgradeVersion == 0 && s.volumes == w.seen.nodes
    && (s.state == Scaling || s.state == Ready)
    && w.told.Some? && (s.state == Ready <==> w.told == Some(w.seen.nodes))
    && s.upgradeVersions == if s.state == Ready then Offered(w.table, s.version) else w.status.upgradeVersions
  }

  predicate MayAdmit(w: World, s: Status) {
    && w.status.state == Ready
    && s == w.status.(upgradeVersion := s.upgradeVersion)
    && s.upgradeVersion == w.seen.version
    && s.upgradeVersion != w.status.version
    && s.upgradeVersion in w.status.upgradeVersions
    && (w.status.volumes > 1 ==> w.leader.Some?)
  }

  predicate MayCreate(w: World, name: JobName, t: Task) {
    && InStage(w, StageOf(name))
    && name !in w.jobs
    && match name
       case UpJob =>
         && t.Upgrade? && t.vol == Target(w) && t.before == w.status.version && t.after == w.status.upgradeVersion
         && w.config.initialize == Some(t.id) && w.config.initdbArgs == Some(t.initdbArgs)
       case SupJob(i) =>
         && w.streamer == Some(Target(w))
         && t.Convert? && t.vol == i && i < w.status.volumes && i != Target(w)
         && t.before == w.status.version && t.after == w.status.upgradeVersion
         && w.config.initialize == Some(t.id) && w.config.checkpoint == Some(t.checkpoint)
       case MoveJob => t == Move(Target(w))
       case SyncJob => t == Helper && w.status.volumes != 1 && ScaledUp(w)
       case PostJob => t == Helper && ScaledUp(w) && w.told == Some(w.seen.nodes)
       case _ => t == Helper
  }

  // The replicas of the spec have been asked for, at the version of the status.
  predicate ScaledUp(w: World) {
    w.sts == Some(Sts(w.seen.nodes, w.status.version))
  }

  // A job that has come to an end, one way or the other.
  predicate Ended(w: World, name: JobName)
    requires name in w.jobs
  {
    w.jobs[name].pod.Finished? || w.jobs[name].failed
  }

  // The scales the operator asks for at each point.
  predicate MayScale(w: World, s: Sts) {
    match w.status.state
    case Fresh => false
    case Upgrading(PreScaledown) => s.replicas == 0 && w.sts == Some(s.(replicas := Replicas(w)))
    case Upgrading(Scaledown) => s.replicas == 0 && w.sts == Some(s.(replicas := Replicas(w)))
    case Upgrading(Sync) => s == Sts(w.seen.nodes, w.status.version) && w.status.volumes != 1
    case Upgrading(Postupgrade) => s == Sts(w.seen.nodes, w.status.version)
    case Upgrading(_) => false
    case _ => Serving(w) && s == Sts(w.seen.nodes, w.status.version)
  }

  /** The calls the operator may make in w: reading the instance and, unless that says to ignore it, those its
      handlers make. */
  ghost predicate Allowed(w: World, c: Call) {
    c.Fetch? || (!w.seen.ignore && MayCall(w, c))
  }

  /** The protocol the handlers follow. A write of the status conflicts, and has no effect, if the instance has been
      edited since it was read. No job is deleted that has not come to an end. */
  ghost predicate MayCall(w: World, c: Call) {
    match c
    case Fetch => true
    case Persist(s) => w.spec == w.seen && MayPersist(w, s)
    case PutInitdbArgs(args) => InStage(w, Preupgrade) && FitToUpgrade(w) && args == ReportedArgs(w)
    case PutCheckpoint(k) =>
      InStage(w, Primary) && k != "" && UpJob in w.finished && w.finished[UpJob].Upgraded?
          && w.finished[UpJob].oldCheckpoint == k
    case PutDbId(id) =>
      InStage(w, Primary) && UpJob in w.finished && w.finished[UpJob].Upgraded? && w.finished[UpJob].newSysId == id
    case ClearAnnotations => InStage(w, Postupgrade)
    case NewJob(name, t) => MayCreate(w, name, t)
    case DropJob(name) =>
      && InStage(w, StageOf(name))
      && (name in w.jobs ==> Ended(w, name) && (name.SupJob? ==> w.jobs[name].pod.Finished?))
      && (name == UpJob && UpJob in w.jobs && !w.jobs[UpJob].failed ==> Recorded(w))
    case RetireJob(name) => name.SupJob? && InStage(w, Secondaries) && (name in w.jobs ==> w.jobs[name].failed)
    case PutSts(s) => MayScale(w, s)
    case NewStreamer(i) => InStage(w, Secondaries) && i == Target(w) && w.status.volumes != 1
    case DropStreamer => InStage(w, Secondaries) && AllConverted(w)
    case NewClaim(i) => Serving(w) && i < w.seen.nodes
    case DropClaim(i) => Serving(w) && i >= w.seen.nodes
    case Other => true
  }

  // ----- runs

  datatype Event = Env(a: Action) | Op(c: Call)

  function Next(w: World, e: Event): World {
    match e
    case Env(a) => EnvStep(w, a)
    case Op(c) => Apply(w, c)
  }

  function After(w: World, es: seq<Event>): World {
    if es == [] then w else Next(After(w, es[..|es| - 1]), es[|es| - 1])
  }

  // Every edit among these events asks for n nodes.
  ghost predicate NodesKept(es: seq<Event>, n: nat) {
    forall k :: 0 <= k < |es| && es[k].Env? && es[k].a.EditSpec? ==> es[k].a.spec.nodes == n
  }

  // No edit of the schedule asks for another number of nodes than n.
  ghost predicate LeavesNodes(schedule: nat -> seq<Action>, n: nat) {
    forall t: nat, a :: a in schedule(t) && a.EditSpec? ==> a.spec.nodes == n
  }

  // Every call in es was allowed when it was made.
  ghost predicate Legal(w: World, es: seq<Event>) {
    es == [] ||
    (&& Legal(w, es[..|es| - 1])
     && (es[|es| - 1].Op? ==> Allowed(After(w, es[..|es| - 1]), es[|es| - 1].c)))
  }
}
