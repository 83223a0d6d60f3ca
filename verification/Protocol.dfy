/** What every run keeps, whatever the operator crashes on and whatever the
    environment does: which objects can exist in which stage, and what the
    persisted status and the annotations say about each other. */
module Protocol {
  import opened Base
  import opened Scripts
  import opened Images
  import opened World

  // No database pod runs, and none is asked for.
  predicate Quiet(w: World) {
    w.pods == map[] && Replicas(w) == 0
  }

  // The stages in which the volumes belong to the conversion jobs.
  predicate Converting(w: World) {
    InStage(w, Primary) || InStage(w, Secondaries) || InStage(w, PrimaryMove)
  }

  // Postupgrade before the database has been scaled up again.
  predicate AboutToServe(w: World) {
    InStage(w, Postupgrade) && Replicas(w) == 0
  }

  predicate TaskOk(w: World, name: JobName, t: Task) {
    match name
    case UpJob =>
      && t.Upgrade? && t.vol == Target(w) && t.before == w.status.version && t.after == w.status.upgradeVersion
      && w.config.initdbArgs == Some(t.initdbArgs)
    case SupJob(i) =>
      && t.Convert? && t.vol == i && i < w.status.volumes && i != Target(w)
      && t.before == w.status.version && t.after == w.status.upgradeVersion
      && w.config.initialize == Some(t.id) && w.config.checkpoint == Some(t.checkpoint)
    case MoveJob => t == Move(Target(w))
    case SyncJob => t == Helper && w.status.volumes != 1
    case _ => t == Helper
  }

  // A job exists only in the stage it belongs to and does what that stage is for; its success is on record.
  predicate JobOk(w: World, name: JobName) {
    && (name in w.jobs || name in w.finished ==> InStage(w, StageOf(name)))
    && (name in w.jobs ==>
          && TaskOk(w, name, w.jobs[name].task)
          && (w.jobs[name].deleting ==> name.SupJob? && w.jobs[name].failed)
          && (w.jobs[name].pod.Finished? <==> name in w.finished)
          && (name in w.finished ==> w.finished[name] == w.jobs[name].pod.output))
  }

  // The rsync daemon runs in the secondaries stage only, on the leader's volume.
  predicate StreamerOk(w: World) {
    w.streamer.Some? ==> InStage(w, Secondaries) && w.streamer.value == Target(w) && w.status.volumes != 1
  }

  ghost predicate JobsOk(w: World) {
    && StreamerOk(w)
    && forall name :: JobOk(w, name)
  }

  ghost predicate PodsOk(w: World) {
    && (forall i :: i in w.pods ==> w.pods[i] == w.status.version && i in w.vols)
    && (Replicas(w) > 0 ==> w.sts.value.template == w.status.version)
    && (Converting(w) || AboutToServe(w) ==> Quiet(w) && w.sts.Some?)
    && (w.status.state.Fresh? ==> w.pods == map[] && w.sts.None? && w.config.initialize.None?)
  }

  ghost predicate StatusOk(w: World) {
    && (w.status.state.Upgrading? ==> w.status.upgradeVersion != 0)
    && (w.status.state.Upgrading? && w.status.state.stage != Postupgrade ==>
        w.status.upgradeVersion != w.status.version)
    && (InStage(w, Postupgrade) ==> w.status.upgradeVersion == w.status.version)
    && (w.status.upgradeVersion != 0 ==> w.status.state.Ready? || w.status.state.Upgrading?)
    && (w.status.upgradeVersion != 0 && w.status.volumes > 1 ==> w.leader.Some?)
    && (w.status.state.Ready? && w.status.upgradeVersion != 0 ==> w.status.upgradeVersion != w.status.version)
    && w.spec.nodes >= 1 && w.seen.nodes >= 1
  }

  predicate BeforePrimary(w: World) {
    !w.status.state.Upgrading? || InStage(w, Preupgrade) || InStage(w, PreScaledown) || InStage(w, Sync)
        || InStage(w, Scaledown)
  }

  ghost predicate AnnotationsOk(w: World) {
    && (!w.status.state.Upgrading? ==> w.config.initdbArgs.None? && w.config.checkpoint.None?)
    && (BeforePrimary(w) ==> w.config.checkpoint.None?)
    && (w.config.checkpoint.Some? ==> w.config.checkpoint.value != "")
    && (w.status.state.Upgrading? && !InStage(w, Preupgrade) && !InStage(w, Postupgrade) ==>
          w.config.initdbArgs.Some?)
    && (InStage(w, Secondaries) || InStage(w, PrimaryMove) || AboutToServe(w) ==>
          w.config.settings.Some? && PAUSE !in w.config.settings.value && w.config.initialize.Some?)
  }

  // The parts of a state that jobs have no say in.
  ghost predicate RestOk(w: World) {
    PodsOk(w) && StatusOk(w) && AnnotationsOk(w)
  }

  ghost predicate Inv(w: World) {
    JobsOk(w) && RestOk(w)
  }

  // Two states that differ in jobs, their history, the streamer and the contents of volumes only.
  predicate SameRest(w: World, w': World) {
    && w.vols.Keys <= w'.vols.Keys
    && w' == w.(jobs := w'.jobs, finished := w'.finished, streamer := w'.streamer, vols := w'.vols)
  }

  lemma SameRestKeeps(w: World, w': World)
    requires SameRest(w, w') && RestOk(w)
    ensures RestOk(w')
  {
  }

  // ----- the environment

  lemma PatroniKeepsRest(w: World, a: Action)
    requires RestOk(w)
    ensures RestOk(PatroniStep(w, a))
  {
  }

  lemma PatroniKeepsJob(w: World, a: Action, name: JobName)
    requires Inv(w)
    ensures JobOk(PatroniStep(w, a), name)
  {
    assert JobOk(w, name);
  }

  lemma JobStepKeepsRest(w: World, a: Action)
    requires RestOk(w)
    ensures RestOk(JobStep(w, a))
  {
    SameRestKeeps(w, JobStep(w, a));
  }

  lemma LandKeepsJob(w: World, at: JobName, r: Effect, name: JobName)
    requires JobOk(w, name) && JobOk(w, at) && Active(w, at)
    ensures JobOk(Land(w, at, r), name)
  {
  }

  lemma RunKeepsJob(w: World, at: JobName, c: Chance, name: JobName)
    requires JobOk(w, at) && JobOk(w, name)
    ensures JobOk(JobStep(w, RunJob(at, c)), name)
  {
    if Active(w, at) && !w.jobs[at].deleting {
      var t := w.jobs[at].task;
      LandKeepsJob(w, at, Run(w.vols[t.vol], w.jobs[at].pod.pc, t, Served(w), c), name);
    }
  }

  lemma FinishKeepsJob(w: World, at: JobName, out: Output, name: JobName)
    requires JobOk(w, at) && JobOk(w, name)
    ensures JobOk(JobStep(w, FinishHelper(at, out)), name)
  {
  }

  lemma InterruptKeepsJob(w: World, a: Action, name: JobName)
    requires JobOk(w, name) && (a.KillJob? || a.FailJob?)
    ensures JobOk(JobStep(w, a), name)
  {
  }

  lemma RecordKeepsJob(w: World, a: Action, name: JobName)
    requires JobOk(w, name) && (a.StartJob? || a.CollectJob?)
    ensures JobOk(JobStep(w, a), name)
  {
  }

  lemma JobStepKeepsJob(w: World, a: Action, name: JobName)
    requires JobsOk(w)
    ensures JobOk(JobStep(w, a), name)
  {
    assert JobOk(w, name);
    match a
    case RunJob(at, c) =>
      assert JobOk(w, at);
      RunKeepsJob(w, at, c, name);
    case FinishHelper(at, out) =>
      assert JobOk(w, at);
      FinishKeepsJob(w, at, out, name);
    case KillJob(_, _) => InterruptKeepsJob(w, a, name);
    case FailJob(_, _) => InterruptKeepsJob(w, a, name);
    case StartJob(_) => RecordKeepsJob(w, a, name);
    case CollectJob(_) => RecordKeepsJob(w, a, name);
    case _ =>
  }

  lemma StreamerKept(w: World, a: Action)
    requires StreamerOk(w) && (InStage(w, Secondaries) ==> Quiet(w))
    ensures StreamerOk(EnvStep(w, a))
  {
  }

  lemma EnvKeepsInv(w: World, a: Action)
    requires Inv(w)
    ensures Inv(EnvStep(w, a))
  {
    PatroniKeepsRest(w, a);
    JobStepKeepsRest(w, a);
    StreamerKept(w, a);
    forall name
      ensures JobOk(EnvStep(w, a), name)
    {
      assert JobOk(w, name);
      PatroniKeepsJob(w, a, name);
      JobStepKeepsJob(w, a, name);
    }
  }

  // ----- the operator

  // When the status moves on, nothing of the stage it leaves remains.
  lemma NoJobsLeft(w: World, s: Status)
    requires JobsOk(w) && StatusOk(w) && MayPersist(w, s) && s != w.status
    ensures w.jobs == map[] && w.streamer.None?
  {
    forall name
      ensures name !in w.jobs
    {
      assert JobOk(w, name);
    }
  }

  lemma PersistKeepsInv(w: World, s: Status)
    requires Inv(w) && MayPersist(w, s)
    ensures Inv(Apply(w, Persist(s)))
  {
    var w' := Apply(w, Persist(s));
    if s == w.status {
      assert w' == w;
    } else {
      NoJobsLeft(w, s);
      assert RestOk(w') by { PersistKeepsRest(w, s); }
      forall name
        ensures JobOk(w', name)
      {
        assert JobOk(w, name);
      }
    }
  }

  lemma PersistKeepsRest(w: World, s: Status)
    requires RestOk(w) && MayPersist(w, s)
    ensures RestOk(Apply(w, Persist(s)))
  {
  }

  predicate JobCall(c: Call) {
    c.NewJob? || c.DropJob? || c.RetireJob? || c.NewStreamer? || c.DropStreamer?
  }

  lemma JobCallKeepsJob(w: World, c: Call, name: JobName)
    requires JobOk(w, name) && Allowed(w, c) && JobCall(c)
    ensures JobOk(Apply(w, c), name)
  {
  }

  lemma OtherCallKeepsJob(w: World, c: Call, name: JobName)
    requires JobOk(w, name) && Allowed(w, c) && !c.Persist? && !JobCall(c)
    ensures JobOk(Apply(w, c), name)
  {
  }

  lemma CallKeepsStreamer(w: World, c: Call)
    requires StreamerOk(w) && Allowed(w, c) && !c.Persist?
    ensures StreamerOk(Apply(w, c))
  {
  }

  lemma CallKeepsRest(w: World, c: Call)
    requires RestOk(w) && Allowed(w, c) && !c.Persist?
    ensures RestOk(Apply(w, c))
  {
    if JobCall(c) { SameRestKeeps(w, Apply(w, c)); }
  }

  lemma CallKeepsInv(w: World, c: Call)
    requires Inv(w) && Allowed(w, c)
    ensures Inv(Apply(w, c))
  {
    if c.Persist? {
      PersistKeepsInv(w, c.next);
    } else {
      CallKeepsRest(w, c);
      CallKeepsStreamer(w, c);
      forall name
        ensures JobOk(Apply(w, c), name)
      {
        assert JobOk(w, name);
        if JobCall(c) { JobCallKeepsJob(w, c, name); } else { OtherCallKeepsJob(w, c, name); }
      }
    }
  }

  lemma NextKeepsInv(w: World, e: Event)
    requires Inv(w) && (e.Op? ==> Allowed(w, e.c))
    ensures Inv(Next(w, e))
  {
    match e
    case Env(a) => EnvKeepsInv(w, a);
    case Op(c) => CallKeepsInv(w, c);
  }

  /** The protocol invariant holds in every state of every run. */
  lemma {:induction false} InvAlways(table: seq<Image>, spec: Spec, es: seq<Event>)
    requires spec.nodes >= 1 && Legal(Initial(table, spec), es)
    ensures Inv(After(Initial(table, spec), es))
  {
    if es != [] {
      InvAlways(table, spec, es[..|es| - 1]);
      NextKeepsInv(After(Initial(table, spec), es[..|es| - 1]), es[|es| - 1]);
    }
  }
}
