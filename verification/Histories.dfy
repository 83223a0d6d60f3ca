/** Properties of whole runs that need no assumption on the data: where jobs come
    from, which volume they use, and the order of the persisted states. */
module Histories {
  import opened Base
  import opened Images
  import opened World
  import opened Protocol
  import opened Stability

  lemma LegalPrefix(w: World, es: seq<Event>, n: nat)
    requires Legal(w, es) && n <= |es|
    ensures Legal(w, es[..n])
  {
    if n < |es| {
      LegalPrefix(w, es[..|es| - 1], n);
      assert es[..|es| - 1][..n] == es[..n];
    } else {
      assert es[..n] == es;
    }
  }

  lemma {:induction false} InvAfter(w: World, es: seq<Event>)
    requires Inv(w) && Legal(w, es)
    ensures Inv(After(w, es))
  {
    if es != [] {
      InvAfter(w, es[..|es| - 1]);
      NextKeepsInv(After(w, es[..|es| - 1]), es[|es| - 1]);
    }
  }

  // ----- nothing stale

  /** Outside its stage no job exists, and outside the secondaries stage no streamer does. */
  lemma NothingStale(table: seq<Image>, spec: Spec, es: seq<Event>, name: JobName)
    requires spec.nodes >= 1 && Legal(Initial(table, spec), es)
    ensures var w := After(Initial(table, spec), es);
            && (name in w.jobs ==> w.status.state == Upgrading(StageOf(name)))
            && (w.streamer.Some? ==> w.status.state == Upgrading(Secondaries))
  {
    InvAlways(table, spec, es);
    assert JobOk(After(Initial(table, spec), es), name);
  }

  /** A job goes only when it has succeeded or failed: none is deleted while it runs. */
  lemma JobsEndBeforeTheyGo(table: seq<Image>, spec: Spec, es: seq<Event>, e: Event, name: JobName)
    requires spec.nodes >= 1 && Legal(Initial(table, spec), es)
    requires e.Op? ==> Allowed(After(Initial(table, spec), es), e.c)
    requires name in After(Initial(table, spec), es).jobs && name !in Next(After(Initial(table, spec), es), e).jobs
    ensures Ended(After(Initial(table, spec), es), name)
  {
    InvAlways(table, spec, es);
    var w := After(Initial(table, spec), es);
    match e
    case Env(a) => EnvEndsJob(w, a, name);
    case Op(c) => CallEndsJob(w, c, name);
  }

  lemma EnvEndsJob(w: World, a: Action, name: JobName)
    requires Inv(w) && name in w.jobs && name !in EnvStep(w, a).jobs
    ensures Ended(w, name)
  {
    EnvStepIsLater(w, a);
    assert JobOk(w, name) && JobLater(w, EnvStep(w, a), name);
  }

  lemma CallEndsJob(w: World, c: Call, name: JobName)
    requires Allowed(w, c) && name in w.jobs && name !in Apply(w, c).jobs
    ensures Ended(w, name)
  {
  }

  predicate Creates(e: Event, name: JobName) {
    e.Op? && e.c.NewJob? && e.c.name == name
  }

  // The cluster has been in stage k in every state after the event at position `from`.
  ghost predicate InStageSince(w: World, es: seq<Event>, from: nat, k: Stage) {
    forall j :: from < j <= |es| ==> InStage(After(w, es[..j]), k)
  }

  lemma SinceExtends(w: World, es: seq<Event>, from: nat, k: Stage)
    requires es != [] && InStageSince(w, es[..|es| - 1], from, k) && InStage(After(w, es), k)
    ensures InStageSince(w, es, from, k)
  {
    var n := |es| - 1;
    forall j | from < j <= |es|
      ensures InStage(After(w, es[..j]), k)
    {
      if j <= n {
        assert es[..n][..j] == es[..j];
      } else {
        assert es[..j] == es;
      }
    }
  }

  /** A job that exists was created in the current visit to its stage: no state has left the stage since. So a
      Succeeded job is never one left over from an earlier stage or an earlier upgrade. */
  lemma {:induction false} JobsAreOfThisVisit(w: World, es: seq<Event>, name: JobName)
    requires Inv(w) && w.jobs == map[] && Legal(w, es) && name in After(w, es).jobs
    ensures exists k :: 0 <= k < |es| && Creates(es[k], name) && InStageSince(w, es, k, StageOf(name))
  {
    var n := |es| - 1;
    assert InStage(After(w, es), StageOf(name)) by {
      InvAfter(w, es);
      assert JobOk(After(w, es), name);
    }
    if name in After(w, es[..n]).jobs {
      JobsAreOfThisVisit(w, es[..n], name);
      var k :| 0 <= k < n && Creates(es[..n][k], name) && InStageSince(w, es[..n], k, StageOf(name));
      SinceExtends(w, es, k, StageOf(name));
      assert Creates(es[k], name);
    } else {
      InvAfter(w, es[..n]);
      OnlyNewJobCreates(After(w, es[..n]), es[n], name);
      assert InStageSince(w, es, n, StageOf(name)) by { assert es[..|es|] == es; }
      assert Creates(es[n], name);
    }
  }

  lemma CallCreates(w: World, c: Call, name: JobName)
    ensures name in Apply(w, c).jobs ==> name in w.jobs || Creates(Op(c), name)
  {
  }

  lemma OnlyNewJobCreates(w: World, e: Event, name: JobName)
    requires Inv(w)
    ensures name in Next(w, e).jobs ==> name in w.jobs || Creates(e, name)
  {
    match e
    case Env(a) =>
      EnvStepIsLater(w, a);
      assert JobLater(w, EnvStep(w, a), name);
    case Op(c) => CallCreates(w, c, name);
  }

  // ----- who uses which volume

  // The volume job `name` mounts, if it mounts one.
  function VolumeOf(w: World, name: JobName): Option<nat>
    requires name in w.jobs
  {
    var t := w.jobs[name].task;
    if t.Helper? then None else Some(t.vol)
  }

  /** While a volume is mounted by a conversion job, no other job mounts it, no database pod runs and none is
      asked for; the replicas' jobs stay off the leader's volume, which is the one the streamer serves. */
  lemma VolumesAreExclusive(w: World, a: JobName, b: JobName)
    requires Inv(w) && a in w.jobs && b in w.jobs && VolumeOf(w, a).Some?
    ensures w.pods == map[] && Replicas(w) == 0
    ensures a != b ==> VolumeOf(w, b) != VolumeOf(w, a)
    ensures a.SupJob? ==> VolumeOf(w, a) == Some(a.i) && a.i < w.status.volumes && w.streamer != Some(a.i)
    ensures !a.SupJob? ==> VolumeOf(w, a) == Some(Target(w))
  {
    assert JobOk(w, a) && JobOk(w, b);
  }

  /** The leader's volume is the same one from stage primary to the end of primary-move. */
  lemma LeaderIsFixed(w: World, e: Event)
    requires Inv(w) && Converting(w) && (e.Op? ==> Allowed(w, e.c))
    ensures Target(Next(w, e)) == Target(w) && Next(w, e).leader == w.leader
    ensures Next(w, e).status.volumes == w.status.volumes
    ensures Replicas(Next(w, e)) == 0 && Next(w, e).pods == map[]
  {
    match e
    case Env(a) => EnvStepIsLater(w, a);
    case Op(c) => CallKeepsLeader(w, c);
  }

  lemma CallKeepsLeader(w: World, c: Call)
    requires Inv(w) && Converting(w) && Allowed(w, c)
    ensures var w' := Apply(w, c);
            w'.status.volumes == w.status.volumes && w'.leader == w.leader && Replicas(w') == 0 && w'.pods == map[]
  {
  }

  // ----- the order of states

  // How far an upgrade has come, by its persisted state.
  function Position(s: Status): nat {
    match s.state
    case Upgrading(k) =>
      (match k
       case Preupgrade => 1
       case PreScaledown => 2
       case Sync => 3
       case Scaledown => 4
       case Primary => 5
       case Secondaries => 6
       case PrimaryMove => 7
       case Postupgrade => 8)
    case _ => 0
  }

  // A step of an upgrade from status s to s': no skip, no way back, and the version changes with the move to
  // postupgrade.
  predicate InOrder(s: Status, s': Status) {
    if s'.upgradeVersion == 0 then
      Position(s) == 8 && s'.state == Ready && s'.version == s.version == s.upgradeVersion
    else
      && s'.upgradeVersion == s.upgradeVersion
      && (Position(s') == Position(s) || Position(s') == Position(s) + 1)
      && s'.version == if Position(s) == 7 && Position(s') == 8 then s.upgradeVersion else s.version
  }

  lemma UpgradeStep(w: World, e: Event)
    requires Inv(w) && w.status.upgradeVersion != 0 && (e.Op? ==> Allowed(w, e.c))
    ensures InOrder(w.status, Next(w, e).status)
  {
    match e
    case Env(a) => EnvStepIsLater(w, a);
    case Op(c) =>
      if c.Persist? { PersistInOrder(w, c.next); }
  }

  lemma PersistInOrder(w: World, s: Status)
    requires StatusOk(w) && w.status.upgradeVersion != 0 && MayPersist(w, s)
    ensures InOrder(w.status, s)
  {
  }

  ghost predicate OneUpgrade(w: World, es: seq<Event>) {
    forall j :: 0 <= j <= |es| ==> After(w, es[..j]).status.upgradeVersion != 0
  }

  lemma OneUpgradeFront(w: World, es: seq<Event>)
    requires OneUpgrade(w, es) && es != []
    ensures OneUpgrade(w, es[..|es| - 1])
  {
    var front := es[..|es| - 1];
    forall j | 0 <= j <= |front|
      ensures After(w, front[..j]).status.upgradeVersion != 0
    {
      assert front[..j] == es[..j];
    }
  }

  // s' comes after s in one upgrade.
  predicate Ordered(s: Status, s': Status) {
    && Position(s) <= Position(s') <= 8
    && s'.upgradeVersion == s.upgradeVersion
    && s'.version == if Position(s) < 8 && Position(s') == 8 then s.upgradeVersion else s.version
  }

  lemma OrderedStep(a: Status, b: Status, c: Status)
    requires Ordered(a, b) && InOrder(b, c) && c.upgradeVersion != 0
    ensures Ordered(a, c)
  {
  }

  /** Within one upgrade the persisted states follow the handlers in order, the target is constant, and the
      version is the old one until the move to postupgrade, whose write changes it to the target. */
  lemma {:induction false} StagesInOrder(w: World, es: seq<Event>)
    requires Inv(w) && Legal(w, es) && OneUpgrade(w, es)
    ensures Ordered(w.status, After(w, es).status)
  {
    if es != [] {
      var front := es[..|es| - 1];
      OneUpgradeFront(w, es);
      StagesInOrder(w, front);
      assert InOrder(After(w, front).status, After(w, es).status) by {
        InvAfter(w, front);
        assert front[..|front|] == front;
        UpgradeStep(After(w, front), es[|es| - 1]);
      }
      assert es[..|es|] == es;
      OrderedStep(w.status, After(w, front).status, After(w, es).status);
    }
  }

  /** No stage is skipped: every position between two that occur in one upgrade, occurs. */
  lemma {:induction false} NoStageIsSkipped(w: World, es: seq<Event>, p: nat)
    requires Inv(w) && Legal(w, es) && OneUpgrade(w, es)
    requires Position(w.status) <= p <= Position(After(w, es).status)
    ensures Visited(w, es, p)
  {
    assert es[..|es|] == es;
    if p < Position(After(w, es).status) {
      var front := es[..|es| - 1];
      OneUpgradeFront(w, es);
      InvAfter(w, front);
      UpgradeStep(After(w, front), es[|es| - 1]);
      NoStageIsSkipped(w, front, p);
      var j :| 0 <= j <= |front| && Position(After(w, front[..j]).status) == p;
      assert front[..j] == es[..j];
    }
  }

  ghost predicate Visited(w: World, es: seq<Event>, p: nat) {
    exists j :: 0 <= j <= |es| && Position(After(w, es[..j]).status) == p
  }

  // ----- annotations

  /** A cluster at rest carries no annotation of an upgrade, and when postupgrade asks for database pods again
      the pause that preupgrade-sync set is gone. */
  lemma {:induction false} AnnotationsAreCleared(table: seq<Image>, spec: Spec, es: seq<Event>)
    requires spec.nodes >= 1 && Legal(Initial(table, spec), es)
    ensures var w := After(Initial(table, spec), es);
            && (w.status.upgradeVersion == 0 ==> w.config.initdbArgs.None? && w.config.checkpoint.None?)
            && (InStage(w, Postupgrade) && Replicas(w) == 0 ==>
                w.config.settings.Some? && PAUSE !in w.config.settings.value)
  {
    InvAlways(table, spec, es);
  }

  // ----- while no database runs

  // From stage primary until the database is scaled up again.
  predicate Offline(w: World) {
    Converting(w) || AboutToServe(w)
  }

  ghost predicate StaysOffline(w: World, es: seq<Event>) {
    forall j :: 0 <= j <= |es| ==> Offline(After(w, es[..j]))
  }

  lemma StaysOfflineFront(w: World, es: seq<Event>)
    requires StaysOffline(w, es) && es != []
    ensures StaysOffline(w, es[..|es| - 1]) && Offline(After(w, es)) && Offline(After(w, es[..|es| - 1]))
  {
    var front := es[..|es| - 1];
    forall j | 0 <= j <= |front|
      ensures Offline(After(w, front[..j]))
    {
      assert front[..j] == es[..j];
    }
    assert es[..|es|] == es && front[..|front|] == front;
  }

  lemma OfflineCallKeepsTarget(w: World, c: Call)
    requires Inv(w) && Offline(w) && Allowed(w, c)
    ensures Apply(w, c).status.volumes == w.status.volumes && Target(Apply(w, c)) == Target(w) && !c.DropClaim?
  {
  }

  lemma OfflineIsOneUpgrade(w: World, es: seq<Event>)
    requires Inv(w) && Legal(w, es) && StaysOffline(w, es)
    ensures OneUpgrade(w, es)
  {
    forall j | 0 <= j <= |es|
      ensures After(w, es[..j]).status.upgradeVersion != 0
    {
      LegalPrefix(w, es, j);
      InvAfter(w, es[..j]);
      assert Offline(After(w, es[..j]));
    }
  }

  // The settings s without the pause.
  function Resumed(s: map<string, string>): map<string, string> {
    s - {PAUSE}
  }

  // How the settings s may have changed by the time the cluster has come to w.
  predicate SettingsFrom(s: Option<map<string, string>>, w: World) {
    match s
    case None => w.config.settings.None? && InStage(w, Primary)
    case Some(m) =>
      || w.config.settings == Some(Resumed(m))
      || (w.config.settings == s && InStage(w, Primary))
  }

  lemma StepKeepsSettings(s: Option<map<string, string>>, w: World, e: Event)
    requires Inv(w) && Offline(w) && SettingsFrom(s, w) && (e.Op? ==> Allowed(w, e.c))
    ensures SettingsFrom(s, Next(w, e))
  {
    match e
    case Env(a) => EnvStepIsLater(w, a);
    case Op(c) =>
      if s.Some? { assert Resumed(Resumed(s.value)) == Resumed(s.value); }
      CallKeepsSettings(s, w, c);
  }

  lemma CallKeepsSettings(s: Option<map<string, string>>, w: World, c: Call)
    requires Inv(w) && Offline(w) && SettingsFrom(s, w) && Allowed(w, c)
    requires s.Some? ==> Resumed(Resumed(s.value)) == Resumed(s.value)
    ensures SettingsFrom(s, Apply(w, c))
  {
    if s.Some? && c.Persist? && c.next != w.status && InStage(w, Primary) {
      assert PAUSE !in w.config.settings.value;
      assert w.config.settings == s ==> s.value == Resumed(s.value);
    }
  }

  /** From the start of stage primary until postupgrade asks for pods, Patroni's settings stay what they were, but
      for the pause: it goes when the new identifier is recorded, and it is gone whenever stage primary has been
      left. Without settings the stage is never left. */
  lemma {:induction false} OnlyThePauseGoes(w: World, es: seq<Event>)
    requires Inv(w) && InStage(w, Primary) && Legal(w, es) && StaysOffline(w, es)
    ensures var before, w' := w.config.settings, After(w, es);
            match before
            case None => w'.config.settings.None? && InStage(w', Primary)
            case Some(m) =>
              || w'.config.settings == Some(m - {PAUSE})
              || (w'.config.settings == before && InStage(w', Primary))
  {
    if es != [] {
      var front := es[..|es| - 1];
      StaysOfflineFront(w, es);
      OnlyThePauseGoes(w, front);
      InvAfter(w, front);
      assert SettingsFrom(w.config.settings, After(w, front));
      StepKeepsSettings(w.config.settings, After(w, front), es[|es| - 1]);
    }
  }
}
