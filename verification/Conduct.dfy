/** What the operator lets itself be guided by in every run: the spec it has read, the ready replicas it was told of,
    and what the preupgrade job has found. */
module Conduct {
  import opened Base
  import opened Scripts
  import opened Images
  import opened Initdb
  import opened World
  import opened Protocol
  import opened Stability
  import opened Histories

  // ----- spec.ignore

  // Whenever the operator reads the instance during the run, the spec says to ignore it.
  ghost predicate ReadsIgnore(w: World, es: seq<Event>) {
    forall k :: 0 <= k < |es| && es[k] == Op(Fetch) ==> After(w, es[..k]).spec.ignore
  }

  // The run without the operator.
  function WithoutOperator(es: seq<Event>): (r: seq<Event>)
    ensures forall e :: e in r ==> e.Env?
  {
    if es == [] then []
    else
      var front := WithoutOperator(es[..|es| - 1]);
      if es[|es| - 1].Env? then front + [es[|es| - 1]] else front
  }

  // The cluster, but for what the operator has in memory.
  function Outside(w: World): World {
    w.(seen := Spec(true, 0, 0), told := None)
  }

  lemma EnvIgnoresMemory(w: World, w': World, a: Action)
    requires Outside(w) == Outside(w')
    ensures Outside(EnvStep(w, a)) == Outside(EnvStep(w', a))
    ensures EnvStep(w, a).seen == w.seen
  {
    EnvInMemory(w, a);
    EnvInMemory(w', a);
  }

  lemma CopyInMemory(w: World, a: Action)
    requires a.Bootstrap? || a.Clone? || a.Write?
    ensures Outside(PatroniStep(w, a)) == PatroniStep(Outside(w), a) && PatroniStep(w, a).seen == w.seen
  {
    assert Vol(Outside(w), a.i) == Vol(w, a.i);
  }

  lemma PatroniInMemory(w: World, a: Action)
    ensures Outside(PatroniStep(w, a)) == PatroniStep(Outside(w), a) && PatroniStep(w, a).seen == w.seen
  {
    if a.Bootstrap? || a.Clone? || a.Write? { CopyInMemory(w, a); }
  }

  lemma LandInMemory(w: World, name: JobName, r: Effect)
    requires Active(w, name)
    ensures Outside(Land(w, name, r)) == Land(Outside(w), name, r) && Land(w, name, r).seen == w.seen
  {
  }

  lemma RunInMemory(w: World, name: JobName, c: Chance)
    ensures var a := RunJob(name, c);
            Outside(JobStep(w, a)) == JobStep(Outside(w), a) && JobStep(w, a).seen == w.seen
  {
    if Active(w, name) && !w.jobs[name].deleting {
      var t := w.jobs[name].task;
      LandInMemory(w, name, Run(w.vols[t.vol], w.jobs[name].pod.pc, t, Served(w), c));
    }
  }

  lemma StopInMemory(w: World, a: Action)
    requires a.KillJob? || a.FailJob?
    ensures Outside(JobStep(w, a)) == JobStep(Outside(w), a) && JobStep(w, a).seen == w.seen
  {
    assert Active(Outside(w), a.name) <==> Active(w, a.name);
  }

  lemma JobStepInMemory(w: World, a: Action)
    ensures Outside(JobStep(w, a)) == JobStep(Outside(w), a) && JobStep(w, a).seen == w.seen
  {
    match a
    case RunJob(name, c) => RunInMemory(w, name, c);
    case KillJob(_, _) => StopInMemory(w, a);
    case FailJob(_, _) => StopInMemory(w, a);
    case _ =>
  }

  lemma EnvInMemory(w: World, a: Action)
    ensures Outside(EnvStep(w, a)) == EnvStep(Outside(w), a) && EnvStep(w, a).seen == w.seen
  {
    PatroniInMemory(w, a);
    JobStepInMemory(w, a);
  }

  // The operator only reads.
  ghost predicate OnlyReads(es: seq<Event>) {
    forall k :: 0 <= k < |es| && es[k].Op? ==> es[k].c == Fetch
  }

  // But for what the operator has in memory, the run has come to where it would have come without the operator.
  ghost predicate AsWithoutOperator(w: World, es: seq<Event>) {
    Outside(After(w, es)) == Outside(After(w, WithoutOperator(es)))
  }

  lemma EnvOnIgnored(w: World, es: seq<Event>, a: Action)
    requires AsWithoutOperator(w, es)
    ensures AsWithoutOperator(w, es + [Env(a)]) && After(w, es + [Env(a)]).seen == After(w, es).seen
  {
    var less := WithoutOperator(es);
    assert (es + [Env(a)])[..|es|] == es && (less + [Env(a)])[..|less|] == less;
    EnvIgnoresMemory(After(w, es), After(w, less), a);
  }

  lemma FetchOnIgnored(w: World, es: seq<Event>)
    requires AsWithoutOperator(w, es) && After(w, es).spec.ignore
    ensures AsWithoutOperator(w, es + [Op(Fetch)]) && After(w, es + [Op(Fetch)]).seen.ignore
  {
    assert (es + [Op(Fetch)])[..|es|] == es;
  }

  /** Once the operator has read that an instance is to be ignored, and for as long as it reads nothing else, it does
      nothing but read: the cluster is what the user, Patroni and the jobs alone would have made of it. */
  lemma {:induction false} IgnoredIsLeftAlone(w: World, es: seq<Event>)
    requires w.seen.ignore && Legal(w, es) && ReadsIgnore(w, es)
    ensures After(w, es).seen.ignore && OnlyReads(es) && AsWithoutOperator(w, es)
  {
    if es != [] {
      var front, e := es[..|es| - 1], es[|es| - 1];
      ReadsIgnoreFront(w, es);
      IgnoredIsLeftAlone(w, front);
      assert es == front + [e];
      match e
      case Env(a) => EnvOnIgnored(w, front, a);
      case Op(c) =>
        assert e == Op(Fetch);
        FetchOnIgnored(w, front);
    }
  }

  lemma ReadsIgnoreFront(w: World, es: seq<Event>)
    requires es != [] && ReadsIgnore(w, es)
    ensures ReadsIgnore(w, es[..|es| - 1])
    ensures es[|es| - 1] == Op(Fetch) ==> After(w, es[..|es| - 1]).spec.ignore
  {
    var front := es[..|es| - 1];
    forall k | 0 <= k < |front|
      ensures front[k] == es[k] && front[..k] == es[..k]
    {
    }
  }

  // ----- the ready replicas

  // The replicas asked for at position j, in the reconcile that is still under way after es, were all ready.
  ghost predicate ToldAt(w: World, es: seq<Event>, j: nat) {
    && j < |es| && es[j].Op? && es[j].c.PutSts?
    && After(w, es).told == Some(After(w, es[..j]).ready)
    && After(w, es).sts == Some(es[j].c.sts)
    && forall i :: j < i < |es| ==> es[i] != Op(Fetch)
  }

  lemma EnvKeepsTold(w: World, a: Action)
    ensures EnvStep(w, a).told == w.told && EnvStep(w, a).sts == w.sts
  {
  }

  // What the reconcile was told stays in memory until it reads the instance or asks for replicas again.
  lemma NextKeepsTold(w: World, e: Event)
    requires e != Op(Fetch) && !(e.Op? && e.c.PutSts?)
    ensures Next(w, e).told == w.told && Next(w, e).sts == w.sts
  {
    if e.Env? { EnvKeepsTold(w, e.a); }
  }

  lemma StaysTold(w: World, es: seq<Event>, e: Event, j: nat)
    requires ToldAt(w, es, j) && e != Op(Fetch) && !(e.Op? && e.c.PutSts?)
    ensures ToldAt(w, es + [e], j)
  {
    NextKeepsTold(After(w, es), e);
    assert (es + [e])[..|es|] == es;
    assert (es + [e])[..j] == es[..j];
  }

  lemma {:induction false} ToldByPutSts(w: World, es: seq<Event>)
    requires w.told.None?
    ensures After(w, es).told.Some? ==> exists j: nat :: ToldAt(w, es, j)
  {
    if es != [] && After(w, es).told.Some? {
      var front, e := es[..|es| - 1], es[|es| - 1];
      if e.Op? && e.c.PutSts? {
        assert ToldAt(w, es, |es| - 1);
      } else {
        assert e != Op(Fetch);
        NextKeepsTold(After(w, front), e);
        ToldByPutSts(w, front);
        var j: nat :| ToldAt(w, front, j);
        StaysTold(w, front, e, j);
        assert es == front + [e];
      }
    }
  }

  /** In every run, the job of postupgrade is created only after the same reconcile has asked for the replicas of the
      spec it has read, at the new version, and was told that all of them were ready. */
  lemma {:induction false} PostupgradeWaitsForReplicas(table: seq<Image>, spec: Spec, es: seq<Event>, k: nat, t: Task)
    returns (j: nat)
    requires spec.nodes >= 1 && Legal(Initial(table, spec), es) && k < |es| && es[k] == Op(NewJob(PostJob, t))
    ensures var w := After(Initial(table, spec), es[..k]);
            AllReadyAt(Initial(table, spec), es[..k], j, Sts(w.seen.nodes, w.status.version))
  {
    var w0 := Initial(table, spec);
    CallWasAllowed(w0, es, k);
    ToldByPutSts(w0, es[..k]);
    j :| ToldAt(w0, es[..k], j);
  }

  // At position j, and in the reconcile that is still under way after es, all replicas asked for were ready.
  ghost predicate AllReadyAt(w: World, es: seq<Event>, j: nat, s: Sts) {
    && j < |es| && es[j] == Op(PutSts(s)) && After(w, es[..j]).ready == s.replicas
    && forall i :: j < i < |es| ==> es[i] != Op(Fetch)
  }

  lemma CallWasAllowed(w: World, es: seq<Event>, k: nat)
    requires Legal(w, es) && k < |es| && es[k].Op?
    ensures Allowed(After(w, es[..k]), es[k].c)
  {
    LegalPrefix(w, es, k + 1);
    assert es[..k + 1][..k] == es[..k];
  }

  // ----- the settings of the old database

  // A preupgrade job has reported c at some time, and found no prepared transactions in use.
  ghost predicate Reported(es: seq<Event>, c: DbConfig) {
    c.maxPreparedTransactions == 0 && Env(FinishHelper(PreJob, Settings(c))) in es
  }

  ghost predicate FromReports(w: World, es: seq<Event>) {
    && (PreJob in w.finished ==> Env(FinishHelper(PreJob, w.finished[PreJob])) in es)
    && (w.config.initdbArgs.Some? ==> exists c :: Reported(es, c) && w.config.initdbArgs.value == InitdbArgs(c))
  }

  lemma ReportsGrow(w: World, es: seq<Event>, e: Event)
    requires FromReports(w, es)
    ensures FromReports(w, es + [e])
  {
    if w.config.initdbArgs.Some? {
      var c :| Reported(es, c) && w.config.initdbArgs.value == InitdbArgs(c);
      assert Reported(es + [e], c);
    }
  }

  lemma OnlyReportsFinish(w: World, a: Action)
    requires Inv(w)
    ensures var w' := EnvStep(w, a);
            && w'.config.initdbArgs == w.config.initdbArgs
            && (PreJob in w'.finished ==>
                  (PreJob in w.finished && w'.finished[PreJob] == w.finished[PreJob])
                  || a == FinishHelper(PreJob, w'.finished[PreJob]))
  {
    assert JobOk(w, PreJob);
    EnvStepIsLater(w, a);
    if (a.RunJob? && Active(w, a.name)) {
      assert JobOk(w, a.name);
    }
  }

  lemma CallKeepsReports(w: World, es: seq<Event>, c: Call)
    requires Inv(w) && FromReports(w, es) && Allowed(w, c)
    ensures FromReports(Apply(w, c), es)
  {
    if c.PutInitdbArgs? {
      assert Reported(es, w.finished[PreJob].config);
    }
  }

  lemma {:induction false} ReportsAlways(table: seq<Image>, spec: Spec, es: seq<Event>)
    requires spec.nodes >= 1 && Legal(Initial(table, spec), es)
    ensures FromReports(After(Initial(table, spec), es), es)
  {
    if es != [] {
      var front, e := es[..|es| - 1], es[|es| - 1];
      var w := After(Initial(table, spec), front);
      ReportsAlways(table, spec, front);
      InvAlways(table, spec, front);
      assert es == front + [e];
      ReportsGrow(w, front, e);
      match e
      case Env(a) => OnlyReportsFinish(w, a);
      case Op(c) => CallKeepsReports(w, es, c);
    }
  }

  // The arguments are what c calls for, and initdb reads the settings of c off them if no value has a blank.
  predicate Gives(args: string, c: DbConfig) {
    && args == InitdbArgs(c)
    && (Solid(c.locale) && Solid(c.encoding) ==>
          ReadArgs(args) == Some(Flags(c.locale, c.encoding, c.dataChecksums)))
  }

  /** In every run, primary-upgrade is given the arguments that a preupgrade job's report calls for, and that job has
      found no prepared transactions in use. initdb reads the reported settings off them, if no value has a blank. */
  lemma UpgradeGetsReportedSettings(table: seq<Image>, spec: Spec, es: seq<Event>)
    requires spec.nodes >= 1 && Legal(Initial(table, spec), es)
    ensures var w := After(Initial(table, spec), es);
            UpJob in w.jobs ==>
              && w.jobs[UpJob].task.Upgrade?
              && exists c :: Reported(es, c) && Gives(w.jobs[UpJob].task.initdbArgs, c)
  {
    var w := After(Initial(table, spec), es);
    InvAlways(table, spec, es);
    ReportsAlways(table, spec, es);
    assert JobOk(w, UpJob);
    if UpJob in w.jobs {
      var c :| Reported(es, c) && w.config.initdbArgs.value == InitdbArgs(c);
      ArgsAreReadBackExactly(c);
    }
  }
}
