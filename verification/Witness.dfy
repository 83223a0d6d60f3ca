/** Runs of a cluster of one node, from nothing: what a table with two offers admits, and what an
    edit made at the wrong moment does to the data. */
module Witness {
  import opened Base
  import opened Volumes
  import opened Scripts
  import opened Images
  import opened World
  import opened Safety
  import opened Edits
  import opened Versions
  import opened Runs
  import opened Feasible

  // Some legal run with considerate edits leads from w to w'.
  ghost predicate LeadsConsiderately(w: World, w': World) {
    exists es :: Legal(w, es) && ConsiderateRun(w, es) && After(w, es) == w'
  }

  lemma StepConsiderately(w: World, w1: World, e: Event)
    requires LeadsConsiderately(w, w1)
    requires match e case Op(c) => Allowed(w1, c) case Env(a) => Considerate(w1, a)
    ensures LeadsConsiderately(w, Next(w1, e))
  {
    var es :| Legal(w, es) && ConsiderateRun(w, es) && After(w, es) == w1;
    assert (es + [e])[..|es|] == es;
    assert Legal(w, es + [e]) && ConsiderateRun(w, es + [e]) && After(w, es + [e]) == Next(w1, e);
  }

  lemma ConsiderateLeads(w: World, w': World)
    requires LeadsConsiderately(w, w')
    ensures Leads(w, w')
  {
    var es :| Legal(w, es) && ConsiderateRun(w, es) && After(w, es) == w';
  }

  // ----- a ready cluster of one node

  const LUCK: Chance := Chance("id", "0/1", map[], true, false, false, false, false, {})

  function Spec1(v: int): Spec {
    Spec(false, v, 1)
  }

  function Database(v: int): Volume {
    EMPTY.(data := Present(Some(v), Some(Control("id", "0/1")), None, true, map[]))
  }

  // A new cluster at version v when its database has been initialized and it is Ready.
  function ReadyCluster(table: seq<Image>, v: int): World {
    World(table, Spec1(v), Spec1(v), Some(1), Status(Ready, v, 0, Offered(table, v), 1),
        Config(Some("id"), Some(map[]), None, None),
          Some(0), Some(Sts(1, v)), 1, map[0 := v], None, map[], map[], map[0 := Database(v)])
  }

  // The cluster once the operator has seen to the pod.
  function Starting(table: seq<Image>, v: int): World {
    Initial(table, Spec1(v)).(status := Status(Scaling, v, 0, [], 0), sts := Some(Sts(1, v)), told := Some(0),
                               vols := map[0 := EMPTY])
  }

  lemma Starts(table: seq<Image>, v: int)
    requires Lookup(table, v).Some?
    ensures LeadsConsiderately(Initial(table, Spec1(v)), Starting(table, v))
  {
    var w, s := Initial(table, Spec1(v)), Status(Scaling, v, 0, [], 0);
    assert Legal(w, []) && ConsiderateRun(w, []) && After(w, []) == w;
    StepConsiderately(w, w, Op(Persist(s)));
    assert Apply(w, Persist(s)) == w.(status := s);
    PodIsAskedFor(w, w.(status := s), v);
  }

  lemma PodIsAskedFor(w: World, w1: World, v: int)
    requires LeadsConsiderately(w, w1)
    requires w1.status == Status(Scaling, v, 0, [], 0) && w1.seen == Spec1(v) && w1.vols == map[] && w1.sts == None
    ensures LeadsConsiderately(w, w1.(sts := Some(Sts(1, v)), told := Some(w1.ready), vols := map[0 := EMPTY]))
  {
    StepConsiderately(w, w1, Op(NewClaim(0)));
    var w2 := Apply(w1, NewClaim(0));
    ReplicasAreAskedFor(w, w2, Sts(1, v));
  }

  lemma ReplicasAreAskedFor(start: World, w: World, s: Sts)
    requires LeadsConsiderately(start, w) && Allowed(w, PutSts(s))
    ensures LeadsConsiderately(start, w.(sts := Some(s), told := Some(w.ready)))
  {
    StepConsiderately(start, w, Op(PutSts(s)));
  }

  // The cluster once the pod has initialized its database.
  function Serving1(table: seq<Image>, v: int): World {
    Starting(table, v).(pods := map[0 := v], leader := Some(0), config := Config(Some("id"), Some(map[]), None, None),
                        vols := map[0 := Database(v)])
  }

  lemma Serves(table: seq<Image>, v: int)
    requires Lookup(table, v).Some?
    ensures LeadsConsiderately(Initial(table, Spec1(v)), Serving1(table, v))
  {
    Starts(table, v);
    var start, w := Initial(table, Spec1(v)), Starting(table, v);
    StepConsiderately(start, w, Env(StartPod(0)));
    var w1 := EnvStep(w, StartPod(0));
    assert w1 == w.(pods := map[0 := v]);
    DatabaseIsMade(start, w1, v);
  }

  lemma DatabaseIsMade(start: World, w: World, v: int)
    requires LeadsConsiderately(start, w) && w.pods == map[0 := v] && w.vols == map[0 := EMPTY] && w.config == NO_CONFIG
    requires w.spec.nodes == 1
    ensures LeadsConsiderately(start,
        w.(leader := Some(0), config := Config(Some("id"), Some(map[]), None, None), vols := map[0 := Database(v)]))
  {
    StepConsiderately(start, w, Env(Bootstrap(0, LUCK)));
    var w1 := EnvStep(w, Bootstrap(0, LUCK));
    assert w1.vols == map[0 := Database(v)];
    StepConsiderately(start, w1, Env(SetSettings(map[])));
  }

  lemma BecomesReady(table: seq<Image>, v: int)
    requires Lookup(table, v).Some?
    ensures LeadsConsiderately(Initial(table, Spec1(v)), ReadyCluster(table, v))
  {
    Serves(table, v);
    var start, w := Initial(table, Spec1(v)), Serving1(table, v);
    StepConsiderately(start, w, Env(Report(1)));
    var w1 := EnvStep(w, Report(1));
    StepConsiderately(start, w1, Op(Fetch));
    assert Apply(w1, Fetch) == w.(ready := 1, told := None);
    IsToldOfIt(start, w.(ready := 1, told := None), v);
  }

  // The next reconcile is told of the ready pod.
  lemma IsToldOfIt(start: World, w: World, v: int)
    requires LeadsConsiderately(start, w) && w.ready == 1 && w.status == Status(Scaling, v, 0, [], 0)
    requires w.seen == Spec1(v) && w.spec == w.seen && w.sts == Some(Sts(1, v)) && w.finished == map[]
    ensures LeadsConsiderately(start, w.(told := Some(1), status := Status(Ready, v, 0, Offered(w.table, v), 1)))
  {
    StepConsiderately(start, w, Op(PutSts(Sts(1, v))));
    var w1 := w.(told := Some(1));
    assert Apply(w, PutSts(Sts(1, v))) == w1;
    var s := Status(Ready, v, 0, Offered(w.table, v), 1);
    MayBeReady(w1, s);
    StepConsiderately(start, w1, Op(Persist(s)));
  }

  lemma MayBeReady(w: World, s: Status)
    requires w.status.state == Scaling && w.status.upgradeVersion == 0 && w.spec == w.seen && !w.seen.ignore
    requires w.told == Some(w.seen.nodes)
    requires s == Status(Ready, w.status.version, 0, Offered(w.table, w.status.version), w.seen.nodes)
    ensures Allowed(w, Persist(s))
  {
  }

  // ----- two offers

  // An edit of the version, as the next reconcile reads and admits it.
  lemma Admits(w: World, b: int) returns (w': World)
    requires Lean(w) && w.status.state == Ready && w.status.upgradeVersion == 0
    requires b in w.status.upgradeVersions && b != w.status.version && b != 0 && w.spec.nodes >= 1
    requires w.status.volumes > 1 ==> w.leader.Some?
    ensures Leads(w, w') && Lean(w') && w'.status == w.status.(upgradeVersion := b)
    ensures var s := w.spec.(version := b);
            w' == w.(spec := s, seen := s, told := None, status := w'.status)
  {
    var s := w.spec.(version := b);
    Stay(w);
    Runs.Step(w, w, Env(EditSpec(s)));
    var w1 := EnvStep(w, EditSpec(s));
    Runs.Step(w, w1, Op(Fetch));
    var w2 := Apply(w1, Fetch);
    Runs.Step(w, w2, Op(Persist(w.status.(upgradeVersion := b))));
    w' := Apply(w2, Persist(w.status.(upgradeVersion := b)));
  }

  /** A table with two offers for one version really lets a cluster be upgraded and then be sent back: after the
      upgrade the offers in the status are still those of the old version. */
  lemma TwoOffersDowngradeACluster(table: seq<Image>, v: int, a: int, b: int) returns (w: World)
    requires a in Offered(table, v) && b in Offered(table, v) && a < b && a != 0 && b != 0
    ensures Leads(Initial(table, Spec1(v)), w) && Downgrade(Project(w.status))
    ensures w.status.version == b && w.status.upgradeVersion == a
  {
    OfferedHasBinaries(table, v, a);
    OfferedHasBinaries(table, v, b);
    var start, ready := Initial(table, Spec1(v)), ReadyCluster(table, v);
    BecomesReady(table, v);
    ConsiderateLeads(start, ready);
    var w1 := Admits(ready, b);
    Then(start, ready, w1);
    var w2 := UpgradeIsPossible(w1, LUCK);
    Then(start, w1, w2);
    w := Admits(w2, a);
    Then(start, w2, w);
  }

  lemma {:induction false} SingleOffersNeverDowngrade(table: seq<Image>, spec: Spec, es: seq<Event>)
    requires SingleOffers(table) && spec.nodes >= 1 && Legal(Initial(table, spec), es)
    ensures !Downgrade(Project(After(Initial(table, spec), es).status))
  {
    ClusterOffers(table, spec, es);
  }

  // No run of a cluster with this table, with any edits, admits an upgrade that does not raise the version.
  ghost predicate NeverDowngrades(table: seq<Image>) {
    forall spec: Spec, es :: spec.nodes >= 1 && Legal(Initial(table, spec), es) ==>
      !Downgrade(Project(After(Initial(table, spec), es).status))
  }

  lemma TwoOffersAreTooMany(table: seq<Image>, v: int, a: int, b: int)
    requires a in Offered(table, v) && b in Offered(table, v) && a < b && a != 0 && b != 0
    ensures !NeverDowngrades(table)
  {
    var w := TwoOffersDowngradeACluster(table, v, a, b);
    var es :| Legal(Initial(table, Spec1(v)), es) && After(Initial(table, Spec1(v)), es) == w;
    assert Spec1(v).nodes >= 1;
  }

  /** No run admits a downgrade, exactly for the tables that offer each version at most one upgrade. */
  lemma NoDowngradeExactlyIfSingle(table: seq<Image>)
    requires Nonzero(table)
    ensures SingleOffers(table) <==> NeverDowngrades(table)
  {
    if SingleOffers(table) {
      forall spec: Spec, es | spec.nodes >= 1 && Legal(Initial(table, spec), es)
        ensures !Downgrade(Project(After(Initial(table, spec), es).status))
      {
        SingleOffersNeverDowngrade(table, spec, es);
      }
    } else {
      var v, a, b :| a in Offered(table, v) && b in Offered(table, v) && a != b;
      TwoOffersAreTooMany(table, v, if a < b then a else b, if a < b then b else a);
    }
  }

  // ----- an inconsiderate edit

  // A second node has been asked for; its pod runs with a copy of the database, but the reconcile that saw to it has
  // not ended.
  function Growing(table: seq<Image>, v: int): World {
    var s := Spec(false, v, 2);
    ReadyCluster(table, v).(spec := s, seen := s, told := Some(1), sts := Some(Sts(2, v)), pods := map[0 := v, 1 := v],
                            vols := map[0 := Database(v), 1 := Database(v)])
  }

  lemma Grows(table: seq<Image>, v: int)
    requires Lookup(table, v).Some?
    ensures LeadsConsiderately(Initial(table, Spec1(v)), Growing(table, v))
  {
    var start, w := Initial(table, Spec1(v)), ReadyCluster(table, v);
    var s := Spec(false, v, 2);
    BecomesReady(table, v);
    StepConsiderately(start, w, Env(EditSpec(s)));
    var w1 := EnvStep(w, EditSpec(s));
    StepConsiderately(start, w1, Op(Fetch));
    assert Apply(w1, Fetch) == w.(spec := s, seen := s, told := None);
    var w2 := w.(spec := s, seen := s, told := None);
    SecondPodIsAskedFor(start, w2, v);
    SecondPodClones(start, w2.(sts := Some(Sts(2, v)), told := Some(1), vols := map[0 := Database(v), 1 := EMPTY]), v);
  }

  lemma SecondPodIsAskedFor(start: World, w: World, v: int)
    requires LeadsConsiderately(start, w) && w.status.state == Ready && w.status.upgradeVersion == 0
        && w.status.version == v
    requires w.seen == Spec(false, v, 2) && w.vols == map[0 := Database(v)]
    ensures LeadsConsiderately(start,
        w.(sts := Some(Sts(2, v)), told := Some(w.ready), vols := map[0 := Database(v), 1 := EMPTY]))
  {
    StepConsiderately(start, w, Op(NewClaim(1)));
    var w1 := w.(vols := map[0 := Database(v), 1 := EMPTY]);
    assert Apply(w, NewClaim(1)) == w1;
    ReplicasAreAskedFor(start, w1, Sts(2, v));
  }

  lemma SecondPodClones(start: World, w: World, v: int)
    requires LeadsConsiderately(start, w) && w.sts == Some(Sts(2, v)) && w.leader == Some(0) && w.pods == map[0 := v]
    requires w.vols == map[0 := Database(v), 1 := EMPTY]
    ensures LeadsConsiderately(start, w.(pods := map[0 := v, 1 := v], vols := map[0 := Database(v), 1 := Database(v)]))
  {
    StepConsiderately(start, w, Env(StartPod(1)));
    var w1 := EnvStep(w, StartPod(1));
    assert w1 == w.(pods := map[0 := v, 1 := v]);
    DatabaseIsCopied(start, w1, v);
  }

  lemma DatabaseIsCopied(start: World, w: World, v: int)
    requires LeadsConsiderately(start, w) && w.leader == Some(0) && w.pods == map[0 := v, 1 := v]
    requires w.vols == map[0 := Database(v), 1 := EMPTY]
    ensures LeadsConsiderately(start, w.(vols := map[0 := Database(v), 1 := Database(v)]))
  {
    StepConsiderately(start, w, Env(Clone(1, true, LUCK)));
    assert EnvStep(w, Clone(1, true, LUCK)).vols == map[0 := Database(v), 1 := Database(v)];
  }

  /** The guard cannot be dropped. With every table that offers an upgrade there is a run in which all edits are
      considerate, but for one that asks for the upgrade while the status lists fewer claims than the spec has nodes;
      and that run ends with a database asked to run that meets a volume of the old version. */
  lemma UnguardedEditBreaksTheData(table: seq<Image>, v: int, b: int) returns (w: World, s: Spec, w': World)
    requires b in Offered(table, v) && b != 0
    ensures LeadsConsiderately(Initial(table, Spec1(v)), w)
    ensures s == w.spec.(version := b) && w.status.volumes != w.spec.nodes && !Considerate(w, EditSpec(s))
    ensures Leads(EnvStep(w, EditSpec(s)), w') && !Consistent(w')
  {
    OfferedHasBinaries(table, v, b);
    Grows(table, v);
    w := Growing(table, v);
    s := w.spec.(version := b);
    w' := AdmittedAsked(w, s);
  }

  // The upgrade that the edit s of w brings about, up to the point where postupgrade asks for the database.
  lemma AdmittedAsked(w: World, s: Spec) returns (w': World)
    requires Lean(w) && w.status.state == Ready && w.status.upgradeVersion == 0 && w.status.volumes == 1
    requires s == w.spec.(version := s.version) && s.nodes >= 1
    requires s.version in w.status.upgradeVersions && s.version != w.status.version && s.version != 0
    requires w.sts.Some? && w.sts.value.template == w.status.version && w.leader == Some(0) && PrimaryReady(w)
        && VersionOf(Vol(w, 1).data) == Some(w.status.version)
    ensures Leads(EnvStep(w, EditSpec(s)), w') && !Consistent(w')
  {
    var w0 := EnvStep(w, EditSpec(s));
    var admitted := w.status.(upgradeVersion := s.version);
    Stay(w0);
    Runs.Step(w0, w0, Op(Fetch));
    var w1 := Apply(w0, Fetch);
    Runs.Step(w0, w1, Op(Persist(admitted)));
    var w2 := w.(spec := s, seen := s, told := None, status := admitted);
    assert Apply(w1, Persist(admitted)) == w2;
    w' := AskedAtLast(w2);
    Then(w0, w2, w');
  }

  lemma AskedAtLast(w: World) returns (w': World)
    requires Upgradable(w) && w.status.volumes == 1 && w.seen.nodes >= 1
    requires VersionOf(Vol(w, 1).data) == Some(w.status.version)
    ensures Leads(w, w') && !Consistent(w')
  {
    var w1 := ReachesPostupgrade(w, LUCK);
    var ask := PutSts(Sts(w.seen.nodes, w1.status.version));
    Runs.Step(w, w1, Op(ask));
    w' := Apply(w1, ask);
    assert Vol(w', 1) == Vol(w, 1);
    assert !Agrees(Vol(w', 1).data, w.status.upgradeVersion, w'.config.initialize.value);
  }
}
