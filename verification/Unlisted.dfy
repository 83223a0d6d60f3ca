/** What becomes of a volume the status does not list while a cluster is upgraded: the
    upgrade passes it by, and the database that is then asked to run meets it as it was. */
module Unlisted {
  import opened Base
  import opened Volumes
  import opened Scripts
  import opened World
  import opened Protocol
  import opened Stability
  import opened Safety
  import opened Conversion
  import opened Histories
  import opened Downtime

  predicate IsUnlisted(w: World, i: nat) {
    i >= w.status.volumes && i != Target(w)
  }

  lemma OfflineStepLeavesUnlisted(w: World, e: Event, i: nat)
    requires Inv(w) && Offline(w) && (e.Op? ==> Allowed(w, e.c))
    requires IsUnlisted(w, i)
    ensures Vol(Next(w, e), i).data == Vol(w, i).data
    ensures Next(w, e).status.volumes == w.status.volumes && Target(Next(w, e)) == Target(w)
  {
    match e
    case Env(a) =>
      EnvStepIsLater(w, a);
      forall name
        ensures Active(w, name) ==> w.jobs[name].task.vol != i
      {
        assert JobOk(w, name);
      }
      NoPodsNoPatroni(w, a, i);
    case Op(c) =>
      CallLeavesData(w, c, i);
      OfflineCallKeepsTarget(w, c);
  }

  // No conversion job ever touches a volume beyond the listed ones.
  lemma {:induction false} UnlistedIsNeverConverted(w: World, es: seq<Event>, i: nat)
    requires Inv(w) && Legal(w, es) && StaysOffline(w, es)
    requires IsUnlisted(w, i)
    ensures var w' := After(w, es);
            Vol(w', i).data == Vol(w, i).data && w'.status.volumes == w.status.volumes && Target(w') == Target(w)
  {
    if es != [] {
      StaysOfflineFront(w, es);
      UnlistedIsNeverConverted(w, es[..|es| - 1], i);
      InvAfter(w, es[..|es| - 1]);
      OfflineStepLeavesUnlisted(After(w, es[..|es| - 1]), es[|es| - 1], i);
    }
  }

  // ----- the scale-up

  /** However stage primary is left for the scale-up of postupgrade, the database that is then asked to run is
      consistent exactly if what was on the unlisted volumes when stage primary began agrees with the target
      version and the new identifier. */
  lemma {:induction false} ConsistentExactlyIfUnlistedAgree(w: World, es: seq<Event>, s: Sts)
    requires Inv(w) && InStage(w, Primary) && PrimaryOk(w)
    requires Legal(w, es) && StaysOffline(w, es)
    requires AboutToServe(After(w, es)) && Allowed(After(w, es), PutSts(s))
    ensures var served := Apply(After(w, es), PutSts(s));
            && served.config.initialize.Some?
            && (Consistent(served) <==>
                  forall i: nat :: IsUnlisted(w, i) ==>
                    Agrees(Vol(w, i).data, w.status.upgradeVersion, served.config.initialize.value))
  {
    ListedStayOk(w, es);
    OfflineIsOneUpgrade(w, es);
    StagesInOrder(w, es);
    var w' := After(w, es);
    var served := Apply(w', PutSts(s));
    UnlistedIsNeverConverted(w, es, w.status.volumes + Target(w) + 1);
    forall i: nat | IsUnlisted(w, i)
      ensures Vol(served, i).data == Vol(w, i).data
    {
      UnlistedIsNeverConverted(w, es, i);
    }
    assert forall i: nat :: IsUnlisted(w', i) <==> IsUnlisted(w, i);
    ServedExactly(w', served);
  }

  // At the scale-up only the unlisted volumes are in question.
  lemma ServedExactly(w: World, served: World)
    requires Inv(w) && AboutToServe(w) && ListedHome(w)
    requires served == w.(sts := served.sts, told := served.told) && served.sts.Some? && served.sts.value.replicas > 0
    requires served.sts.value.template == w.status.version
    ensures Consistent(served) <==>
              forall i: nat :: IsUnlisted(w, i) ==> Agrees(Vol(w, i).data, w.status.version, w.config.initialize.value)
  {
    forall i: nat
      ensures Vol(served, i) == Vol(w, i)
      ensures IsUnlisted(w, i) || Agrees(Vol(w, i).data, w.status.version, w.config.initialize.value)
    {
      assert IsReplica(w, i) ==> HomeVol(w, i);
    }
  }

  /** If stage primary begins with the old database on a volume the status does not list, every run that
      reaches the scale-up of postupgrade asks for a database that contradicts that volume. */
  lemma {:induction false} UnlistedVolumeBreaksConsistency(w: World, es: seq<Event>, i: nat, s: Sts)
    requires Inv(w) && InStage(w, Primary)
    requires IsUnlisted(w, i) && VersionOf(Vol(w, i).data) == Some(w.status.version)
    requires Legal(w, es) && StaysOffline(w, es)
    requires AboutToServe(After(w, es)) && Allowed(After(w, es), PutSts(s))
    ensures !Consistent(Apply(After(w, es), PutSts(s)))
  {
    var w' := After(w, es);
    UnlistedIsNeverConverted(w, es, i);
    InvAfter(w, es);
    OfflineIsOneUpgrade(w, es);
    StagesInOrder(w, es);
    var w2 := Apply(w', PutSts(s));
    assert Vol(w2, i).data == Vol(w, i).data;
    assert w2.config.initialize.Some? && s.template == w.status.upgradeVersion != w.status.version;
    assert !Agrees(Vol(w2, i).data, s.template, w2.config.initialize.value);
  }

  /** Such a volume is one scale-up away: in stage preupgrade-sync, a reconcile that has read a spec with one node more
      than the status lists asks for its replica, and that lets Patroni copy the old database onto an unlisted
      volume. */
  lemma ScaleUpBeyondTheListMakesOne(w: World, c: Chance)
    requires Inv(w) && Safe(w) && InStage(w, Sync) && w.status.volumes != 1
    requires w.seen.nodes == w.status.volumes + 1 && !w.seen.ignore
    requires w.config.initialize.Some? && w.leader.Some? && w.leader.value in w.pods
    ensures var n := w.status.volumes;
            var ask := PutSts(Sts(n + 1, w.status.version));
            var w' := EnvStep(EnvStep(Apply(w, ask), StartPod(n)), Clone(n, true, c));
            && Allowed(w, ask) && !Orderly(w, Op(ask))
            && w'.status == w.status && n != w.leader.value
            && VersionOf(Vol(w', n).data) == Some(w.status.version)
  {
    var n := w.status.volumes;
    assert Listed(w) && AtHome(w);
    assert w.leader.value in w.vols;
    assert n !in w.pods;
    var w1 := Apply(w, PutSts(Sts(n + 1, w.status.version)));
    var w2 := EnvStep(w1, StartPod(n));
    assert n in w2.pods && Vol(w2, w.leader.value) == Vol(w, w.leader.value);
  }
}
