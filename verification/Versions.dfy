/** Which upgrades can be admitted, over all runs and all edits of the wanted
    version. The offers in the status are refreshed only by an ordinary reconcile
    that ends Ready, so right after an upgrade they are still the old version's. */
module Versions {
  import opened Base
  import opened Images
  import opened World
  import opened Protocol
  import opened Stability

  datatype Phase = Unborn | Resting(ready: bool) | Going(moved: bool)

  // What admission depends on.
  datatype Policy = Policy(phase: Phase, version: int, target: int, offers: seq<int>)

  function Project(s: Status): Policy {
    var phase :=
      if s.state.Fresh? then Unborn
      else if s.upgradeVersion == 0 then Resting(s.state == Ready)
      else Going(s.state == Upgrading(Postupgrade));
    Policy(phase, s.version, s.upgradeVersion, s.upgradeVersions)
  }

  // One write of the status: initialization, an ordinary reconcile, an admission, the move, the end.
  predicate Step(table: seq<Image>, p: Policy, p': Policy) {
    || p' == p
    || match p.phase
       case Unborn => Lookup(table, p'.version).Some? && p' == Policy(Resting(false), p'.version, 0, [])
       case Resting(ready) =>
         || (p'.phase.Resting?
             && p' == p.(phase := p'.phase, offers := if p'.phase.ready then Offered(table, p.version) else p.offers))
         || (ready && p' == p.(phase := Going(false), target := p'.target)
             && p'.target in p.offers && p'.target != p.version && p'.target != 0)
       case Going(moved) =>
         p' == if moved then p.(phase := Resting(true), target := 0) else p.(phase := Going(true), version := p.target)
  }

  const UNBORN: Policy := Policy(Unborn, 0, 0, [])

  // Every event of the cluster is a step, or none, for the policy.
  lemma ClusterFollowsPolicy(w: World, e: Event)
    requires Inv(w) && (e.Op? ==> Allowed(w, e.c))
    ensures Step(w.table, Project(w.status), Project(Next(w, e).status))
    ensures Next(w, e).table == w.table
  {
    match e
    case Env(a) => EnvStepIsLater(w, a);
    case Op(c) =>
      if c.Persist? { PersistFollowsPolicy(w, c.next); } else { OtherCallsKeepStatus(w, c); }
  }

  lemma OtherCallsKeepStatus(w: World, c: Call)
    requires !c.Persist?
    ensures Apply(w, c).status == w.status && Apply(w, c).table == w.table
  {
  }

  lemma PersistFollowsPolicy(w: World, s: Status)
    requires StatusOk(w) && MayPersist(w, s)
    requires w.status.state.Fresh? ==> w.status.upgradeVersion == 0
    ensures Step(w.table, Project(w.status), Project(s))
  {
  }

  // An upgrade to a version that is not higher has been admitted.
  predicate Downgrade(p: Policy) {
    p.phase == Going(false) && p.target <= p.version
  }

  // No version is offered two different upgrades.
  ghost predicate SingleOffers(table: seq<Image>) {
    forall v, a, b :: a in Offered(table, v) && b in Offered(table, v) ==> a == b
  }

  // The offers are the version's own, or those of a version from which it was reached.
  ghost predicate OffersOk(table: seq<Image>, p: Policy) {
    && (p.phase.Unborn? ==> p == UNBORN)
    && (p.phase == Going(false) ==>
        p.offers == Offered(table, p.version) && p.target in p.offers && p.target > p.version)
    && (|| p.offers == []
        || p.offers == Offered(table, p.version)
        || (p.version in p.offers && forall x :: x in p.offers ==> x == p.version))
  }

  lemma StepKeepsOffers(table: seq<Image>, p: Policy, p': Policy)
    requires SingleOffers(table) && OffersOk(table, p) && Step(table, p, p')
    ensures OffersOk(table, p')
    ensures p'.version < p.version ==> p.phase.Unborn?
  {
    if p'.phase == Going(false) && p.phase.Resting? {
      OfferedHasBinaries(table, p.version, p'.target);
    } else if p'.phase == Going(true) && p.phase == Going(false) {
      assert forall x :: x in p.offers ==> x in Offered(table, p.version) && x == p.target;
    }
  }

  // 0 stands for "no upgrade" in the status, so a table must not list it.
  ghost predicate Nonzero(table: seq<Image>) {
    forall v :: 0 !in Offered(table, v)
  }

  // ----- the cluster

  lemma {:induction false} ClusterOffers(table: seq<Image>, spec: Spec, es: seq<Event>)
    requires SingleOffers(table) && spec.nodes >= 1 && Legal(Initial(table, spec), es)
    ensures var w := After(Initial(table, spec), es);
            w.table == table && OffersOk(table, Project(w.status))
  {
    if es != [] {
      var front := es[..|es| - 1];
      ClusterOffers(table, spec, front);
      InvAlways(table, spec, front);
      ClusterFollowsPolicy(After(Initial(table, spec), front), es[|es| - 1]);
      StepKeepsOffers(table, Project(After(Initial(table, spec), front).status),
          Project(After(Initial(table, spec), es).status));
    }
  }

  /** With such a table the version of a cluster never decreases, and an admitted target is higher than the
      version and runs on the image that runs the version. */
  lemma {:induction false} VersionNeverDecreases(table: seq<Image>, spec: Spec, es: seq<Event>, e: Event)
    requires SingleOffers(table) && spec.nodes >= 1 && Legal(Initial(table, spec), es)
    requires e.Op? ==> Allowed(After(Initial(table, spec), es), e.c)
    ensures var w := After(Initial(table, spec), es);
            && (!w.status.state.Fresh? ==> Next(w, e).status.version >= w.status.version)
            && (w.status.upgradeVersion != 0 && w.status.state != Upgrading(Postupgrade) ==>
                  && w.status.upgradeVersion > w.status.version
                  && Lookup(table, w.status.version).Some?
                  && w.status.upgradeVersion in Lookup(table, w.status.version).value.versions
                  && w.status.version in Lookup(table, w.status.version).value.versions)
  {
    var w := After(Initial(table, spec), es);
    ClusterOffers(table, spec, es);
    InvAlways(table, spec, es);
    ClusterFollowsPolicy(w, e);
    StepKeepsOffers(table, Project(w.status), Project(Next(w, e).status));
    OfferedHasBinaries(table, w.status.version, w.status.upgradeVersion);
  }

  // The shipped table is such a table.
  lemma ShippedIsSingle()
    ensures SingleOffers(SHIPPED) && Nonzero(SHIPPED)
  {
    forall v, a, b | a in Offered(SHIPPED, v) && b in Offered(SHIPPED, v)
      ensures a == b
    {
      OfferedHasBinaries(SHIPPED, v, a);
      OfferedHasBinaries(SHIPPED, v, b);
      ShippedLookup(v);
    }
    forall v
      ensures 0 !in Offered(SHIPPED, v)
    {
      OfferedHasBinaries(SHIPPED, v, 0);
      ShippedLookup(v);
    }
  }

  lemma ShippedLookup(v: int)
    ensures Lookup(SHIPPED, v) ==
        if v == 15 || v == 17 then Some(SHIPPED[1]) else if v == 13 then Some(SHIPPED[0]) else None
  {
    assert SHIPPED[..1] == [SHIPPED[0]];
    assert SHIPPED[..1][..0] == [];
    assert Lookup(SHIPPED, v) == if v in SHIPPED[1].versions then Some(SHIPPED[1]) else Lookup(SHIPPED[..1], v);
    assert Lookup(SHIPPED[..1], v) == if v in SHIPPED[0].versions then Some(SHIPPED[0]) else Lookup([], v);
  }
}
