/** Which edits of the spec keep the data safe. The guard is on the user's edits, and after
    a scale-in on Patroni's choice of a leader; what the operator does is never restricted. */
module Edits {
  import opened Base
  import opened Images
  import opened World
  import opened Scripts
  import opened Volumes
  import opened Protocol
  import opened Stability
  import opened Safety

  // ----- the guard

  // The status lists one claim for each node of the spec, and no claim and no replica asked for lies beyond them.
  ghost predicate Level(w: World) {
    w.status.volumes == w.spec.nodes && Listed(w)
  }

  /** An edit changes the version or the number of nodes only while the status lists as many claims as the spec
      has nodes and nothing lies beyond (or, on a cluster whose status lists none yet, while it takes no node
      away). The number of nodes changes only while no upgrade is under way or asked for, and not so as to cut off
      the leader. Patroni makes no pod the leader that the spec has no node for. */
  ghost predicate Considerate(w: World, a: Action) {
    match a
    case EditSpec(s) =>
      || (s.nodes == w.spec.nodes && s.version == w.spec.version)
      || (w.status.volumes == 0 && w.spec.nodes <= s.nodes)
      || (Level(w) && (s.nodes == w.spec.nodes || MayResize(w, s)))
    case Elect(i) => i in w.pods ==> i < w.spec.nodes
    case Bootstrap(i, _) => i in w.pods ==> i < w.spec.nodes
    case _ => true
  }

  predicate MayResize(w: World, s: Spec) {
    && w.status.upgradeVersion == 0 && s.version == w.status.version
    && (w.leader.Some? ==> w.leader.value < s.nodes)
  }

  ghost predicate ConsiderateRun(w: World, es: seq<Event>) {
    es == [] ||
    (&& ConsiderateRun(w, es[..|es| - 1])
     && (es[|es| - 1].Env? ==> Considerate(After(w, es[..|es| - 1]), es[|es| - 1].a)))
  }

  // ----- what considerate edits keep

  ghost predicate AllBelow(w: World, n: nat) {
    && Replicas(w) <= n
    && forall i :: i in w.vols ==> i < n
  }

  // An upgrade is under way, or the spec asks for one.
  predicate Asked(w: World) {
    w.status.upgradeVersion != 0 || w.spec.version != w.status.version
  }

  /** Claims, replicas and leader against the nodes of the spec, of the spec the operator has in memory, and of the
      status. */
  ghost predicate Sized(w: World) {
    var n, m, v := w.spec.nodes, w.seen.nodes, w.status.volumes;
    && (w.status.state.Fresh? ==> v == 0)
    && (w.status.state.Ready? || w.status.state.Upgrading? ==> v != 0)
    && (w.leader.Some? ==> w.leader.value < n && w.leader.value < m)
    && (if v == 0 then
          m <= n && AllBelow(w, m)
        else if v == n then
          m == n && (Asked(w) ==> Listed(w))
        else
          !Asked(w) && (m == v || m == n) && (m == v && v < n ==> AllBelow(w, v)))
  }

  // With such sizes every call is orderly.
  lemma SizedIsOrderly(w: World, e: Event)
    requires Inv(w) && Sized(w) && (e.Op? ==> Allowed(w, e.c))
    ensures Orderly(w, e)
  {
  }

  // Claims come and go only as StartPod, NewClaim and DropClaim say.
  lemma EnvGrows(w: World, a: Action)
    requires Inv(w)
    ensures var w' := EnvStep(w, a);
            && w'.status == w.status && w'.seen == w.seen && w'.sts == w.sts
            && (forall i :: i in w'.vols ==> i in w.vols || i < Replicas(w))
            && (w'.spec == w.spec || (a.EditSpec? && a.spec.nodes >= 1 && w' == w.(spec := a.spec)))
            && (w'.leader == w.leader
                || ((a.Elect? || a.Bootstrap?) && a.i in w.pods && a.i in w.vols && w'.leader == Some(a.i)))
  {
    PatroniGrows(w, a);
    JobStepFrame(w, a);
  }

  lemma PatroniGrows(w: World, a: Action)
    requires PodsOk(w)
    ensures var w' := PatroniStep(w, a);
            && w'.status == w.status && w'.seen == w.seen && w'.sts == w.sts && w'.spec == w.spec
            && (forall i :: i in w'.vols ==> i in w.vols || i < Replicas(w))
            && (w'.leader == w.leader
                || ((a.Elect? || a.Bootstrap?) && a.i in w.pods && a.i in w.vols && w'.leader == Some(a.i)))
  {
  }

  lemma EnvKeepsSized(w: World, a: Action)
    requires Inv(w) && Sized(w) && Considerate(w, a)
    ensures Sized(EnvStep(w, a))
  {
    EnvGrows(w, a);
  }

  lemma PersistKeepsSized(w: World, s: Status)
    requires Inv(w) && Sized(w) && Allowed(w, Persist(s))
    ensures Sized(Apply(w, Persist(s)))
  {
  }

  lemma CallKeepsSized(w: World, c: Call)
    requires Inv(w) && Sized(w) && Allowed(w, c)
    ensures Sized(Apply(w, c))
  {
    if c.Persist? { PersistKeepsSized(w, c.next); }
  }

  /** Considerate edits make every run orderly, whatever the operator, the jobs and the faults do. */
  lemma {:induction false} ConsiderateIsOrderly(table: seq<Image>, spec: Spec, es: seq<Event>)
    requires spec.nodes >= 1 && Legal(Initial(table, spec), es) && ConsiderateRun(Initial(table, spec), es)
    ensures OrderlyRun(Initial(table, spec), es) && Sized(After(Initial(table, spec), es))
  {
    if es != [] {
      var front := es[..|es| - 1];
      var w := After(Initial(table, spec), front);
      ConsiderateIsOrderly(table, spec, front);
      InvAlways(table, spec, front);
      SizedIsOrderly(w, es[|es| - 1]);
      match es[|es| - 1]
      case Env(a) => EnvKeepsSized(w, a);
      case Op(c) => CallKeepsSized(w, c);
    }
  }

  /** In every state of every run with considerate edits, a database that is asked to run finds its version and its
      identity on every volume, and the leader's volume holds a whole database. */
  lemma {:induction false} DataIsSafeIfConsiderate(table: seq<Image>, spec: Spec, es: seq<Event>)
    requires spec.nodes >= 1 && Legal(Initial(table, spec), es) && ConsiderateRun(Initial(table, spec), es)
    ensures Consistent(After(Initial(table, spec), es)) && NothingLost(After(Initial(table, spec), es))
  {
    ConsiderateIsOrderly(table, spec, es);
    OrderlyRunsAreSafe(table, spec, es);
  }

  /** In such runs a conversion comes to rsync only on a replica that is at the last checkpoint of the leader's old
      database: the checkpoint that primary-upgrade reported, that was recorded, and that the job was given. */
  lemma {:induction false} RsyncOnlyWhenCaughtUp(table: seq<Image>, spec: Spec, es: seq<Event>, i: nat)
    requires spec.nodes >= 1 && Legal(Initial(table, spec), es) && ConsiderateRun(Initial(table, spec), es)
    requires var w := After(Initial(table, spec), es);
             SupJob(i) in w.jobs && w.jobs[SupJob(i)].pod == At(SRsync)
    ensures var w := After(Initial(table, spec), es);
            && CaughtUpWith(Vol(w, i).data, Vol(w, Target(w)).data)
            && Copied(Vol(w, i).data, Vol(w, Target(w))) == Vol(w, Target(w)).dataNew
  {
    ConsiderateIsOrderly(table, spec, es);
    SafeAlways(table, spec, es);
    RsyncIsExact(After(Initial(table, spec), es), i);
  }

  // ----- edits that keep the number of nodes

  ghost predicate FixedSize(w: World, n: nat) {
    && w.spec.nodes == n && w.seen.nodes == n
    && (w.status.volumes == 0 || w.status.volumes == n)
    && AllBelow(w, n)
  }

  lemma EnvKeepsFixedSize(w: World, a: Action, n: nat)
    requires Inv(w) && FixedSize(w, n) && (a.EditSpec? ==> a.spec.nodes == n)
    ensures FixedSize(EnvStep(w, a), n) && Considerate(w, a)
  {
    EnvGrows(w, a);
  }

  lemma CallKeepsFixedSize(w: World, c: Call, n: nat)
    requires Inv(w) && FixedSize(w, n) && Allowed(w, c)
    ensures FixedSize(Apply(w, c), n)
  {
  }

  lemma {:induction false} FixedIsConsiderate(table: seq<Image>, spec: Spec, es: seq<Event>)
    requires spec.nodes >= 1 && Legal(Initial(table, spec), es) && NodesKept(es, spec.nodes)
    ensures ConsiderateRun(Initial(table, spec), es) && FixedSize(After(Initial(table, spec), es), spec.nodes)
  {
    if es != [] {
      var front := es[..|es| - 1];
      FixedIsConsiderate(table, spec, front);
      InvAlways(table, spec, front);
      var w := After(Initial(table, spec), front);
      match es[|es| - 1]
      case Env(a) => EnvKeepsFixedSize(w, a, spec.nodes);
      case Op(c) => CallKeepsFixedSize(w, c, spec.nodes);
    }
  }

  /** As long as the number of nodes is left alone, with any edits of the version at any time, the data is safe in
      every state of every run. */
  lemma {:induction false} DataIsSafe(table: seq<Image>, spec: Spec, es: seq<Event>)
    requires spec.nodes >= 1 && Legal(Initial(table, spec), es) && NodesKept(es, spec.nodes)
    ensures Consistent(After(Initial(table, spec), es)) && NothingLost(After(Initial(table, spec), es))
  {
    FixedIsConsiderate(table, spec, es);
    DataIsSafeIfConsiderate(table, spec, es);
  }

  // ----- scale-in

  /** Of the claims an ordinary reconcile may delete, exactly the leader's takes the database with it. */
  lemma OnlyTheLeadersClaimMatters(w: World, i: nat)
    requires Inv(w) && Safe(w) && Allowed(w, DropClaim(i)) && w.config.initialize.Some?
    ensures NothingLost(Apply(w, DropClaim(i))) <==> w.leader != Some(i)
  {
    assert AtHome(w);
  }
}
