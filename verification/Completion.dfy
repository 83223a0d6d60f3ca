/** Whole upgrades, reconcile by reconcile: with no errors, and an environment that settles between reconciles, an
    upgrade ends within a number of reconciles that depends only on how often jobs fail. */
module Completion {
  import opened Base
  import opened World
  import opened Protocol
  import opened Rounds
  import opened Stability
  import opened Images
  import opened Progress
  import opened Setbacks

  /** A sequence of clusters, each seen by one undisturbed reconcile; between two reconciles only the environment
      acts, and it has come to rest by the next, with every job at its end, one way or the other. */
  ghost predicate Good(ws: seq<World>, nodes: nat) {
    && (forall i :: 0 <= i < |ws| && ws[i].status.upgradeVersion != 0 ==> AtRest(ws[i], nodes))
    && (forall i :: 0 < i < |ws| ==> Later(ReconcileRound(ws[i - 1]).0, ws[i]))
  }

  lemma {:induction false} GoodTail(ws: seq<World>, nodes: nat)
    requires Good(ws, nodes) && |ws| > 1
    ensures Good(ws[1..], nodes)
  {
  }

  // A job of w' has failed since w.
  ghost predicate Fails(w: World, w': World) {
    exists name :: Trouble(w', name) && !Trouble(w, name)
  }

  ghost predicate Clean(w: World) {
    forall name :: !Trouble(w, name)
  }

  // Between how many reconciles jobs fail, and whether one has failed before the first.
  ghost function Failures(ws: seq<World>): nat {
    if ws == [] then 0 else (if Clean(ws[0]) then 0 else 1) + LaterFailures(ws)
  }

  ghost function LaterFailures(ws: seq<World>): nat {
    if |ws| <= 1 then 0
    else (if Fails(ReconcileRound(ws[0]).0, ws[1]) then 1 else 0) + LaterFailures(ws[1..])
  }

  // At rest a cluster with a failed job can be read as far as that job.
  lemma AtRestIsReached(w: World, nodes: nat, name: JobName)
    requires AtRest(w, nodes) && Trouble(w, name)
    ensures Reached(w, name) && w.status.state == Upgrading(StageOf(name))
  {
    assert EndedJob(w, name) && JobOk(w, name);
  }

  // A failed job is seen by one reconcile only.
  lemma NoFailureIsSeenTwice(w: World, next: World, nodes: nat)
    requires AtRest(w, nodes) && AtRest(next, nodes) && Later(ReconcileRound(w).0, next)
    requires w.status.upgradeVersion != 0
    ensures Clean(next) || Fails(ReconcileRound(w).0, next)
  {
    forall name | Trouble(next, name)
      ensures !Trouble(ReconcileRound(w).0, name)
    {
      SeenFailureIsNew(w, next, nodes, name);
    }
  }

  lemma SeenFailureIsNew(w: World, next: World, nodes: nat, name: JobName)
    requires AtRest(w, nodes) && AtRest(next, nodes) && Later(ReconcileRound(w).0, next)
    requires w.status.upgradeVersion != 0 && Trouble(next, name)
    ensures !Trouble(ReconcileRound(w).0, name)
  {
    var w' := ReconcileRound(w).0;
    assert JobLater(w', next, name) && EndedJob(next, name) && EndedJob(w, name);
    JobsAfterRound(w);
    assert JobCarried(w, w', name);
    if Trouble(w', name) {
      AtRestIsReached(w, nodes, name);
      FailureIsAnswered(w, name);
    }
  }

  // A reconcile that meets a failed job puts the upgrade back by one reconcile at most.
  lemma FailureCostsOne(w: World, next: World, nodes: nat)
    requires AtRest(w, nodes) && !Clean(w) && Later(ReconcileRound(w).0, next)
    ensures next.status == w.status && w.status.upgradeVersion != 0
    ensures Rank(next, nodes) <= Rank(w, nodes) + 1
  {
    var name :| Trouble(w, name);
    AtRestIsReached(w, nodes, name);
    FailureIsAnswered(w, name);
    if InStage(w, Postupgrade) {
      ReplicasAreAskedFor(w, nodes);
    }
  }

  lemma ReplicasAreAskedFor(w: World, nodes: nat)
    requires AtRest(w, nodes) && InStage(w, Postupgrade) && ReconcileRound(w).1
    ensures Replicas(ReconcileRound(w).0) == nodes
  {
    var w0 := Apply(w, Fetch);
    assert PostupgradeRound(w0, nodes).w.sts == Some(Sts(nodes, w.status.version));
  }

  /** The upgrade reaches Ready at its target within Rank + 1 reconciles and two more for each time that jobs fail,
      whatever the number of nodes. */
  lemma {:induction false} UpgradeEnds(ws: seq<World>, nodes: nat, f: nat)
    requires Good(ws, nodes) && |ws| > 0 && ws[0].status.upgradeVersion != 0 && Failures(ws) <= f
    requires |ws| > Rank(ws[0], nodes) + 1 + 2 * f
    ensures exists i :: 0 <= i <= Rank(ws[0], nodes) + 1 + 2 * f && AtGoal(ws[i], ws[0].status.upgradeVersion)
    decreases |ws|
  {
    var w, w', goal := ws[0], ReconcileRound(ws[0]).0, ws[0].status.upgradeVersion;
    assert Later(w', ws[1]);
    var g := f;
    if Clean(w) {
      CleanIsSettled(w, nodes);
      RoundAdvances(w, nodes);
      if AtGoal(w', goal) {
        assert AtGoal(ws[1], goal);
        return;
      }
      RankLater(w', ws[1], nodes);
    } else {
      FailureCostsOne(w, ws[1], nodes);
      g := f - 1;
    }
    assert AtRest(ws[1], nodes);
    NoFailureIsSeenTwice(w, ws[1], nodes);
    GoodTail(ws, nodes);
    UpgradeEnds(ws[1..], nodes, g);
    var i :| 0 <= i <= Rank(ws[1], nodes) + 1 + 2 * g && AtGoal(ws[1..][i], goal);
    assert ws[1..][i] == ws[i + 1];
  }

  lemma CleanIsSettled(w: World, nodes: nat)
    requires AtRest(w, nodes) && Clean(w)
    ensures Settled(w, nodes)
  {
    forall name
      ensures GoodJob(w, name)
    {
      assert EndedJob(w, name) && !Trouble(w, name);
    }
  }

  /** That is within 18 reconciles, if no job fails. */
  lemma {:induction false} RankIsBounded(w: World, nodes: nat, f: nat)
    ensures Rank(w, nodes) <= 17
    ensures forall ws: seq<World> ::
              Good(ws, nodes) && |ws| > 18 + 2 * f && ws[0] == w && w.status.upgradeVersion != 0
              && Failures(ws) <= f ==>
                exists i :: 0 <= i <= 18 + 2 * f && AtGoal(ws[i], w.status.upgradeVersion)
  {
    forall ws: seq<World> | Good(ws, nodes) && |ws| > 18 + 2 * f && ws[0] == w && w.status.upgradeVersion != 0
        && Failures(ws) <= f
      ensures exists i :: 0 <= i <= 18 + 2 * f && AtGoal(ws[i], w.status.upgradeVersion)
    {
      UpgradeEnds(ws, nodes, f);
    }
  }

  /** From the user's edit to the end: a ready cluster whose spec asks for an offered version is Ready at that
      version within 19 reconciles and two more for each time that jobs fail. */
  lemma {:induction false} EditedClusterIsUpgraded(ws: seq<World>, nodes: nat, f: nat)
    requires Good(ws, nodes) && |ws| > 19 + 2 * f && LaterFailures(ws) <= f
    requires ws[0].status.state == Ready && ws[0].status.upgradeVersion == 0 && !ws[0].spec.ignore
    requires ws[0].spec.version in ws[0].status.upgradeVersions && ws[0].spec.version != ws[0].status.version
    requires ws[0].spec.version != 0 && Lookup(ws[0].table, ws[0].status.version).Some?
    requires ws[0].status.volumes > 1 ==> ws[0].leader.Some?
    ensures exists i :: 0 <= i <= 19 + 2 * f && AtGoal(ws[i], ws[0].spec.version)
  {
    var goal := ws[0].spec.version;
    assert Later(ReconcileRound(ws[0]).0, ws[1]);
    IsAdmitted(ws[0]);
    GoodTail(ws, nodes);
    NothingFailsWhenReady(ws[1], nodes);
    UpgradeEnds(ws[1..], nodes, f);
    var i :| 0 <= i <= 18 + 2 * f && AtGoal(ws[1..][i], goal);
    assert ws[1..][i] == ws[i + 1];
  }

  lemma IsAdmitted(w: World)
    requires w.status.state == Ready && w.status.upgradeVersion == 0 && !w.spec.ignore
    requires w.spec.version in w.status.upgradeVersions && w.spec.version != w.status.version
    requires Lookup(w.table, w.status.version).Some? && (w.status.volumes > 1 ==> w.leader.Some?)
    ensures ReconcileRound(w).0.status == w.status.(upgradeVersion := w.spec.version)
  {
  }

  lemma NothingFailsWhenReady(w: World, nodes: nat)
    requires AtRest(w, nodes) && w.status.state == Ready
    ensures Clean(w)
  {
    forall name
      ensures !Trouble(w, name)
    {
      assert JobOk(w, name);
    }
  }
}
