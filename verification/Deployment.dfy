/** The operator at work: any number of reconciles of a cluster that starts from
    nothing, with every schedule of the environment and every pattern of failures
    and crashes. */
module Deployment {
  import opened Base
  import opened Images
  import opened World
  import opened Protocol
  import opened ApiServer
  import opened Operator
  import opened StageChain
  import Edits
  import Histories
  import Safety

  // Reconciles of the operator, each by an operator that knows nothing but the API server.
  method Operate(api: Api, registry: map<int, Image>, links: Links<Stage>, n: nat)
    requires api.Valid() && LinksOf(links, HANDLERS)
    requires forall v :: if v in registry then Lookup(api.w.table, v) == Some(registry[v])
        else Lookup(api.w.table, v) == None
    modifies api
    ensures api.Valid() && old(api.hist) <= api.hist
  {
    for k := 0 to n
      invariant api.Valid() && old(api.hist) <= api.hist && api.w.table == old(api.w.table)
    {
      var r := new Reconciler(api, links);
      var err := r.Reconcile(registry);
    }
  }

  /** Everything the operator ever does to a new cluster is a legal run. At every moment, between any two calls, the
      cluster is safe if the edits up to there were considerate; and it is always safe if the user leaves the number
      of nodes alone, whatever versions are asked for and whenever. */
  method Deploy(table: seq<Image>, spec: Spec, schedule: nat -> seq<Action>, faults: nat -> Fault, n: nat)
      returns (w: World, ghost run: seq<Event>)
    requires spec.nodes >= 1
    ensures w == After(Initial(table, spec), run) && Legal(Initial(table, spec), run) && Inv(w)
    ensures forall k :: 0 <= k <= |run| && Edits.ConsiderateRun(Initial(table, spec), run[..k]) ==>
        SafeAt(table, spec, run[..k])
    ensures LeavesNodes(schedule, spec.nodes) ==> forall k :: 0 <= k <= |run| ==> SafeAt(table, spec, run[..k])
  {
    HandlersAreDistinct();
    var links := UpgradeMap(HANDLERS);
    var registry := Register(table);
    InvAlways(table, spec, []);
    var api := new Api(schedule, faults, Initial(table, spec));
    Operate(api, registry, links, n);
    w, run := api.w, api.hist;
    forall k | 0 <= k <= |run|
      ensures Edits.ConsiderateRun(Initial(table, spec), run[..k]) ==> SafeAt(table, spec, run[..k])
      ensures NodesKept(run, spec.nodes) ==> SafeAt(table, spec, run[..k])
    {
      PrefixIsSafe(table, spec, run, k);
    }
  }

  ghost predicate SafeAt(table: seq<Image>, spec: Spec, run: seq<Event>) {
    Safety.Consistent(After(Initial(table, spec), run)) && Safety.NothingLost(After(Initial(table, spec), run))
  }

  lemma PrefixIsSafe(table: seq<Image>, spec: Spec, run: seq<Event>, k: nat)
    requires spec.nodes >= 1 && Legal(Initial(table, spec), run) && k <= |run|
    ensures Edits.ConsiderateRun(Initial(table, spec), run[..k]) ==> SafeAt(table, spec, run[..k])
    ensures NodesKept(run, spec.nodes) ==> SafeAt(table, spec, run[..k])
  {
    Histories.LegalPrefix(Initial(table, spec), run, k);
    if Edits.ConsiderateRun(Initial(table, spec), run[..k]) {
      Edits.DataIsSafeIfConsiderate(table, spec, run[..k]);
    }
    if NodesKept(run, spec.nodes) {
      Edits.DataIsSafe(table, spec, run[..k]);
    }
  }
}
