/** The chain of upgrade handlers that package initialization builds. */
module StageChain {
  import opened Base
  import opened World

  // A handler is known by its name; a step is shared by reference until the chain is complete.
  class UpgradeStep<N(==)> {
    const handler: N
    var next: Option<N>

    constructor (handler: N)
      ensures this.handler == handler && next == None
    {
      this.handler := handler;
      next := None;
    }
  }

  ghost predicate Distinct<N>(hs: seq<N>) {
    forall i, j :: 0 <= i < j < |hs| ==> hs[i] != hs[j]
  }

  // `steps` are the steps of the first |steps| handlers of hs, each linked to the step after it.
  ghost predicate Chain<N>(steps: seq<UpgradeStep<N>>, hs: seq<N>)
    reads steps
  {
    && |steps| <= |hs|
    && forall i :: 0 <= i < |steps| ==> steps[i].handler == hs[i] && steps[i].next == Linked(hs, i, |steps|)
  }

  // The link of step i when the first k handlers have their steps.
  function Linked<N>(hs: seq<N>, i: nat, k: nat): Option<N> {
    if i + 1 < k && k <= |hs| then Some(hs[i + 1]) else None
  }

  // The map in which the steps were entered one after the other.
  ghost function Entered<N>(steps: seq<UpgradeStep<N>>, hs: seq<N>): map<N, UpgradeStep<N>>
    requires |steps| <= |hs|
  {
    if steps == [] then map[]
    else Entered(steps[..|steps| - 1], hs)[hs[|steps| - 1] := steps[|steps| - 1]]
  }

  // The map holds the steps under their handlers' names.
  ghost predicate Holds<N(!new)>(m: map<N, UpgradeStep<N>>, steps: seq<UpgradeStep<N>>, hs: seq<N>) {
    && |steps| == |hs|
    && (forall i :: 0 <= i < |steps| ==> hs[i] in m && m[hs[i]] == steps[i])
    && (forall h :: h in m ==> h in hs)
  }

  lemma {:induction false} EnteredAt<N(!new)>(steps: seq<UpgradeStep<N>>, hs: seq<N>, i: nat)
    requires i < |steps| <= |hs| && Distinct(hs)
    ensures hs[i] in Entered(steps, hs) && Entered(steps, hs)[hs[i]] == steps[i]
  {
    if i < |steps| - 1 {
      EnteredAt(steps[..|steps| - 1], hs, i);
    }
  }

  lemma {:induction false} EnteredOnly<N(!new)>(steps: seq<UpgradeStep<N>>, hs: seq<N>, h: N)
    requires |steps| <= |hs| && h in Entered(steps, hs)
    ensures h in hs
  {
    if steps != [] && h != hs[|steps| - 1] {
      EnteredOnly(steps[..|steps| - 1], hs, h);
    }
  }

  lemma EnteredHolds<N(!new)>(steps: seq<UpgradeStep<N>>, hs: seq<N>)
    requires |steps| == |hs| && Distinct(hs)
    ensures Holds(Entered(steps, hs), steps, hs)
  {
    forall i | 0 <= i < |steps|
      ensures hs[i] in Entered(steps, hs) && Entered(steps, hs)[hs[i]] == steps[i]
    {
      EnteredAt(steps, hs, i);
    }
    forall h | h in Entered(steps, hs)
      ensures h in hs
    {
      EnteredOnly(steps, hs, h);
    }
  }

  lemma EnteredOneMore<N>(steps: seq<UpgradeStep<N>>, hs: seq<N>, step: UpgradeStep<N>)
    requires |steps| < |hs|
    ensures Entered(steps + [step], hs) == Entered(steps, hs)[hs[|steps|] := step]
  {
    assert (steps + [step])[..|steps|] == steps;
  }

  // One turn of the loop: the step before, if any, gets its link, and the next handler gets a step.
  method Extend<N(==)>(last: UpgradeStep?<N>, ghost steps: seq<UpgradeStep<N>>, ghost hs: seq<N>, h: N)
      returns (step: UpgradeStep<N>)
    requires Chain(steps, hs) && |steps| < |hs| && h == hs[|steps|]
    requires if steps == [] then last == null else last == steps[|steps| - 1]
    requires forall i :: 0 <= i < |steps| - 1 ==> hs[i] != hs[|steps| - 1]
    modifies last
    ensures fresh(step) && step.handler == h
    ensures Chain(steps + [step], hs)
  {
    ghost var n := |steps|;
    forall i | 0 <= i < n - 1
      ensures steps[i] != steps[n - 1]
    {
      assert steps[i].handler == hs[i] && steps[n - 1].handler == hs[n - 1];
    }
    if last != null {
      last.next := Some(h);
    }
    step := new UpgradeStep(h);
  }

  // init: each step is put into the map, and its link is set when the next handler comes
  method Init<N(==, !new)>(handlers: seq<N>)
      returns (upgrademap: map<N, UpgradeStep<N>>, ghost steps: seq<UpgradeStep<N>>)
    requires Distinct(handlers)
    ensures Holds(upgrademap, steps, handlers) && Chain(steps, handlers)
  {
    upgrademap, steps := map[], [];
    var step: UpgradeStep?<N> := null;
    for k := 0 to |handlers|
      invariant |steps| == k && Chain(steps, handlers) && upgrademap == Entered(steps, handlers)
      invariant if k == 0 then step == null else step == steps[k - 1] && fresh(step)
    {
      step := Extend(step, steps, handlers, handlers[k]);
      EnteredOneMore(steps, handlers, step);
      upgrademap := upgrademap[step.handler := step];
      steps := steps + [step];
    }
    EnteredHolds(steps, handlers);
  }

  // ----- what the links mean

  type Links<!N(==)> = map<N, Option<N>>

  ghost predicate LinksOf<N(!new)>(links: Links<N>, hs: seq<N>) {
    && (forall i {:trigger Linked(hs, i, |hs|)} :: 0 <= i < |hs| ==>
        hs[i] in links && links[hs[i]] == Linked(hs, i, |hs|))
    && (forall h :: h in links ==> h in hs)
  }

  // The links as Handle reads them.
  method Read<N(==, !new)>(upgrademap: map<N, UpgradeStep<N>>, ghost steps: seq<UpgradeStep<N>>, ghost hs: seq<N>)
      returns (links: Links<N>)
    requires Holds(upgrademap, steps, hs) && Chain(steps, hs)
    ensures LinksOf(links, hs)
  {
    links := map h | h in upgrademap :: upgrademap[h].next;
  }

  // Package initialization, seen from Handle.
  method UpgradeMap<N(==, !new)>(handlers: seq<N>) returns (links: Links<N>)
    requires Distinct(handlers)
    ensures LinksOf(links, handlers)
  {
    var upgrademap;
    ghost var steps;
    upgrademap, steps := Init(handlers);
    links := Read(upgrademap, steps, handlers);
  }

  // The handlers met by following at most n links.
  function Walk<N(==)>(links: Links<N>, from: Option<N>, n: nat): (visited: seq<N>)
    decreases n
  {
    if n == 0 || from.None? || from.value !in links then []
    else [from.value] + Walk(links, links[from.value], n - 1)
  }

  /** From the handler at any position the links visit the rest of the list, each handler once and in order,
      and then end, however many links one is willing to follow. */
  lemma {:induction false} WalkVisitsTheRest<N(!new)>(links: Links<N>, hs: seq<N>, i: nat, n: nat)
    requires LinksOf(links, hs) && i <= |hs| && n >= |hs| - i
    ensures Walk(links, if i < |hs| then Some(hs[i]) else None, n) == hs[i..]
    decreases n
  {
    if i < |hs| {
      var next := Linked(hs, i, |hs|);
      assert links[hs[i]] == next;
      WalkVisitsTheRest(links, hs, i + 1, n - 1);
      assert hs[i..] == [hs[i]] + hs[i + 1..];
    }
  }

  // The handlers of an upgrade by the state they return from name().
  const HANDLERS: seq<Stage> := [Preupgrade, PreScaledown, Sync, Scaledown, Primary, Secondaries, PrimaryMove,
      Postupgrade]

  function IndexOf(k: Stage): (i: nat)
    ensures i < |HANDLERS| && HANDLERS[i] == k
  {
    match k
    case Preupgrade => 0
    case PreScaledown => 1
    case Sync => 2
    case Scaledown => 3
    case Primary => 4
    case Secondaries => 5
    case PrimaryMove => 6
    case Postupgrade => 7
  }

  lemma HandlersAreDistinct()
    ensures Distinct(HANDLERS)
  {
    forall i | 0 <= i < |HANDLERS|
      ensures IndexOf(HANDLERS[i]) == i
    {
    }
  }

  /** The handlers have distinct names, although one scale-down handler embeds the other, and from the first of
      them the links visit every stage of an upgrade once and end. */
  lemma UpgradeVisitsEveryStage(links: Links<Stage>, n: nat, k: Stage)
    requires LinksOf(links, HANDLERS) && n >= 8
    ensures Distinct(HANDLERS) && k in HANDLERS
    ensures Walk(links, Some(Preupgrade), n) == HANDLERS
  {
    HandlersAreDistinct();
    WalkVisitsTheRest(links, HANDLERS, 0, n);
    assert HANDLERS[0..] == HANDLERS;
    assert HANDLERS[IndexOf(k)] == k;
  }

  // The link Handle follows from stage k.
  lemma LinksFollow(links: Links<Stage>, k: Stage)
    requires LinksOf(links, HANDLERS)
    ensures k in links && links[k] == if k == Postupgrade then None else Some(Follow(k))
  {
    var next := Linked(HANDLERS, IndexOf(k), |HANDLERS|);
    assert links[k] == next;
  }
}
