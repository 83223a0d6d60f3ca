/** Convergence of the volume claims: one claim for each node, by name. */
module Claims {
  import opened Base
  import opened Names

  datatype Call = Create(name: string) | Patch(name: string) | Delete(name: string)

  // The names of the claims of the first n nodes, in order.
  function Needed(cluster: string, n: nat): seq<string> {
    seq(n, (i: nat) => PVCName(cluster, i))
  }

  lemma NeededAreDistinct(cluster: string, n: nat, i: nat, j: nat)
    requires i < j < n
    ensures Needed(cluster, n)[i] != Needed(cluster, n)[j]
  {
    if PVCName(cluster, i) == PVCName(cluster, j) {
      PVCNameIsInjective(cluster, i, cluster, j);
    }
  }

  // The claims of a cluster in the API server, and the calls that took effect.
  class Server {
    const faults: nat -> Fault
    var tick: nat
    var claims: set<string>
    ghost var calls: seq<Call>

    constructor (faults: nat -> Fault, claims: set<string>)
      ensures this.faults == faults && this.claims == claims && calls == []
    {
      this.faults, this.claims, tick := faults, claims, 0;
      calls := [];
    }

    // No call fails.
    ghost predicate Faultless() {
      forall t: nat :: faults(t) == Fine
    }

    // The claims that carry the cluster's labels
    method List() returns (ok: bool, names: set<string>)
      modifies this`tick
      ensures ok ==> names == claims
      ensures Faultless() ==> ok
    {
      ok := faults(tick) == Fine;
      tick := tick + 1;
      names := claims;
    }

    // Create or patch `name`, whichever applies.
    method Put(name: string) returns (ok: bool)
      modifies this
      ensures ok ==> name in claims
      ensures Faultless() ==> ok
      ensures (claims == old(claims) && calls == old(calls))
           || (claims == old(claims) + {name}
               && calls == old(calls) + [if name in old(claims) then Patch(name) else Create(name)])
    {
      var fault := faults(tick);
      tick := tick + 1;
      if fault != Refused {
        calls := calls + [if name in claims then Patch(name) else Create(name)];
        claims := claims + {name};
      }
      ok := fault == Fine;
    }

    // Delete `name`; a claim that is gone already is no error.
    method Remove(name: string) returns (ok: bool)
      modifies this
      ensures ok ==> name !in claims
      ensures Faultless() ==> ok
      ensures (claims == old(claims) && calls == old(calls))
           || (name in old(claims) && claims == old(claims) - {name} && calls == old(calls) + [Delete(name)])
    {
      var fault := faults(tick);
      tick := tick + 1;
      if name !in claims { return fault == Fine; }
      if fault != Refused {
        claims := claims - {name};
        calls := calls + [Delete(name)];
      }
      ok := fault == Fine;
    }
  }

  // No call in `calls` deletes anything.
  ghost predicate NoDeletes(calls: seq<Call>) {
    forall c :: c in calls ==> !c.Delete?
  }

  // Calls that create only what was missing and delete only what is not needed.
  ghost predicate Proper(calls: seq<Call>, before: set<string>, needed: seq<string>) {
    forall c :: c in calls ==>
      && (c.Create? ==> c.name in needed && c.name !in before)
      && (c.Delete? ==> c.name !in needed && c.name in before)
  }

  /** pvc.Reconcile. The map starts with every claim found; what the loop over the nodes does not take out of it is
      deleted. On success the claims are exactly the needed ones and the status lists them in order; whatever
      fails, no needed claim is deleted or created twice, and nothing is deleted before every needed claim is there. */
  method Reconcile(server: Server, cluster: string, nodes: nat) returns (ok: bool, volumeStatuses: seq<string>)
    modifies server
    ensures ok ==> server.claims == (set n | n in Needed(cluster, nodes)) && volumeStatuses == Needed(cluster, nodes)
    ensures server.Faultless() ==> ok
    ensures old(server.calls) <= server.calls
    ensures Proper(server.calls[|old(server.calls)|..], old(server.claims), Needed(cluster, nodes))
    ensures !NoDeletes(server.calls[|old(server.calls)|..]) ==>
              forall n :: n in Needed(cluster, nodes) ==> n in server.claims
    ensures volumeStatuses <= Needed(cluster, nodes)
    ensures server.claims <= old(server.claims) + (set n | n in Needed(cluster, nodes))
    ensures forall n :: n in old(server.claims) && n in Needed(cluster, nodes) ==> n in server.claims
  {
    ghost var calls0, before, needed := server.calls, server.claims, Needed(cluster, nodes);
    volumeStatuses := [];
    var existing;
    ok, existing := server.List();
    if !ok { return; }
    for idx := 0 to nodes
      invariant volumeStatuses == needed[..idx]
      invariant calls0 <= server.calls && NoDeletes(server.calls[|calls0|..])
      invariant Proper(server.calls[|calls0|..], before, needed)
      invariant existing == before - (set n | n in needed[..idx])
      invariant server.claims == before + set n | n in needed[..idx]
    {
      var name := PVCName(cluster, idx);
      assert needed[idx] == name && needed[..idx + 1] == needed[..idx] + [name];
      forall j | 0 <= j < idx
        ensures needed[j] != name
      {
        NeededAreDistinct(cluster, nodes, j, idx);
      }
      existing := existing - {name};
      ok := server.Put(name);
      if !ok { return; }
      volumeStatuses := volumeStatuses + [name];
    }
    assert needed[..nodes] == needed;
    ok := RemoveAll(server, existing, needed, before, calls0);
  }

  // The deleting loop, in whatever order the map is traversed
  method RemoveAll(server: Server, leftover: set<string>, ghost needed: seq<string>, ghost before: set<string>,
      ghost calls0: seq<Call>)
      returns (ok: bool)
    requires leftover == before - (set n | n in needed) && server.claims == before + set n | n in needed
    requires calls0 <= server.calls && Proper(server.calls[|calls0|..], before, needed)
    modifies server
    ensures old(server.calls) <= server.calls
    ensures forall n :: n in needed ==> n in server.claims
    ensures server.claims <= before + set n | n in needed
    ensures Proper(server.calls[|calls0|..], before, needed)
    ensures ok ==> server.claims == set n | n in needed
    ensures server.Faultless() ==> ok
  {
    var existing := leftover;
    ok := true;
    while existing != {}
      invariant existing <= leftover && ok
      invariant server.claims == existing + set n | n in needed
      invariant calls0 <= server.calls && old(server.calls) <= server.calls
      invariant Proper(server.calls[|calls0|..], before, needed)
      decreases existing
    {
      var name :| name in existing;
      ok := server.Remove(name);
      if !ok { return; }
      existing := existing - {name};
    }
  }

  /** A second run on a converged cluster creates and deletes nothing. */
  method ReconcileConverged(server: Server, cluster: string, nodes: nat) returns (ok: bool)
    requires server.claims == set n | n in Needed(cluster, nodes)
    modifies server
    ensures server.claims == old(server.claims) && old(server.calls) <= server.calls
    ensures forall c :: c in server.calls[|old(server.calls)|..] ==> c.Patch?
    ensures server.Faultless() ==> ok
  {
    var volumeStatuses;
    ok, volumeStatuses := Reconcile(server, cluster, nodes);
  }
}
