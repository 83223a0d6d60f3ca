/** The API server as the operator meets it: every call may be refused or lost,
    and the environment may act before any of them. */
module ApiServer {
  import opened Base
  import opened World
  import opened Protocol
  import opened Stability

  lemma LegalSnoc(w: World, es: seq<Event>, e: Event)
    requires Legal(w, es) && (e.Op? ==> Allowed(After(w, es), e.c))
    ensures Legal(w, es + [e]) && After(w, es + [e]) == Next(After(w, es), e)
  {
    assert (es + [e])[..|es|] == es;
  }

  lemma NodesKeptSnoc(es: seq<Event>, e: Event, n: nat)
    requires NodesKept(es, n) && (e.Env? && e.a.EditSpec? ==> e.a.spec.nodes == n)
    ensures NodesKept(es + [e], n)
  {
  }

  /** `w` is the cluster now, `hist` everything that has happened to it since `w0`. The schedule of the
      environment and the faults of the calls are arbitrary: a statement about an Api is
      a statement about every schedule and every pattern of errors and crashes. */
  class Api {
    const schedule: nat -> seq<Action>
    const faults: nat -> Fault
    var tick: nat
    var w: World
    ghost const w0: World
    ghost var hist: seq<Event>

    // Nothing fails and nothing else happens.
    ghost predicate Undisturbed() {
      forall t: nat :: schedule(t) == [] && faults(t) == Fine
    }

    ghost predicate Valid()
      reads this
    {
      && Inv(w) && w.table == w0.table
      && w == After(w0, hist)
      && Legal(w0, hist)
      && (LeavesNodes(schedule, w0.spec.nodes) ==> NodesKept(hist, w0.spec.nodes))
    }

    constructor (schedule: nat -> seq<Action>, faults: nat -> Fault, w: World)
      requires Inv(w)
      ensures Valid() && this.w == w && w0 == w && hist == []
      ensures this.schedule == schedule && this.faults == faults
    {
      this.schedule, this.faults, this.tick, this.w := schedule, faults, 0, w;
      w0, hist := w, [];
    }

    // The environment acts.
    method Interfere()
      requires Valid()
      modifies this
      ensures Valid() && Later(old(w), w) && old(hist) <= hist
      ensures Undisturbed() ==> w == old(w) && hist == old(hist)
    {
      var actions := schedule(tick);
      tick := tick + 1;
      LaterRefl(w);
      for k := 0 to |actions|
        invariant Valid() && Later(old(w), w) && old(hist) <= hist
        invariant actions == [] ==> w == old(w) && hist == old(hist)
      {
        EnvKeepsInv(w, actions[k]);
        EnvStepIsLater(w, actions[k]);
        LaterTrans(old(w), w, EnvStep(w, actions[k]));
        w := EnvStep(w, actions[k]);
        if LeavesNodes(schedule, w0.spec.nodes) { NodesKeptSnoc(hist, Env(actions[k]), w0.spec.nodes); }
        LegalSnoc(w0, hist, Env(actions[k]));
        hist := hist + [Env(actions[k])];
      }
    }

    /** One call. `mid` is the cluster just before the call took effect, or would have. */
    method Do(c: Call) returns (ok: bool, ghost mid: World)
      requires Valid() && Allowed(w, c) && !c.Persist?
      modifies this
      ensures Valid() && old(hist) <= hist
      ensures Inv(mid) && Later(old(w), mid) && Allowed(mid, c)
      ensures w == mid || w == Apply(mid, c)
      ensures ok ==> w == Apply(mid, c)
      ensures Undisturbed() ==> ok && mid == old(w)
    {
      var fault := faults(tick);
      Interfere();
      mid := w;
      AllowedLater(old(w), w, c);
      if fault != Refused {
        TakeEffect(c);
      }
      ok := fault == Fine;
    }

    method TakeEffect(c: Call)
      requires Valid() && Allowed(w, c)
      modifies this
      ensures Valid() && w == Apply(old(w), c) && old(hist) <= hist
    {
      CallKeepsInv(w, c);
      LegalSnoc(w0, hist, Op(c));
      if LeavesNodes(schedule, w0.spec.nodes) { NodesKeptSnoc(hist, Op(c), w0.spec.nodes); }
      w := Apply(w, c);
      hist := hist + [Op(c)];
    }

    // Status().Update: a conflict if the instance has been edited since it was read
    method UpdateStatus(s: Status) returns (ok: bool, ghost mid: World)
      requires Valid() && !w.seen.ignore && MayPersist(w, s)
      modifies this
      ensures Valid() && old(hist) <= hist
      ensures Inv(mid) && Later(old(w), mid)
      ensures w == mid || w == Apply(mid, Persist(s))
      ensures ok ==> w == Apply(mid, Persist(s))
      ensures Undisturbed() ==> mid == old(w) && (old(w).spec == old(w).seen ==> ok)
    {
      var fault := faults(tick);
      Interfere();
      mid := w;
      MayPersistLater(old(w), w, s);
      ok := false;
      if fault != Refused && w.spec == w.seen {
        TakeEffect(Persist(s));
        ok := fault == Fine;
      }
    }

    // A read that may fail.
    method Read() returns (ok: bool)
      requires Valid()
      modifies this
      ensures Valid() && Later(old(w), w) && old(hist) <= hist
      ensures Undisturbed() ==> ok && w == old(w)
    {
      var fault := faults(tick);
      Interfere();
      ok := fault == Fine;
    }

    // Get of a job; None is NotFound.
    method GetJob(name: JobName) returns (ok: bool, job: Option<Job>)
      requires Valid()
      modifies this
      ensures Valid() && Later(old(w), w) && old(hist) <= hist
      ensures ok ==> job == if name in w.jobs then Some(w.jobs[name]) else None
      ensures Undisturbed() ==> ok && w == old(w)
    {
      ok := Read();
      job := if name in w.jobs then Some(w.jobs[name]) else None;
    }

    // Get of the config map.
    method GetConfig() returns (ok: bool, config: Config)
      requires Valid()
      modifies this
      ensures Valid() && Later(old(w), w) && old(hist) <= hist
      ensures ok ==> config == w.config
      ensures Undisturbed() ==> ok && w == old(w)
    {
      ok := Read();
      config := w.config;
    }

    // GetSyncLeader: a one-volume cluster is led by volume 0; `ok` is false without the annotation.
    method GetSyncLeader(volumes: nat) returns (ok: bool, leader: nat)
      requires Valid() && volumes == w.status.volumes
      modifies this
      ensures Valid() && Later(old(w), w) && old(hist) <= hist
      ensures ok ==> leader == Target(w) && (volumes > 1 ==> w.leader.Some?)
      ensures Undisturbed() ==> w == old(w) && (ok <==> (volumes > 1 ==> w.leader.Some?))
    {
      if volumes > 1 {
        ok := Read();
        if ok && w.leader.Some? {
          leader := w.leader.value;
        } else {
          ok, leader := false, 0;
        }
      } else {
        ok, leader := true, 0;
        LaterRefl(w);
      }
    }
  }
}
