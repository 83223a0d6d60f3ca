/** From stage primary until postupgrade asks for the database: what holds of the listed volumes
    over every run, and that the new identifier is recorded once. */
module Downtime {
  import opened Base
  import opened Volumes
  import opened World
  import opened Protocol
  import opened Stability
  import opened Safety
  import opened Histories
  import Leader

  // ----- the listed volumes

  // The data invariant of the listed volumes, from stage primary to the scale-up.
  ghost predicate ListedOk(w: World) {
    && (Converting(w) ==> StageOk(w))
    && (AboutToServe(w) ==> ListedHome(w))
  }

  lemma OfflineJobStep(w: World, a: Action)
    requires Inv(w) && AboutToServe(w)
    ensures EnvStep(w, a).vols == w.vols && EnvStep(w, a).leader == w.leader && EnvStep(w, a).config == w.config
  {
    PatroniIdles(w, a);
    if a.RunJob? || a.KillJob? || a.FailJob? {
      assert JobOk(w, a.name);
    }
  }

  lemma HomeStays(w: World, w': World)
    requires ListedHome(w) && SameData(w, w')
    ensures ListedHome(w')
  {
    assert forall i: nat :: HomeVol(w, i) ==> HomeVol(w', i);
  }

  lemma EnvKeepsListedOk(w: World, a: Action)
    requires Inv(w) && Offline(w) && ListedOk(w)
    ensures ListedOk(EnvStep(w, a))
  {
    EnvStepIsLater(w, a);
    if Converting(w) {
      EnvKeepsStage(w, a);
    } else {
      OfflineJobStep(w, a);
      HomeStays(w, EnvStep(w, a));
    }
  }

  lemma PersistKeepsListedOk(w: World, s: Status)
    requires Inv(w) && Converting(w) && StageOk(w) && MayPersist(w, s) && s != w.status
    ensures ListedOk(Apply(w, Persist(s)))
  {
    NoJobsLeft(w, s);
    var k := w.status.state.stage;
    var w' := Apply(w, Persist(s));
    assert w' == w.(status := Advance(w.status, k), finished := map[]);
    match k {
      case Primary => EnterSecondaries(w, w');
      case Secondaries => EnterMove(w, w');
      case _ => LeaveMove(w, w');
    }
  }

  lemma CallKeepsListedOk(w: World, c: Call)
    requires Inv(w) && Offline(w) && ListedOk(w) && Allowed(w, c) && Offline(Apply(w, c))
    ensures ListedOk(Apply(w, c))
  {
    if c.Persist? {
      if c.next == w.status {
        assert Apply(w, c) == w;
      } else {
        PersistKeepsListedOk(w, c.next);
      }
    } else if AboutToServe(w) {
      HomeStays(w, Apply(w, c));
    } else if c.PutDbId? {
      PutDbIdKeepsStage(w, c.id);
    } else if c.PutCheckpoint? {
      PutCheckpointKeepsStage(w, c.checkpoint);
    } else {
      BlindCallKeepsStage(w, c);
    }
  }

  lemma {:induction false} ListedStayOk(w: World, es: seq<Event>)
    requires Inv(w) && InStage(w, Primary) && PrimaryOk(w) && Legal(w, es) && StaysOffline(w, es)
    ensures Inv(After(w, es)) && ListedOk(After(w, es))
  {
    InvAfter(w, es);
    if es != [] {
      StaysOfflineFront(w, es);
      ListedStayOk(w, es[..|es| - 1]);
      match es[|es| - 1]
      case Env(a) => EnvKeepsListedOk(After(w, es[..|es| - 1]), a);
      case Op(c) => CallKeepsListedOk(After(w, es[..|es| - 1]), c);
    }
  }

  // ----- the recorded identifier

  // pg_upgrade has made the database id, and that is what is recorded.
  predicate Identified(w: World, id: string) {
    && w.config.initialize == Some(id)
    && (InStage(w, Primary) ==>
          var x := Vol(w, Target(w));
          Leader.Converted(x, w.status.version, w.status.upgradeVersion) && SysIdOf(x.dataNew) == id)
  }

  lemma EnvKeepsIdentified(w: World, a: Action, id: string)
    requires Inv(w) && Offline(w) && ListedOk(w) && Identified(w, id)
    ensures Identified(EnvStep(w, a), id)
  {
    EnvStepIsLater(w, a);
    PatroniIdles(w, a);
    if InStage(w, Primary) && (a.RunJob? || a.KillJob? || a.FailJob?) && Active(w, a.name) {
      assert JobOk(w, a.name) && PrimaryOk(w);
      var t := w.jobs[UpJob].task;
      Leader.RunKeepsUpgrade(w.vols[t.vol], w.jobs[UpJob].pod.pc, t, id, a.chance);
      Leader.InterruptKeepsUpgrade(w.vols[t.vol], w.jobs[UpJob].pod.pc, t, id, a.chance);
    }
  }

  lemma CallKeepsIdentified(w: World, c: Call, id: string)
    requires Inv(w) && Offline(w) && ListedOk(w) && Allowed(w, c) && Identified(w, id)
    ensures Identified(Apply(w, c), id)
  {
    OfflineCallKeepsTarget(w, c);
  }

  /** Replaying stage primary is harmless to the identifier: once the leader is converted and its new identifier is
      recorded, no run changes the record before postupgrade asks for pods, whatever jobs are created again. */
  lemma {:induction false} IdentifierIsRecordedOnce(w: World, es: seq<Event>)
    requires Inv(w) && InStage(w, Primary) && PrimaryOk(w)
    requires Leader.Converted(Vol(w, Target(w)), w.status.version, w.status.upgradeVersion)
    requires w.config.initialize == Some(SysIdOf(Vol(w, Target(w)).dataNew))
    requires Legal(w, es) && StaysOffline(w, es)
    ensures After(w, es).config.initialize == w.config.initialize
    ensures Identified(After(w, es), w.config.initialize.value)
  {
    if es != [] {
      var front := es[..|es| - 1];
      StaysOfflineFront(w, es);
      IdentifierIsRecordedOnce(w, front);
      ListedStayOk(w, front);
      match es[|es| - 1]
      case Env(a) => EnvKeepsIdentified(After(w, front), a, w.config.initialize.value);
      case Op(c) => CallKeepsIdentified(After(w, front), c, w.config.initialize.value);
    }
  }
}
