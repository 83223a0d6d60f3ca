/** Runs that exist: what the operator and the environment can bring about from a cluster. */
module Runs {
  import opened Volumes
  import opened Scripts
  import opened World
  import Leader
  import Replica

  // Some legal run leads from w to w'.
  ghost predicate Leads(w: World, w': World) {
    exists es :: Legal(w, es) && After(w, es) == w'
  }

  lemma Stay(w: World)
    ensures Leads(w, w)
  {
    assert Legal(w, []) && After(w, []) == w;
  }

  lemma Step(w: World, w1: World, e: Event)
    requires Leads(w, w1) && (e.Op? ==> Allowed(w1, e.c))
    ensures Leads(w, Next(w1, e))
  {
    var es :| Legal(w, es) && After(w, es) == w1;
    assert (es + [e])[..|es|] == es;
    assert Legal(w, es + [e]) && After(w, es + [e]) == Next(w1, e);
  }

  lemma {:induction false} Join(w: World, xs: seq<Event>, ys: seq<Event>)
    requires Legal(w, xs) && Legal(After(w, xs), ys)
    ensures Legal(w, xs + ys) && After(w, xs + ys) == After(After(w, xs), ys)
  {
    if ys == [] {
      assert xs + ys == xs;
    } else {
      var front := ys[..|ys| - 1];
      Join(w, xs, front);
      assert (xs + ys)[..|xs + ys| - 1] == xs + front;
    }
  }

  lemma Then(w: World, w1: World, w2: World)
    requires Leads(w, w1) && Leads(w1, w2)
    ensures Leads(w, w2)
  {
    var xs :| Legal(w, xs) && After(w, xs) == w1;
    var ys :| Legal(w1, ys) && After(w1, ys) == w2;
    Join(w, xs, ys);
  }

  // All pods stop.
  lemma {:induction false} PodsStop(w: World)
    ensures Leads(w, w.(pods := map[]))
    decreases |w.pods|
  {
    Stay(w);
    if w.pods == map[] {
      assert w.(pods := map[]) == w;
    } else {
      var i :| i in w.pods;
      var w1 := EnvStep(w, StopPod(i));
      Step(w, w, Env(StopPod(i)));
      assert w1.pods.Keys == w.pods.Keys - {i};
      assert |w1.pods.Keys| < |w.pods.Keys|;
      PodsStop(w1);
      Then(w, w1, w1.(pods := map[]));
    }
  }

  // ----- scripts left alone

  // A job whose pod has not been started, on a claim that exists.
  predicate Created(w: World, name: JobName) {
    && name in w.jobs && !w.jobs[name].task.Helper? && w.jobs[name].pod.Idle? && !w.jobs[name].deleting
    && w.jobs[name].task.vol in w.vols
  }

  predicate Running(w: World, name: JobName) {
    Active(w, name) && !w.jobs[name].deleting
  }

  lemma JobStarts(w: World, name: JobName)
    requires Created(w, name)
    ensures var w1 := EnvStep(w, StartJob(name));
            && Leads(w, w1) && Running(w1, name)
            && w1 == w.(jobs := w.jobs[name := w.jobs[name].(pod := At(Entry(w.jobs[name].task)))])
  {
    Stay(w);
    Step(w, w, Env(StartJob(name)));
  }

  // One command of the job's script.
  lemma JobRuns(w: World, name: JobName, c: Chance)
    requires Running(w, name)
    ensures var t := w.jobs[name].task;
            Leads(w, Land(w, name, Run(w.vols[t.vol], w.jobs[name].pod.pc, t, Served(w), c)))
  {
    Stay(w);
    Step(w, w, Env(RunJob(name, c)));
  }

  // What a pod that has not ended leaves does not show once it has moved on.
  lemma LandTwice(w: World, name: JobName, r: Effect, r': Effect)
    requires Running(w, name) && r.pod.At?
    ensures Running(Land(w, name, r), name)
    ensures Land(Land(w, name, r), name, r') == Land(w, name, r')
  {
    var w1 := Land(w, name, r);
    assert w1.jobs[name := w1.jobs[name].(pod := r'.pod)] == w.jobs[name := w.jobs[name].(pod := r'.pod)];
    assert w1.vols[w.jobs[name].task.vol := r'.vol] == w.vols[w.jobs[name].task.vol := r'.vol];
  }

  lemma {:induction false} UpgradeRunsOut(w: World, c: Chance)
    requires Running(w, UpJob) && w.jobs[UpJob].task.Upgrade?
    ensures var t := w.jobs[UpJob].task;
            var m := Leader.UpgradeRunOut(Leader.Node(w.vols[t.vol], w.jobs[UpJob].pod), t, c);
            Leads(w, Land(w, UpJob, Effect(m.x, m.pod)))
    decreases Leader.UpgradeRank(w.jobs[UpJob].pod.pc)
  {
    var t := w.jobs[UpJob].task;
    var n := Leader.Node(w.vols[t.vol], w.jobs[UpJob].pod);
    var r := Run(w.vols[t.vol], w.jobs[UpJob].pod.pc, t, Served(w), c);
    JobRuns(w, UpJob, c);
    assert Leader.Next(n, Leader.Command(c), t) == Leader.Node(r.vol, r.pod);
    if r.pod.At? {
      var w1 := Land(w, UpJob, r);
      var m := Leader.UpgradeRunOut(n, t, c);
      LandTwice(w, UpJob, r, Effect(m.x, m.pod));
      UpgradeRunsOut(w1, c);
      Then(w, w1, Land(w, UpJob, Effect(m.x, m.pod)));
    }
  }

  lemma {:induction false} MoveRunsOut(w: World, c: Chance)
    requires Running(w, MoveJob) && w.jobs[MoveJob].task.Move?
    ensures var t := w.jobs[MoveJob].task;
            var m := Leader.MoveRunOut(Leader.Node(w.vols[t.vol], w.jobs[MoveJob].pod), t, c);
            Leads(w, Land(w, MoveJob, Effect(m.x, m.pod)))
    decreases Leader.MoveRank(w.jobs[MoveJob].pod.pc)
  {
    var t := w.jobs[MoveJob].task;
    var n := Leader.Node(w.vols[t.vol], w.jobs[MoveJob].pod);
    var r := Run(w.vols[t.vol], w.jobs[MoveJob].pod.pc, t, Served(w), c);
    JobRuns(w, MoveJob, c);
    assert Leader.Next(n, Leader.Command(c), t) == Leader.Node(r.vol, r.pod);
    if r.pod.At? {
      var w1 := Land(w, MoveJob, r);
      var m := Leader.MoveRunOut(n, t, c);
      LandTwice(w, MoveJob, r, Effect(m.x, m.pod));
      MoveRunsOut(w1, c);
      Then(w, w1, Land(w, MoveJob, Effect(m.x, m.pod)));
    }
  }

  // The conversion of replica i, while the daemon serves another volume.
  lemma {:induction false} ConvertRunsOut(w: World, i: nat, c: Chance)
    requires Running(w, SupJob(i)) && w.jobs[SupJob(i)].task.Convert? && w.jobs[SupJob(i)].task.vol == i
    requires w.streamer.Some? && w.streamer.value != i
    ensures var t := w.jobs[SupJob(i)].task;
            var m := Replica.RunOut(Replica.Node(w.vols[i], w.jobs[SupJob(i)].pod), t, Vol(w, w.streamer.value), c);
            Leads(w, Land(w, SupJob(i), Effect(m.x, m.pod)))
    decreases Replica.Rank(w.jobs[SupJob(i)].pod.pc)
  {
    var t := w.jobs[SupJob(i)].task;
    var src := Vol(w, w.streamer.value);
    var n := Replica.Node(w.vols[i], w.jobs[SupJob(i)].pod);
    var r := Run(w.vols[i], w.jobs[SupJob(i)].pod.pc, t, Served(w), c);
    JobRuns(w, SupJob(i), c);
    assert Replica.Next(n, Replica.Command(true, c), t, src) == Replica.Node(r.vol, r.pod);
    if r.pod.At? {
      var w1 := Land(w, SupJob(i), r);
      var m := Replica.RunOut(n, t, src, c);
      LandTwice(w, SupJob(i), r, Effect(m.x, m.pod));
      RankDrops(n, t, src, c);
      ConvertRunsOut(w1, i, c);
      Then(w, w1, Land(w, SupJob(i), Effect(m.x, m.pod)));
    }
  }

  lemma RankDrops(n: Replica.Node, t: Task, src: Volume, c: Chance)
    requires t.Convert? && n.pod.At?
    ensures var m := Replica.Next(n, Replica.Command(true, c), t, src);
            m.pod.At? ==> Replica.Rank(m.pod.pc) < Replica.Rank(n.pod.pc)
  {
  }
}
