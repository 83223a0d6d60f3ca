/** The lives of a pod: its script's commands until it is killed, and the restarts of a container
    with restart policy OnFailure. What Leader and Replica say of every run holds of them. */
module Lives {
  import opened Base
  import opened Volumes
  import opened Scripts
  import Leader
  import Replica

  // What happens while one command runs; `serving`: the rsync daemon of the primary answers.
  datatype Moment = Moment(serving: bool, chance: Chance)

  // A pod completes one command in each of `moments`; `end` is when it is killed, if it still runs.
  datatype Life = Life(moments: seq<Moment>, end: Moment)

  // The steps of Scripts from pc on, until the script ends or the pod is killed.
  function Lifetime(x: Volume, pc: Pc, t: Task, src: Volume, life: Life, at: nat): Effect
    requires at <= |life.moments|
    decreases |life.moments| - at
  {
    if at == |life.moments| then
      Effect(Interrupt(x, pc, t, Replica.Source(src, life.end.serving), life.end.chance), Idle)
    else
      var r := Run(x, pc, t, Replica.Source(src, life.moments[at].serving), life.moments[at].chance);
      if r.pod.At? then Lifetime(r.vol, r.pod.pc, t, src, life, at + 1) else r
  }

  // Restart policy OnFailure: a new pod for every one that was killed or failed.
  function Restarts(x: Volume, t: Task, src: Volume, lives: seq<Life>): Effect
    requires !t.Helper?
    decreases |lives|
  {
    if lives == [] then Effect(x, Idle)
    else
      var r := Lifetime(x, Entry(t), t, src, lives[0], 0);
      if r.pod.Finished? then r else Restarts(r.vol, t, src, lives[1..])
  }

  // Without data.new the script fails at the next copy or at the rename, and leaves the volume as it is.
  lemma NothingToPublish(x: Volume, k: nat, t: Task, src: Volume, life: Life, at: nat)
    requires t.Convert? && x.dataNew.Absent? && at <= |life.moments|
    ensures Lifetime(x, SRestore(k), t, src, life, at) == Effect(x, Idle)
  {
    if at < |life.moments| {
      assert Lifetime(x, SPublish, t, src, life, at + 1) == Effect(x, Idle);
    }
  }

  lemma {:induction false} LifetimeEnds(x: Volume, pc: Pc, t: Task, src: Volume, life: Life, at: nat)
    requires at <= |life.moments|
    ensures !Lifetime(x, pc, t, src, life, at).pod.At?
    decreases |life.moments| - at
  {
    if at < |life.moments| {
      var r := Run(x, pc, t, Replica.Source(src, life.moments[at].serving), life.moments[at].chance);
      if r.pod.At? { LifetimeEnds(r.vol, r.pod.pc, t, src, life, at + 1); }
    }
  }

  // ----- the runs of Replica and Leader

  ghost predicate ReplicaGets(x: Volume, t: Task, src: Volume, n: Replica.Node)
    requires t.Convert?
  {
    exists es :: Replica.After(Replica.Node(x, Idle), es, t, src) == n
  }

  lemma ReplicaGoesOn(x: Volume, t: Task, src: Volume, n: Replica.Node, e: Replica.Event)
    requires t.Convert? && ReplicaGets(x, t, src, n)
    ensures ReplicaGets(x, t, src, Replica.Next(n, e, t, src))
  {
    var es :| Replica.After(Replica.Node(x, Idle), es, t, src) == n;
    Replica.Snoc(Replica.Node(x, Idle), es, e, t, src);
  }

  lemma {:induction false} LifetimeIsReplicaRun(x0: Volume, x: Volume, pc: Pc, t: Task, src: Volume, life: Life,
      at: nat)
    requires t.Convert? && at <= |life.moments| && ReplicaGets(x0, t, src, Replica.Node(x, At(pc)))
    ensures var r := Lifetime(x, pc, t, src, life, at);
            ReplicaGets(x0, t, src, Replica.Node(r.vol, r.pod))
    decreases |life.moments| - at
  {
    var n := Replica.Node(x, At(pc));
    if at == |life.moments| {
      ReplicaGoesOn(x0, t, src, n, Replica.Kill(life.end.serving, life.end.chance));
    } else {
      var e := Replica.Command(life.moments[at].serving, life.moments[at].chance);
      ReplicaGoesOn(x0, t, src, n, e);
      var m := Replica.Next(n, e, t, src);
      if m.pod.At? { LifetimeIsReplicaRun(x0, m.x, m.pod.pc, t, src, life, at + 1); }
    }
  }

  lemma {:induction false} RestartsAreReplicaRuns(x0: Volume, x: Volume, t: Task, src: Volume, lives: seq<Life>)
    requires t.Convert? && ReplicaGets(x0, t, src, Replica.Node(x, Idle))
    ensures var r := Restarts(x, t, src, lives);
            ReplicaGets(x0, t, src, Replica.Node(r.vol, r.pod))
    decreases |lives|
  {
    if lives != [] {
      ReplicaGoesOn(x0, t, src, Replica.Node(x, Idle), Replica.Start);
      LifetimeIsReplicaRun(x0, x, SCheck, t, src, lives[0], 0);
      LifetimeEnds(x, SCheck, t, src, lives[0], 0);
      var r := Lifetime(x, SCheck, t, src, lives[0], 0);
      if !r.pod.Finished? { RestartsAreReplicaRuns(x0, r.vol, t, src, lives[1..]); }
    }
  }

  /** secondary-upgrade, restarted after any kills at any commands: data.new.done is whole whenever it exists,
      and an exit 0 leaves data absent or whole. */
  lemma SecondaryScriptIsCrashSafe(x: Volume, t: Task, src: Volume, lives: seq<Life>)
    requires Replica.ConversionTask(t, src) && Replica.Fresh(x, t)
    ensures var r := Restarts(x, t, src, lives);
            && (r.vol.done.Present? ==> IsDatabase(r.vol.done, t.after, t.id))
            && (r.pod.Finished? ==> Replica.Settled(r.vol, t.after, t.id))
  {
    assert Replica.After(Replica.Node(x, Idle), [], t, src) == Replica.Node(x, Idle);
    RestartsAreReplicaRuns(x, x, t, src, lives);
    var r := Restarts(x, t, src, lives);
    var es :| Replica.After(Replica.Node(x, Idle), es, t, src) == Replica.Node(r.vol, r.pod);
    Replica.ConversionIsCrashSafe(x, es, t, src);
  }

  ghost predicate LeaderGets(x: Volume, t: Task, n: Leader.Node)
    requires t.Upgrade? || t.Move?
  {
    exists es :: Leader.After(Leader.Node(x, Idle), es, t) == n
  }

  lemma LeaderGoesOn(x: Volume, t: Task, n: Leader.Node, e: Leader.Event)
    requires (t.Upgrade? || t.Move?) && LeaderGets(x, t, n)
    ensures LeaderGets(x, t, Leader.Next(n, e, t))
  {
    var es :| Leader.After(Leader.Node(x, Idle), es, t) == n;
    Leader.Snoc(Leader.Node(x, Idle), es, e, t);
  }

  // A leader's script does not look at the rsync daemon.
  lemma DaemonIsIrrelevant(x: Volume, pc: Pc, t: Task, src: Option<Volume>, c: Chance)
    requires (t.Upgrade? || t.Move?) && InProgram(pc, t)
    ensures Run(x, pc, t, src, c) == Run(x, pc, t, None, c)
    ensures Interrupt(x, pc, t, src, c) == Interrupt(x, pc, t, None, c)
    ensures var r := Run(x, pc, t, None, c); r.pod.At? ==> InProgram(r.pod.pc, t)
  {
  }

  lemma {:induction false} LifetimeIsLeaderRun(x0: Volume, x: Volume, pc: Pc, t: Task, src: Volume, life: Life, at: nat)
    requires t.Upgrade? || t.Move?
    requires InProgram(pc, t) && at <= |life.moments| && LeaderGets(x0, t, Leader.Node(x, At(pc)))
    ensures var r := Lifetime(x, pc, t, src, life, at);
            LeaderGets(x0, t, Leader.Node(r.vol, r.pod))
    decreases |life.moments| - at
  {
    var n := Leader.Node(x, At(pc));
    if at == |life.moments| {
      DaemonIsIrrelevant(x, pc, t, Replica.Source(src, life.end.serving), life.end.chance);
      LeaderGoesOn(x0, t, n, Leader.Kill(life.end.chance));
    } else {
      DaemonIsIrrelevant(x, pc, t, Replica.Source(src, life.moments[at].serving), life.moments[at].chance);
      var e := Leader.Command(life.moments[at].chance);
      LeaderGoesOn(x0, t, n, e);
      var m := Leader.Next(n, e, t);
      if m.pod.At? { LifetimeIsLeaderRun(x0, m.x, m.pod.pc, t, src, life, at + 1); }
    }
  }

  lemma {:induction false} RestartsAreLeaderRuns(x0: Volume, x: Volume, t: Task, src: Volume, lives: seq<Life>)
    requires (t.Upgrade? || t.Move?) && LeaderGets(x0, t, Leader.Node(x, Idle))
    ensures var r := Restarts(x, t, src, lives);
            LeaderGets(x0, t, Leader.Node(r.vol, r.pod))
    decreases |lives|
  {
    if lives != [] {
      LeaderGoesOn(x0, t, Leader.Node(x, Idle), Leader.Start);
      LifetimeIsLeaderRun(x0, x, Entry(t), t, src, lives[0], 0);
      LifetimeEnds(x, Entry(t), t, src, lives[0], 0);
      var r := Lifetime(x, Entry(t), t, src, lives[0], 0);
      if !r.pod.Finished? { RestartsAreLeaderRuns(x0, r.vol, t, src, lives[1..]); }
    }
  }

  /** primary-upgrade, restarted after any kills: the volume holds the old database or its successor, and
      an exit 0 names the successor and prints the old checkpoint or nothing. */
  lemma PrimaryScriptIsCrashSafe(x: Volume, t: Task, id: string, src: Volume, lives: seq<Life>)
    requires t.Upgrade? && Leader.Untouched(x, t.before, id)
    ensures var r := Restarts(x, t, src, lives);
            && Leader.UpgradeOk(r.vol, t.before, t.after, id)
            && (r.pod.Finished? ==>
                  && Leader.Converted(r.vol, t.before, t.after)
                  && exists ckpt :: (ckpt == "" || ckpt == CheckpointOf(x.data))
                      && r.pod.output == Upgraded(ckpt, SysIdOf(r.vol.dataNew)))
  {
    assert Leader.After(Leader.Node(x, Idle), [], t) == Leader.Node(x, Idle);
    RestartsAreLeaderRuns(x, x, t, src, lives);
    var r := Restarts(x, t, src, lives);
    var es :| Leader.After(Leader.Node(x, Idle), es, t) == Leader.Node(r.vol, r.pod);
    Leader.UpgradeIsCrashSafe(x, es, t, id);
    if r.pod.Finished? {
      assert r.pod.output == Upgraded(r.pod.output.oldCheckpoint, SysIdOf(r.vol.dataNew));
    }
  }

  /** primary-upgrade-move, restarted after any kills, keeps the database in data.new or in place, and an exit 0
      means it is in place. */
  lemma MoveScriptIsCrashSafe(x: Volume, t: Task, after: int, id: string, src: Volume, lives: seq<Life>)
    requires t.Move? && Leader.MoveOk(x, after, id)
    ensures var r := Restarts(x, t, src, lives);
            Leader.MoveOk(r.vol, after, id) && (r.pod.Finished? ==> Leader.Moved(r.vol, after, id))
  {
    assert Leader.After(Leader.Node(x, Idle), [], t) == Leader.Node(x, Idle);
    RestartsAreLeaderRuns(x, x, t, src, lives);
    var r := Restarts(x, t, src, lives);
    var es :| Leader.After(Leader.Node(x, Idle), es, t) == Leader.Node(r.vol, r.pod);
    var c := Chance("", "", map[], false, false, false, false, false, {});
    Leader.MoveIsCrashSafeAndRecovers(x, es, t, after, id, c);
  }
}
