/** The conversion scripts in their own form: a container that changes the
    directories of its volume command by command and can be cut short at any of
    them, and the kubelet that starts it again. They are proved to take exactly
    the steps of Scripts. */
module Shell {
  import opened Base
  import opened Volumes
  import opened Scripts
  import opened Lives

  class Container {
    var x: Volume        // the mounted data volume
    var at: nat          // commands completed
    const life: Life
    const primary: Volume

    constructor (x: Volume, life: Life, primary: Volume)
      ensures this.x == x && at == 0 && this.life == life && this.primary == primary
    {
      this.x, at, this.life, this.primary := x, 0, life, primary;
    }

    ghost predicate Valid()
      reads this
    {
      at <= |life.moments|
    }

    // What the steps of Scripts make of this container when it stands at pc.
    ghost function Rest(pc: Pc, t: Task): Effect
      reads this
      requires Valid()
    {
      Lifetime(x, pc, t, primary, life, at)
    }

    // The next command: does it complete, and what happens while it runs.
    method Next() returns (alive: bool, now: Moment)
      requires Valid()
      modifies this`at
      ensures Valid()
      ensures alive == (old(at) < |life.moments|)
      ensures now == if alive then life.moments[old(at)] else life.end
      ensures at == if alive then old(at) + 1 else old(at)
    {
      if at == |life.moments| { return false, life.end; }
      alive, now := true, life.moments[at];
      at := at + 1;
    }

    // private/upgrade/upgrade-scripts/primary-upgrade
    method PrimaryUpgrade(t: Task) returns (pod: Pod)
      requires Valid() && t.Upgrade?
      modifies this
      ensures Valid() && old(Rest(PCheck, t)) == Effect(x, pod)
    {
      var ckpt := "";
      var alive, now := Next();
      if !alive || t.id == "" { return Idle; }
      if !Disabled(x.data) {
        if VersionOf(x.data) != Some(t.before) { return Idle; }
        if SysIdOf(x.data) != t.id { return Idle; }
        ckpt := CheckpointOf(x.data);
        var go := Convert(t, ckpt);
        if !go { return Idle; }
      }
      assert Rest(PReport(ckpt), t) == old(Rest(PCheck, t));
      alive, now := Next();
      if !alive { return Idle; }
      return Finished(Upgraded(ckpt, SysIdOf(x.dataNew)));
    }

    // From `rm -rf data.new` to the copies of the configuration files.
    method Convert(t: Task, ckpt: string) returns (go: bool)
      requires Valid() && t.Upgrade?
      modifies this
      ensures Valid()
      ensures old(Rest(PClean(ckpt), t)) == if go then Rest(PReport(ckpt), t) else Effect(x, Idle)
    {
      var alive, now := Next();
      x := x.(dataNew := if alive then Absent else Fragment(x.dataNew, now.chance));
      if !alive { return false; }
      assert Rest(PInit(ckpt), t) == old(Rest(PClean(ckpt), t));

      alive, now := Next();
      var c := now.chance;
      if !alive {
        x := x.(dataNew := Present(if c.keepVersion then Some(t.after) else None, None, None, false, c.conf));
        return false;
      }
      x := x.(dataNew := Present(Some(t.after), Some(Control(c.id, c.checkpoint)), None, false, c.conf));
      assert Rest(PUpgrade(ckpt), t) == old(Rest(PClean(ckpt), t));

      alive, now := Next();
      if !alive { return false; }
      if !now.chance.success || x.data.Absent? || x.data.control.None? {
        x := x.(dataNew := Fragment(x.dataNew, now.chance));
        return false;
      }
      x := x.(data := x.data.(control := None, controlOld := x.data.control), dataNew := x.dataNew.(intact := true));

      go := CopyBack(t, ckpt);
    }

    method CopyBack(t: Task, ckpt: string) returns (go: bool)
      requires Valid() && t.Upgrade? && x.dataNew.Present?
      modifies this
      ensures Valid()
      ensures old(Rest(PConf(ckpt, 0), t)) == if go then Rest(PReport(ckpt), t) else Effect(x, Idle)
    {
      var alive, now;
      for k := 0 to |PRESERVE_FILES|
        invariant Valid() && x.dataNew.Present?
        invariant Rest(PConf(ckpt, k), t) == old(Rest(PConf(ckpt, 0), t))
      {
        alive, now := Next();
        if !alive { return false; }
        var f := PRESERVE_FILES[k];
        if f in ConfOf(x.data) {
          x := x.(dataNew := x.dataNew.(conf := x.dataNew.conf[f := ConfOf(x.data)[f]]));
        }
      }
      alive, now := Next();
      return alive;
    }

    // private/upgrade/upgrade-scripts/secondary-upgrade
    method SecondaryUpgrade(t: Task) returns (pod: Pod)
      requires Valid() && t.Convert?
      modifies this
      ensures Valid() && old(Rest(SCheck, t)) == Effect(x, pod)
    {
      var alive, now := Next();
      if !alive || t.checkpoint == "" || t.id == "" { return Idle; }
      if VersionOf(x.data).None? { return Idle; }
      if SysIdOf(x.data) == t.id && VersionOf(x.data).value == t.after { return Finished(NoOutput); }
      if x.done.Absent? {
        var go := MakeDone(t);
        if !go { return Idle; }
      }
      assert Rest(SRemove, t) == old(Rest(SCheck, t));

      alive, now := Next();
      x := x.(data := if alive then Absent else Fragment(x.data, now.chance));
      if !alive { return Idle; }
      pod := Install(t);
    }

    // The last block: data.new.done, if there is one, takes the place of data.
    method Install(t: Task) returns (pod: Pod)
      requires Valid() && t.Convert?
      modifies this
      ensures Valid() && old(Rest(SForget, t)) == Effect(x, pod)
    {
      var alive, now := Next();
      if x.done.Present? {
        if !alive {
          if x.preserve.Some? {
            var kept := map f | f in x.preserve.value && f in now.chance.keepFiles :: x.preserve.value[f];
            x := x.(preserve := Some(kept));
          }
          return Idle;
        }
        x := x.(preserve := None);
        assert Rest(SInstall, t) == old(Rest(SForget, t));
        alive, now := Next();
        if !alive { return Idle; }
        x := x.(data := x.done, done := Absent);
      } else if !alive {
        return Idle;
      }
      return Finished(NoOutput);
    }

    // Where there is no data.new.done yet.
    method MakeDone(t: Task) returns (go: bool)
      requires Valid() && t.Convert?
      modifies this
      ensures Valid()
      ensures old(Rest(SClean, t)) == if go then Rest(SRemove, t) else Effect(x, Idle)
    {
      var alive, now := Next();
      x := x.(dataNew := if alive then Absent else Fragment(x.dataNew, now.chance));
      if !alive { return false; }
      assert Rest(SCompare, t) == old(Rest(SClean, t));

      alive, now := Next();
      if !alive || VersionOf(x.data).None? { return false; }
      if VersionOf(x.data).value == t.before && CheckpointOf(x.data) == t.checkpoint {
        go := QuickSync(t);
      } else {
        go := true;
      }
    }

    method QuickSync(t: Task) returns (go: bool)
      requires Valid() && t.Convert?
      modifies this
      ensures Valid()
      ensures old(Rest(SWait, t)) == if go then Rest(SRemove, t) else Effect(x, Idle)
    {
      // while ! nc
      var alive, now := Next();
      while alive && !now.serving
        invariant Valid() && at <= old(at) + |life.moments| + 1
        invariant alive ==> at > 0 && now == life.moments[at - 1]
                            && Lifetime(x, SWait, t, primary, life, at - 1) == old(Rest(SWait, t))
        invariant !alive ==> Effect(x, Idle) == old(Rest(SWait, t))
        decreases |life.moments| - at, alive
      {
        alive, now := Next();
      }
      if !alive { return false; }
      x := x.(preserve := if x.preserve.None? then Some(map[]) else x.preserve);
      go := Keep(t);
      if go { go := Fetch(t); }
    }

    // cp data/f data.preserve/f, for the files not there yet.
    method Keep(t: Task) returns (go: bool)
      requires Valid() && t.Convert? && x.preserve.Some?
      modifies this
      ensures Valid() && (go ==> x.preserve.Some?)
      ensures old(Rest(SKeep(0), t)) == if go then Rest(SRsync, t) else Effect(x, Idle)
    {
      var alive, now;
      for k := 0 to |PRESERVE_FILES|
        invariant Valid() && x.preserve.Some?
        invariant Rest(SKeep(k), t) == old(Rest(SKeep(0), t))
      {
        alive, now := Next();
        if !alive { return false; }
        var f := PRESERVE_FILES[k];
        if f in ConfOf(x.data) && f !in x.preserve.value {
          x := x.(preserve := Some(x.preserve.value[f := ConfOf(x.data)[f]]));
        }
      }
      alive, now := Next();
      return alive;
    }

    // rsync, the copies back, and the rename to data.new.done.
    method Fetch(t: Task) returns (go: bool)
      requires Valid() && t.Convert? && x.preserve.Some?
      modifies this
      ensures Valid()
      ensures old(Rest(SRsync, t)) == if go then Rest(SRemove, t) else Effect(x, Idle)
    {
      var alive, now := Next();
      if !now.serving { return false; }
      var c := now.chance;
      if !alive {
        x := x.(data := Overwritten(x.data, primary.data, c), dataNew := Fragment(primary.dataNew, c));
        return false;
      }
      x := x.(data := Overwritten(x.data, primary.data, c.(keepVersion := false, keepControl := false)),
              dataNew := Copied(x.data, primary));
      go := Restore(t);
    }

    method Restore(t: Task) returns (go: bool)
      requires Valid() && t.Convert? && x.preserve.Some?
      modifies this
      ensures Valid()
      ensures old(Rest(SRestore(0), t)) == if go then Rest(SRemove, t) else Effect(x, Idle)
    {
      var alive, now;
      for k := 0 to |PRESERVE_FILES|
        invariant Valid() && x.preserve.Some?
        invariant Rest(SRestore(k), t) == old(Rest(SRestore(0), t))
      {
        if x.dataNew.Absent? { NothingToPublish(x, k, t, primary, life, at); }
        alive, now := Next();
        if !alive { return false; }
        var f := PRESERVE_FILES[k];
        if f in x.preserve.value {
          if x.dataNew.Absent? { return false; }
          x := x.(dataNew := x.dataNew.(conf := x.dataNew.conf[f := x.preserve.value[f]]));
        }
        if x.dataNew.Absent? { NothingToPublish(x, k + 1, t, primary, life, at); }
      }
      alive, now := Next();
      if !alive { return false; }
      assert Rest(SPublish, t) == old(Rest(SRestore(0), t));
      alive, now := Next();
      if !alive || x.dataNew.Absent? { return false; }
      x := x.(dataNew := Absent, done := x.dataNew);
      return true;
    }

    // private/upgrade/upgrade-scripts/primary-upgrade-move
    method PrimaryUpgradeMove(t: Task) returns (pod: Pod)
      requires Valid() && t.Move?
      modifies this
      ensures Valid() && old(Rest(MTest, t)) == Effect(x, pod)
    {
      var alive, now := Next();
      if !alive { return Idle; }
      if x.dataNew.Present? {
        assert Rest(MRemove, t) == old(Rest(MTest, t));
        alive, now := Next();
        x := x.(data := if alive then Absent else Fragment(x.data, now.chance));
        if !alive { return Idle; }
        assert Rest(MRename, t) == old(Rest(MTest, t));
        alive, now := Next();
        if !alive { return Idle; }
        x := x.(data := x.dataNew, dataNew := Absent);
      }
      return Finished(NoOutput);
    }
  }

  // A job's pod, started again until its script exits 0 or `lives` are used up.
  method RunToCompletion(x0: Volume, t: Task, primary: Volume, lives: seq<Life>) returns (x: Volume, pod: Pod)
    requires !t.Helper?
    ensures Effect(x, pod) == Restarts(x0, t, primary, lives)
  {
    x, pod := x0, Idle;
    var k := 0;
    while k < |lives| && !pod.Finished?
      invariant 0 <= k <= |lives|
      invariant pod.Finished? ==> Effect(x, pod) == Restarts(x0, t, primary, lives)
      invariant !pod.Finished? ==> pod.Idle? && Restarts(x, t, primary, lives[k..]) == Restarts(x0, t, primary, lives)
      decreases |lives| - k
    {
      var c := new Container(x, lives[k], primary);
      match t {
        case Upgrade(_, _, _, _, _) => pod := c.PrimaryUpgrade(t);
        case Convert(_, _, _, _, _) => pod := c.SecondaryUpgrade(t);
        case Move(_) => pod := c.PrimaryUpgradeMove(t);
      }
      LifetimeEnds(x, Entry(t), t, primary, lives[k], 0);
      assert lives[k..][1..] == lives[k + 1..];
      x := c.x;
      k := k + 1;
    }
  }
}
