/** The leader's volume under primary-upgrade and primary-upgrade-move, for
    every sequence of starts, commands and kills. */
module Leader {
  import opened Base
  import opened Volumes
  import opened Scripts
  import Replica

  datatype Event = Start | Command(chance: Chance) | Kill(chance: Chance)

  datatype Node = Node(x: Volume, pod: Pod)

  function Next(n: Node, e: Event, t: Task): Node
    requires t.Upgrade? || t.Move?
  {
    match e
    case Start => if n.pod.Idle? then n.(pod := At(Entry(t))) else n
    case Command(c) =>
      if n.pod.At? then
        var r := Run(n.x, n.pod.pc, t, None, c);
        Node(r.vol, r.pod)
      else n
    case Kill(c) =>
      if n.pod.At? then Node(Interrupt(n.x, n.pod.pc, t, None, c), Idle) else n
  }

  function After(n: Node, es: seq<Event>, t: Task): Node
    requires t.Upgrade? || t.Move?
  {
    if es == [] then n else Next(After(n, es[..|es| - 1], t), es[|es| - 1], t)
  }

  // ----- primary-upgrade

  // The old database is still the one to start; data.new is scrap.
  predicate Untouched(x: Volume, before: int, id: string) {
    IsDatabase(x.data, before, id)
  }

  // pg_upgrade has moved the database to data.new.
  predicate Converted(x: Volume, before: int, after: int) {
    Volumes.Converted(x, before, after, SysIdOf(x.dataNew))
  }

  /** The volume never loses the database: `id` names it before the conversion. */
  predicate UpgradeOk(x: Volume, before: int, after: int, id: string) {
    Untouched(x, before, id) || Converted(x, before, after)
  }

  predicate UpgradePodOk(x: Volume, pod: Pod, t: Task)
    requires t.Upgrade?
  {
    match pod
    case Idle => true
    case Finished(out) =>
      Converted(x, t.before, t.after) && out.Upgraded? && out.newSysId == SysIdOf(x.dataNew)
          && Honest(out.oldCheckpoint, x)
    case At(pc) =>
      && InProgram(pc, t)
      && (pc.PClean? || pc.PInit? || pc.PUpgrade? ==> !Disabled(x.data) && pc.ckpt == CheckpointOf(x.data))
      && (pc.PUpgrade? ==>
          x.dataNew.Present? && x.dataNew.version == Some(t.after) && x.dataNew.control.Some?
              && x.dataNew.controlOld.None?)
      && (pc.PConf? || pc.PReport? ==> Converted(x, t.before, t.after) && Honest(pc.ckpt, x))
  }

  // A checkpoint that primary-upgrade may print: the old database's, or none.
  predicate Honest(ckpt: string, x: Volume) {
    ckpt == "" || ckpt == LastCheckpoint(x.data)
  }

  lemma RunKeepsUpgrade(x: Volume, pc: Pc, t: Task, id: string, c: Chance)
    requires t.Upgrade? && UpgradeOk(x, t.before, t.after, id) && UpgradePodOk(x, At(pc), t)
    ensures var r := Run(x, pc, t, None, c);
            && UpgradeOk(r.vol, t.before, t.after, id) && UpgradePodOk(r.vol, r.pod, t)
            && (Converted(x, t.before, t.after) ==>
                Converted(r.vol, t.before, t.after) && SysIdOf(r.vol.dataNew) == SysIdOf(x.dataNew))
            && r.vol.done == x.done
            && LastCheckpoint(r.vol.data) == LastCheckpoint(x.data)
  {
  }

  lemma InterruptKeepsUpgrade(x: Volume, pc: Pc, t: Task, id: string, c: Chance)
    requires t.Upgrade? && UpgradeOk(x, t.before, t.after, id) && UpgradePodOk(x, At(pc), t)
    ensures var y := Interrupt(x, pc, t, None, c);
            && UpgradeOk(y, t.before, t.after, id)
            && (Converted(x, t.before, t.after) ==> y == x)
            && y.done == x.done
            && y.data == x.data
  {
  }

  // What an exited pod may have printed for the checkpoint.
  predicate Reports(pod: Pod, ckpt: string) {
    match pod
    case Idle => true
    case At(PConf(k, _)) => k == ckpt
    case At(PReport(k)) => k == ckpt || k == ""
    case At(_) => true
    case Finished(out) => out.Upgraded? ==> out.oldCheckpoint == ckpt || out.oldCheckpoint == ""
  }

  /** Crash safety of primary-upgrade: whatever is killed, the volume holds the old database or its successor;
      an exit 0 names the successor, and the checkpoint it prints is the old database's or nothing. */
  lemma {:induction false} UpgradeIsCrashSafe(x: Volume, es: seq<Event>, t: Task, id: string)
    requires t.Upgrade? && Untouched(x, t.before, id)
    ensures var n := After(Node(x, Idle), es, t);
            && UpgradeOk(n.x, t.before, t.after, id)
            && UpgradePodOk(n.x, n.pod, t)
            && LastCheckpoint(n.x.data) == CheckpointOf(x.data)
            && Reports(n.pod, CheckpointOf(x.data))
  {
    if es != [] {
      UpgradeIsCrashSafe(x, es[..|es| - 1], t, id);
      var n := After(Node(x, Idle), es[..|es| - 1], t);
      match es[|es| - 1]
      case Start =>
      case Command(c) =>
        if n.pod.At? { RunKeepsUpgrade(n.x, n.pod.pc, t, id, c); }
      case Kill(c) =>
        if n.pod.At? { InterruptKeepsUpgrade(n.x, n.pod.pc, t, id, c); }
    }
  }

  /** Replay is harmless: on a converted volume no run changes anything, whatever system identifier the
      job is given, and a run that exits 0 prints the same identifier and an empty checkpoint. */
  lemma {:induction false} ReplayIsHarmless(x: Volume, es: seq<Event>, t: Task)
    requires t.Upgrade? && Converted(x, t.before, t.after)
    ensures var n := After(Node(x, Idle), es, t);
            && n.x == x
            && (n.pod.At? ==> n.pod.pc == PCheck || n.pod.pc == PReport(""))
            && (n.pod.Finished? ==> n.pod.output == Upgraded("", SysIdOf(x.dataNew)))
  {
    if es != [] {
      ReplayIsHarmless(x, es[..|es| - 1], t);
    }
  }

  /** A volume that is not the old database named to the job, nor converted already, is left alone by every run, and
      so is every volume if no identifier is given. */
  lemma {:induction false} OthersAreLeftAlone(x: Volume, es: seq<Event>, t: Task)
    requires t.Upgrade?
    requires t.id == "" || (!Disabled(x.data) && (VersionOf(x.data) != Some(t.before) || SysIdOf(x.data) != t.id))
    ensures var n := After(Node(x, Idle), es, t);
            n.x == x && (n.pod.Idle? || n.pod == At(PCheck))
  {
    if es != [] {
      OthersAreLeftAlone(x, es[..|es| - 1], t);
    }
  }

  function UpgradeRank(pc: Pc): nat {
    match pc
    case PCheck => 20
    case PClean(_) => 19
    case PInit(_) => 18
    case PUpgrade(_) => 17
    case PConf(_, k) => 2 + if k < |PRESERVE_FILES| then |PRESERVE_FILES| - k else 0
    case PReport(_) => 1
    case _ => 0
  }

  // The rest of one run of primary-upgrade that nothing interrupts.
  function UpgradeRunOut(n: Node, t: Task, c: Chance): Node
    requires t.Upgrade?
    decreases if n.pod.At? then UpgradeRank(n.pod.pc) + 1 else 0
  {
    if n.pod.At? then UpgradeRunOut(Next(n, Command(c), t), t, c) else n
  }

  lemma {:induction false} CopyingCarries(n: Node, t: Task, c: Chance, own: map<File, string>)
    requires t.Upgrade? && n.pod.At? && n.pod.pc.PConf?
    requires Converted(n.x, t.before, t.after) && ConfOf(n.x.data) == own
    requires Replica.CarriesFirst(ConfOf(n.x.dataNew), own, n.pod.pc.k)
    ensures var m := UpgradeRunOut(n, t, c);
            && m.pod == Finished(Upgraded(n.pod.pc.ckpt, SysIdOf(n.x.dataNew)))
            && m.x.data == n.x.data
            && Converted(m.x, t.before, t.after)
            && Carries(ConfOf(m.x.dataNew), own)
    decreases UpgradeRank(n.pod.pc)
  {
    var m := Next(n, Command(c), t);
    if n.pod.pc.k < |PRESERVE_FILES| {
      CopyingCarries(m, t, c, own);
    } else {
      Replica.CarriesAll(ConfOf(n.x.dataNew), own, n.pod.pc.k);
      assert m == Node(n.x, At(PReport(n.pod.pc.ckpt)));
      var last := Next(m, Command(c), t);
      assert UpgradeRunOut(m, t, c) == UpgradeRunOut(last, t, c) == last;
    }
  }

  /** One undisturbed run on the old database converts it, prints its checkpoint and the identifier
      initdb generated, and carries all of the leader's configuration files over. */
  lemma UndisturbedUpgrade(x: Volume, t: Task, c: Chance)
    requires t.Upgrade? && t.id != "" && Untouched(x, t.before, t.id) && c.success
    ensures var n := UpgradeRunOut(Next(Node(x, Idle), Start, t), t, c);
            && n.pod == Finished(Upgraded(CheckpointOf(x.data), c.id))
            && Converted(n.x, t.before, t.after)
            && Carries(ConfOf(n.x.dataNew), ConfOf(x.data))
            && LastCheckpoint(n.x.data) == CheckpointOf(x.data)
  {
    var n0 := Next(Node(x, Idle), Start, t);
    var n1 := Next(n0, Command(c), t);
    var n2 := Next(n1, Command(c), t);
    var n3 := Next(n2, Command(c), t);
    var n4 := Next(n3, Command(c), t);
    assert n1.pod == At(PClean(CheckpointOf(x.data)));
    assert n4.pod == At(PConf(CheckpointOf(x.data), 0));
    CopyingCarries(n4, t, c, ConfOf(x.data));
    assert UpgradeRunOut(n0, t, c) == UpgradeRunOut(n1, t, c) == UpgradeRunOut(n2, t, c);
    assert UpgradeRunOut(n2, t, c) == UpgradeRunOut(n3, t, c) == UpgradeRunOut(n4, t, c);
  }

  // A run that ends well prints the identifier of the new database.
  lemma {:induction false} RunOutReportsName(n: Node, t: Task, c: Chance)
    requires t.Upgrade? && n.pod.At?
    ensures var m := UpgradeRunOut(n, t, c);
            m.pod.Finished? ==> m.pod.output.Upgraded? && m.pod.output.newSysId == SysIdOf(m.x.dataNew)
    decreases UpgradeRank(n.pod.pc)
  {
    var m := Next(n, Command(c), t);
    if m.pod.At? { RunOutReportsName(m, t, c); }
  }

  lemma Snoc(n: Node, es: seq<Event>, e: Event, t: Task)
    requires t.Upgrade? || t.Move?
    ensures After(n, es + [e], t) == Next(After(n, es, t), e, t)
  {
    assert (es + [e])[..|es|] == es;
  }

  // ----- primary-upgrade-move

  // The database is in data.new, or it has been put in place and data.new is gone.
  predicate MoveOk(x: Volume, after: int, id: string) {
    || IsDatabase(x.dataNew, after, id)
    || (x.dataNew.Absent? && IsDatabase(x.data, after, id))
  }

  predicate Moved(x: Volume, after: int, id: string) {
    x.dataNew.Absent? && IsDatabase(x.data, after, id)
  }

  predicate MovePodOk(x: Volume, pod: Pod, after: int, id: string) {
    match pod
    case Idle => true
    case Finished(_) => Moved(x, after, id)
    case At(pc) =>
      && (pc.MTest? || pc.MRemove? || pc.MRename?)
      && (pc.MRemove? || pc.MRename? ==> IsDatabase(x.dataNew, after, id))
  }

  lemma RunKeepsMove(x: Volume, pc: Pc, t: Task, c: Chance, after: int, id: string)
    requires t.Move? && MoveOk(x, after, id) && MovePodOk(x, At(pc), after, id)
    ensures var r := Run(x, pc, t, None, c);
            MoveOk(r.vol, after, id) && MovePodOk(r.vol, r.pod, after, id) && r.vol.done == x.done
  {
  }

  lemma InterruptKeepsMove(x: Volume, pc: Pc, t: Task, c: Chance, after: int, id: string)
    requires t.Move? && MoveOk(x, after, id) && MovePodOk(x, At(pc), after, id)
    ensures MoveOk(Interrupt(x, pc, t, None, c), after, id) && Interrupt(x, pc, t, None, c).done == x.done
  {
  }

  function MoveRank(pc: Pc): nat {
    match pc
    case MTest => 3
    case MRemove => 2
    case MRename => 1
    case _ => 0
  }

  function MoveRunOut(n: Node, t: Task, c: Chance): Node
    requires t.Move?
    decreases if n.pod.At? then MoveRank(n.pod.pc) + 1 else 0
  {
    if n.pod.At? then MoveRunOut(Next(n, Command(c), t), t, c) else n
  }

  /** Crash safety and recovery of primary-upgrade-move: after any kills the database is in data.new or in
      place, and one undisturbed rerun puts it in place. */
  lemma {:induction false} MoveIsCrashSafeAndRecovers(x: Volume, es: seq<Event>, t: Task, after: int, id: string,
      c: Chance)
    requires t.Move? && MoveOk(x, after, id)
    ensures var n := After(Node(x, Idle), es, t);
            && MoveOk(n.x, after, id)
            && MovePodOk(n.x, n.pod, after, id)
            && var again := MoveRunOut(Next(n.(pod := Idle), Start, t), t, c);
               again.pod.Finished? && Moved(again.x, after, id)
  {
    if es != [] {
      MoveIsCrashSafeAndRecovers(x, es[..|es| - 1], t, after, id, c);
      var n := After(Node(x, Idle), es[..|es| - 1], t);
      match es[|es| - 1]
      case Start =>
      case Command(c') =>
        if n.pod.At? { RunKeepsMove(n.x, n.pod.pc, t, c', after, id); }
      case Kill(c') =>
        if n.pod.At? { InterruptKeepsMove(n.x, n.pod.pc, t, c', after, id); }
    }
    MoveRunOutMoves(Next(After(Node(x, Idle), es, t).(pod := Idle), Start, t), t, c, after, id);
  }

  lemma {:induction false} MoveRunOutMoves(n: Node, t: Task, c: Chance, after: int, id: string)
    requires t.Move? && n.pod.At? && MoveOk(n.x, after, id) && MovePodOk(n.x, n.pod, after, id)
    ensures var m := MoveRunOut(n, t, c);
            m.pod.Finished? && Moved(m.x, after, id)
    decreases MoveRank(n.pod.pc)
  {
    var m := Next(n, Command(c), t);
    RunKeepsMove(n.x, n.pod.pc, t, c, after, id);
    if m.pod.At? {
      MoveRunOutMoves(m, t, c, after, id);
    }
  }
}
