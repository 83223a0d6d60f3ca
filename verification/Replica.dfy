/** One replica volume under secondary-upgrade, for every sequence of starts,
    commands and kills. The volume of the primary does not change meanwhile. */
module Replica {
  import opened Base
  import opened Volumes
  import opened Scripts

  // `serving` says whether the rsync daemon of the primary can be reached at that moment.
  datatype Event =
    | Start
    | Command(serving: bool, chance: Chance)
    | Kill(serving: bool, chance: Chance)

  datatype Node = Node(x: Volume, pod: Pod)

  function Source(src: Volume, serving: bool): Option<Volume> {
    if serving then Some(src) else None
  }

  function Next(n: Node, e: Event, t: Task, src: Volume): Node
    requires t.Convert?
  {
    match e
    case Start => if n.pod.Idle? then n.(pod := At(Entry(t))) else n
    case Command(serving, c) =>
      if n.pod.At? then
        var r := Run(n.x, n.pod.pc, t, Source(src, serving), c);
        Node(r.vol, r.pod)
      else n
    case Kill(serving, c) =>
      if n.pod.At? then Node(Interrupt(n.x, n.pod.pc, t, Source(src, serving), c), Idle) else n
  }

  function After(n: Node, es: seq<Event>, t: Task, src: Volume): Node
    requires t.Convert?
  {
    if es == [] then n else Next(After(n, es[..|es| - 1], t, src), es[|es| - 1], t, src)
  }

  /** src is the primary's volume while replicas are converted, and the job has been given its last checkpoint. */
  predicate ConversionTask(t: Task, src: Volume) {
    && t.Convert?
    && t.before != t.after
    && Converted(src, t.before, t.after, t.id)
    && t.checkpoint == LastCheckpoint(src.data)
  }

  // What stays true of the replica's directories whatever the pod does.
  predicate VolumeOk(x: Volume, after: int, id: string) {
    && (x.done.Present? ==> IsDatabase(x.done, after, id) && VersionOf(x.data) != Some(after))
    && (VersionOf(x.data) == Some(after) ==> IsDatabase(x.data, after, id))
  }

  // The conversion is over: the replica is the new database, or empty for Patroni to fill.
  predicate Settled(x: Volume, after: int, id: string) {
    && x.done.Absent?
    && (x.data.Absent? || IsDatabase(x.data, after, id))
  }

  // What the script compares before it goes for the quick conversion.
  predicate Matches(x: Volume, t: Task)
    requires t.Convert?
  {
    VersionOf(x.data) == Some(t.before) && CheckpointOf(x.data) == t.checkpoint
  }

  // What a pod knows at the command it stands at.
  predicate PodOk(x: Volume, pod: Pod, t: Task)
    requires t.Convert?
  {
    match pod
    case Idle => true
    case Finished(_) => Settled(x, t.after, t.id)
    case At(pc) =>
      && InProgram(pc, t)
      && (pc.SClean? || pc.SCompare? || pc.SWait? || pc.SKeep? || pc.SRsync? ==>
            x.done.Absent? && VersionOf(x.data) != Some(t.after) && t.checkpoint != "")
      && (pc.SWait? || pc.SKeep? || pc.SRsync? ==> Matches(x, t))
      && (pc.SRestore? || pc.SPublish? ==>
            x.done.Absent? && VersionOf(x.data) != Some(t.after) && t.checkpoint != ""
                && IsDatabase(x.dataNew, t.after, t.id))
      && (pc.SRemove? ==> VersionOf(x.data) != Some(t.after) && t.checkpoint != "")
      && (pc.SForget? ==> x.data.Absent?)
      && (pc.SInstall? ==> x.data.Absent? && x.done.Present?)
  }

  lemma RunKeepsVolume(x: Volume, pc: Pc, t: Task, src: Volume, serving: bool, c: Chance)
    requires ConversionTask(t, src) && VolumeOk(x, t.after, t.id) && PodOk(x, At(pc), t)
    ensures var r := Run(x, pc, t, Source(src, serving), c);
            VolumeOk(r.vol, t.after, t.id) && PodOk(r.vol, r.pod, t)
  {
  }

  lemma InterruptKeepsVolume(x: Volume, pc: Pc, t: Task, src: Volume, serving: bool, c: Chance)
    requires ConversionTask(t, src) && VolumeOk(x, t.after, t.id) && PodOk(x, At(pc), t)
    ensures VolumeOk(Interrupt(x, pc, t, Source(src, serving), c), t.after, t.id)
  {
  }

  // ----- configuration files

  /** The configuration the conversion is bound to produce: the replica's own files, except
      that a copy already lying in data.preserve wins over the file in data. */
  function Wanted(x: Volume): map<File, string> {
    map f | f in ConfOf(x.data) ::
      if x.preserve.Some? && f in x.preserve.value then x.preserve.value[f] else ConfOf(x.data)[f]
  }

  // Every wanted file is in data.preserve or, failing that, still in data.
  predicate Kept(x: Volume, want: map<File, string>) {
    forall f :: f in want ==>
      if x.preserve.Some? && f in x.preserve.value then x.preserve.value[f] == want[f]
      else f in ConfOf(x.data) && ConfOf(x.data)[f] == want[f]
  }

  // The first k preserved files of want are in conf.
  predicate CarriesFirst(conf: map<File, string>, want: map<File, string>, k: nat) {
    forall j :: 0 <= j < k && j < |PRESERVE_FILES| && PRESERVE_FILES[j] in want ==>
      PRESERVE_FILES[j] in conf && conf[PRESERVE_FILES[j]] == want[PRESERVE_FILES[j]]
  }

  predicate ConfOk(n: Node, want: map<File, string>, t: Task)
    requires t.Convert?
  {
    && (n.x.done.Absent? ==> Kept(n.x, want) || !Matches(n.x, t))
    && (n.x.done.Present? ==> Carries(n.x.done.conf, want))
    && (VersionOf(n.x.data) == Some(t.after) ==> Carries(ConfOf(n.x.data), want))
    && (n.pod.At? ==> PcConfOk(n.x, n.pod.pc, want, t))
  }

  predicate PcConfOk(x: Volume, pc: Pc, want: map<File, string>, t: Task)
    requires t.Convert?
  {
    match pc
    case SWait => Kept(x, want)
    case SKeep(k) => x.preserve.Some? && Kept(x, want) && CarriesFirst(x.preserve.value, want, k)
    case SRsync => x.preserve.Some? && Carries(x.preserve.value, want)
    case SRestore(k) => x.preserve.Some? && Carries(x.preserve.value, want) && CarriesFirst(ConfOf(x.dataNew), want, k)
    case SPublish => Carries(ConfOf(x.dataNew), want)
    case SRemove => x.done.Absent? ==> !Matches(x, t)
    case _ => true
  }

  lemma AllFilesListed(f: File)
    ensures f in PRESERVE_FILES
  {
    var k := match f
      case PostgresqlConf => 0
      case BaseConf => 1
      case AutoConf => 2
      case HbaConf => 3
      case IdentConf => 4;
    assert PRESERVE_FILES[k] == f;
  }

  lemma CarriesAll(conf: map<File, string>, want: map<File, string>, k: nat)
    requires CarriesFirst(conf, want, k) && |PRESERVE_FILES| <= k
    ensures Carries(conf, want)
  {
    forall f | f in want
      ensures f in conf && conf[f] == want[f]
    {
      AllFilesListed(f);
    }
  }

  lemma RunKeepsConf(n: Node, t: Task, src: Volume, serving: bool, c: Chance, want: map<File, string>)
    requires ConversionTask(t, src) && n.pod.At?
    requires VolumeOk(n.x, t.after, t.id) && PodOk(n.x, n.pod, t) && ConfOk(n, want, t)
    ensures ConfOk(Next(n, Command(serving, c), t, src), want, t)
  {
    match n.pod.pc
    case SKeep(_) => KeepKeepsConf(n, t, src, serving, c, want);
    case SRestore(_) => RestoreKeepsConf(n, t, src, serving, c, want);
    case _ =>
  }

  lemma KeepKeepsConf(n: Node, t: Task, src: Volume, serving: bool, c: Chance, want: map<File, string>)
    requires ConversionTask(t, src) && n.pod.At? && n.pod.pc.SKeep?
    requires VolumeOk(n.x, t.after, t.id) && PodOk(n.x, n.pod, t) && ConfOk(n, want, t)
    ensures ConfOk(Next(n, Command(serving, c), t, src), want, t)
  {
    if n.pod.pc.k >= |PRESERVE_FILES| { CarriesAll(n.x.preserve.value, want, n.pod.pc.k); }
  }

  lemma RestoreKeepsConf(n: Node, t: Task, src: Volume, serving: bool, c: Chance, want: map<File, string>)
    requires ConversionTask(t, src) && n.pod.At? && n.pod.pc.SRestore?
    requires VolumeOk(n.x, t.after, t.id) && PodOk(n.x, n.pod, t) && ConfOk(n, want, t)
    ensures ConfOk(Next(n, Command(serving, c), t, src), want, t)
  {
    if n.pod.pc.k >= |PRESERVE_FILES| { CarriesAll(ConfOf(n.x.dataNew), want, n.pod.pc.k); }
  }

  lemma InterruptKeepsConf(n: Node, t: Task, src: Volume, serving: bool, c: Chance, want: map<File, string>)
    requires ConversionTask(t, src) && n.pod.At?
    requires VolumeOk(n.x, t.after, t.id) && PodOk(n.x, n.pod, t) && ConfOk(n, want, t)
    ensures ConfOk(Next(n, Kill(serving, c), t, src), want, t)
  {
  }

  // ----- every run

  predicate Fresh(x: Volume, t: Task)
    requires t.Convert?
  {
    x.done.Absent? && VolumeOk(x, t.after, t.id)
  }

  lemma {:induction false} EveryRunKeepsVolume(x: Volume, es: seq<Event>, t: Task, src: Volume)
    requires ConversionTask(t, src) && Fresh(x, t)
    ensures var n := After(Node(x, Idle), es, t, src);
            VolumeOk(n.x, t.after, t.id) && PodOk(n.x, n.pod, t)
  {
    if es != [] {
      EveryRunKeepsVolume(x, es[..|es| - 1], t, src);
      var n := After(Node(x, Idle), es[..|es| - 1], t, src);
      match es[|es| - 1]
      case Start =>
      case Command(serving, c) =>
        if n.pod.At? { RunKeepsVolume(n.x, n.pod.pc, t, src, serving, c); }
      case Kill(serving, c) =>
        if n.pod.At? { InterruptKeepsVolume(n.x, n.pod.pc, t, src, serving, c); }
    }
  }

  lemma {:induction false} EveryRunKeepsConf(x: Volume, es: seq<Event>, t: Task, src: Volume)
    requires ConversionTask(t, src) && Fresh(x, t) && VersionOf(x.data) != Some(t.after)
    ensures ConfOk(After(Node(x, Idle), es, t, src), Wanted(x), t)
  {
    if es != [] {
      EveryRunKeepsConf(x, es[..|es| - 1], t, src);
      EveryRunKeepsVolume(x, es[..|es| - 1], t, src);
      var n := After(Node(x, Idle), es[..|es| - 1], t, src);
      match es[|es| - 1]
      case Start =>
      case Command(serving, c) =>
        if n.pod.At? { RunKeepsConf(n, t, src, serving, c, Wanted(x)); }
      case Kill(serving, c) =>
        if n.pod.At? { InterruptKeepsConf(n, t, src, serving, c, Wanted(x)); }
    }
  }

  /** Crash safety: after any number of runs, killed at any command, data.new.done is a whole copy of the
      new database whenever it exists, and once the script has exited 0 data is absent or whole. */
  lemma ConversionIsCrashSafe(x: Volume, es: seq<Event>, t: Task, src: Volume)
    requires ConversionTask(t, src) && Fresh(x, t)
    ensures var n := After(Node(x, Idle), es, t, src);
            && (n.x.done.Present? ==> IsDatabase(n.x.done, t.after, t.id))
            && (n.pod.Finished? ==> n.x.done.Absent? && (n.x.data.Absent? || IsDatabase(n.x.data, t.after, t.id)))
  {
    EveryRunKeepsVolume(x, es, t, src);
  }

  /** The finished copy has the replica's own configuration files exactly when no file lying in
      data.preserve beforehand differs from the replica's own. */
  lemma OwnConfigExactly(x: Volume, es: seq<Event>, t: Task, src: Volume)
    requires ConversionTask(t, src) && Fresh(x, t)
    requires VersionOf(x.data) != Some(t.after)
    ensures var n := After(Node(x, Idle), es, t, src);
            var own := ConfOf(x.data);
            && (n.x.done.Present? ==> (Carries(n.x.done.conf, own) <==> Kept(x, own)))
            && (VersionOf(n.x.data) == Some(t.after) ==> (Carries(ConfOf(n.x.data), own) <==> Kept(x, own)))
  {
    EveryRunKeepsConf(x, es, t, src);
  }

  // ----- recovery

  // Commands left before the script ends, once the daemon answers.
  function Rank(pc: Pc): nat {
    match pc
    case SCheck => 30
    case SClean => 29
    case SCompare => 28
    case SWait => 27
    case SKeep(k) => 20 + if k < |PRESERVE_FILES| then |PRESERVE_FILES| - k else 0
    case SRsync => 19
    case SRestore(k) => 10 + if k < |PRESERVE_FILES| then |PRESERVE_FILES| - k else 0
    case SPublish => 9
    case SRemove => 8
    case SForget => 7
    case SInstall => 6
    case _ => 0
  }

  // The rest of one run that nothing interrupts.
  function RunOut(n: Node, t: Task, src: Volume, c: Chance): Node
    requires t.Convert?
    decreases if n.pod.At? then Rank(n.pod.pc) + 1 else 0
  {
    if n.pod.At? then RunOut(Next(n, Command(true, c), t, src), t, src, c) else n
  }

  lemma {:induction false} PastTheCheckItFinishes(n: Node, t: Task, src: Volume, c: Chance)
    requires ConversionTask(t, src) && n.pod.At? && !n.pod.pc.SCheck?
    requires VolumeOk(n.x, t.after, t.id) && PodOk(n.x, n.pod, t)
    requires n.pod.pc.SClean? || n.pod.pc.SCompare? ==> VersionOf(n.x.data).Some?
    ensures RunOut(n, t, src, c).pod.Finished?
    decreases Rank(n.pod.pc)
  {
    var m := Next(n, Command(true, c), t, src);
    RunKeepsVolume(n.x, n.pod.pc, t, src, true, c);
    if m.pod.At? {
      PastTheCheckItFinishes(m, t, src, c);
    }
  }

  /** A rerun that nothing interrupts exits 0 exactly when data/PG_VERSION can be read: `set -e` ends the script
      at its first `cat` otherwise. The environment values the script insists on must be there. */
  lemma RerunRecoversExactlyWhenReadable(x: Volume, t: Task, src: Volume, c: Chance)
    requires ConversionTask(t, src) && VolumeOk(x, t.after, t.id) && t.checkpoint != "" && t.id != ""
    ensures RunOut(Next(Node(x, Idle), Start, t, src), t, src, c).pod.Finished? <==> VersionOf(x.data).Some?
  {
    var n := Next(Node(x, Idle), Start, t, src);
    var m := Next(n, Command(true, c), t, src);
    assert RunOut(n, t, src, c) == RunOut(m, t, src, c);
    RunKeepsVolume(x, SCheck, t, src, true, c);
    if m.pod.At? {
      PastTheCheckItFinishes(m, t, src, c);
    }
  }

  // ----- what the comparison of checkpoints decides

  // The pod has taken, or will take, the quick conversion.
  predicate Quick(n: Node, t: Task)
    requires t.Convert?
  {
    || n.x.done.Present?
    || match n.pod
       case At(pc) =>
         || ((pc.SCheck? || pc.SClean? || pc.SCompare?) && Matches(n.x, t))
         || pc.SWait? || pc.SKeep? || pc.SRsync? || pc.SRestore? || pc.SPublish?
       case _ => n.x.data.Present?
  }

  lemma {:induction false} RunOutIsQuickExactly(n: Node, t: Task, src: Volume, c: Chance)
    requires ConversionTask(t, src) && n.pod.At? && VolumeOk(n.x, t.after, t.id) && PodOk(n.x, n.pod, t)
    requires n.pod.pc.SCheck? ==> t.checkpoint != "" && t.id != "" && VersionOf(n.x.data) != Some(t.after)
    requires n.pod.pc.SCheck? || n.pod.pc.SClean? || n.pod.pc.SCompare? ==> VersionOf(n.x.data).Some?
    requires n.pod.pc.SInstall? ==> n.x.preserve.None?
    ensures RunOut(n, t, src, c).x.data.Present? <==> Quick(n, t)
    ensures Quick(n, t) ==> RunOut(n, t, src, c).x.preserve.None?
    decreases Rank(n.pod.pc)
  {
    var m := Next(n, Command(true, c), t, src);
    RunKeepsVolume(n.x, n.pod.pc, t, src, true, c);
    if m.pod.At? {
      RunOutIsQuickExactly(m, t, src, c);
    }
  }

  /** A replica that is left alone with its job is converted in place exactly if it had caught up with the leader;
      otherwise it is emptied. */
  lemma InPlaceExactlyIfCaughtUp(x: Volume, t: Task, src: Volume, c: Chance)
    requires ConversionTask(t, src) && Fresh(x, t) && t.checkpoint != "" && t.id != ""
    requires VersionOf(x.data).Some? && VersionOf(x.data) != Some(t.after)
    ensures var m := RunOut(Node(x, At(SCheck)), t, src, c);
            && m.pod.Finished?
            && (CaughtUpWith(x.data, src.data) ==> IsDatabase(m.x.data, t.after, t.id) && m.x.preserve.None?)
            && (!CaughtUpWith(x.data, src.data) ==> m.x.data.Absent?)
  {
    RerunRecoversExactlyWhenReadable(x, t, src, c);
    RunOutIsQuickExactly(Node(x, At(SCheck)), t, src, c);
    RunOutIsSettled(Node(x, At(SCheck)), t, src, c);
  }

  lemma {:induction false} RunOutIsSettled(n: Node, t: Task, src: Volume, c: Chance)
    requires ConversionTask(t, src) && n.pod.At? && VolumeOk(n.x, t.after, t.id) && PodOk(n.x, n.pod, t)
    ensures var m := RunOut(n, t, src, c); m.pod.Finished? ==> Settled(m.x, t.after, t.id)
    decreases Rank(n.pod.pc)
  {
    var m := Next(n, Command(true, c), t, src);
    RunKeepsVolume(n.x, n.pod.pc, t, src, true, c);
    if m.pod.At? {
      RunOutIsSettled(m, t, src, c);
    }
  }

  // Nothing makes a replica look as if it had caught up.
  predicate OnlyIf(n: Node, t: Task, caughtUp: bool)
    requires t.Convert?
  {
    && (Matches(n.x, t) && t.checkpoint != "" ==> caughtUp)
    && (n.x.done.Present? || VersionOf(n.x.data) == Some(t.after) ==> caughtUp)
    && (n.pod.At? && (n.pod.pc.SRestore? || n.pod.pc.SPublish?) ==> caughtUp)
  }

  lemma StepKeepsOnlyIf(n: Node, e: Event, t: Task, src: Volume, caughtUp: bool)
    requires ConversionTask(t, src) && VolumeOk(n.x, t.after, t.id) && PodOk(n.x, n.pod, t) && OnlyIf(n, t, caughtUp)
    ensures OnlyIf(Next(n, e, t, src), t, caughtUp)
  {
  }

  /** Whatever is killed and started again, a replica that has not caught up with the leader is never made into the
      new database: an exit 0 leaves it empty, for Patroni to clone. */
  lemma {:induction false} NeverConvertedUnlessCaughtUp(x: Volume, es: seq<Event>, t: Task, src: Volume)
    requires ConversionTask(t, src) && Fresh(x, t) && VersionOf(x.data) != Some(t.after)
    ensures var n := After(Node(x, Idle), es, t, src);
            && OnlyIf(n, t, CaughtUpWith(x.data, src.data))
            && (n.pod.Finished? && n.x.data.Present? ==> CaughtUpWith(x.data, src.data))
  {
    if es != [] {
      var front := es[..|es| - 1];
      NeverConvertedUnlessCaughtUp(x, front, t, src);
      EveryRunKeepsVolume(x, front, t, src);
      EveryRunKeepsVolume(x, es, t, src);
      StepKeepsOnlyIf(After(Node(x, Idle), front, t, src), es[|es| - 1], t, src, CaughtUpWith(x.data, src.data));
    }
  }

  // A replica that has been converted stays as it is, and every run on it that is left alone exits 0.
  lemma {:induction false} ConvertedStays(x: Volume, es: seq<Event>, t: Task, src: Volume, c: Chance)
    requires t.Convert? && VersionOf(x.data) == Some(t.after) && SysIdOf(x.data) == t.id
    ensures After(Node(x, Idle), es, t, src).x == x
    ensures After(Node(x, Idle), es, t, src).pod in {Idle, At(SCheck), Finished(NoOutput)}
    ensures t.checkpoint != "" && t.id != "" ==>
              RunOut(Node(x, At(SCheck)), t, src, c) == Node(x, Finished(NoOutput))
  {
    if es != [] {
      ConvertedStays(x, es[..|es| - 1], t, src, c);
    }
    var m := Next(Node(x, At(SCheck)), Command(true, c), t, src);
    assert RunOut(Node(x, At(SCheck)), t, src, c) == RunOut(m, t, src, c);
  }

  // Without a readable PG_VERSION, or a value it insists on, no run ever changes the volume or succeeds.
  lemma {:induction false} UnreadableIsStuck(x: Volume, es: seq<Event>, t: Task, src: Volume)
    requires t.Convert? && (VersionOf(x.data).None? || t.checkpoint == "" || t.id == "")
    ensures var n := After(Node(x, Idle), es, t, src);
            n.x == x && (n.pod.Idle? || n.pod == At(SCheck))
  {
    if es != [] {
      UnreadableIsStuck(x, es[..|es| - 1], t, src);
    }
  }

  lemma Snoc(n: Node, es: seq<Event>, e: Event, t: Task, src: Volume)
    requires t.Convert?
    ensures After(n, es + [e], t, src) == Next(After(n, es, t, src), e, t, src)
  {
    assert (es + [e])[..|es|] == es;
  }

  lemma SixEvents(n: Node, a: Event, b: Event, c: Event, d: Event, e: Event, f: Event, t: Task, src: Volume)
    requires t.Convert?
    ensures After(n, [a, b, c, d, e, f], t, src) ==
            Next(Next(Next(Next(Next(Next(n, a, t, src), b, t, src), c, t, src), d, t, src), e, t, src), f, t, src)
  {
    assert [a, b, c, d, e, f][..5] == [a, b, c, d, e];
    FiveEvents(n, a, b, c, d, e, t, src);
  }

  lemma FiveEvents(n: Node, a: Event, b: Event, c: Event, d: Event, e: Event, t: Task, src: Volume)
    requires t.Convert?
    ensures After(n, [a, b, c, d, e], t, src) ==
            Next(Next(Next(Next(Next(n, a, t, src), b, t, src), c, t, src), d, t, src), e, t, src)
  {
    assert [a, b, c, d, e][..4] == [a, b, c, d];
    assert [a, b, c, d][..3] == [a, b, c];
    assert [a, b, c][..2] == [a, b];
    assert [a, b][..1] == [a];
    assert After(n, [a], t, src) == Next(n, a, t, src);
    assert After(n, [a, b], t, src) == Next(Next(n, a, t, src), b, t, src);
    assert After(n, [a, b, c, d], t, src) == Next(Next(After(n, [a, b], t, src), c, t, src), d, t, src);
  }

  /** Such a volume is reachable: a replica whose checkpoint does not match is emptied, and a kill
      (or a second job) after that finds no PG_VERSION. */
  lemma KillAfterRemovalIsNeverRecovered(x: Volume, t: Task, src: Volume, c: Chance, es: seq<Event>)
    requires ConversionTask(t, src) && Fresh(x, t) && t.checkpoint != "" && t.id != ""
    requires VersionOf(x.data).Some? && VersionOf(x.data) != Some(t.after) && !Matches(x, t)
    ensures var step := Command(true, c);
            var n := After(Node(x, Idle), [Start, step, step, step, step, Kill(true, c)], t, src);
            && n.pod.Idle? && n.x.data.Absent?
            && !After(n, es, t, src).pod.Finished?
  {
    var step, n0 := Command(true, c), Node(x, Idle);
    SixEvents(n0, Start, step, step, step, step, Kill(true, c), t, src);
    var n := After(n0, [Start, step, step, step, step, Kill(true, c)], t, src);
    var n3 := Next(Next(Next(n0, Start, t, src), step, t, src), step, t, src);
    assert n3 == Node(x.(dataNew := Absent), At(SCompare));
    assert Next(Next(n3, step, t, src), step, t, src) == Node(x.(dataNew := Absent, data := Absent), At(SForget));
    UnreadableIsStuck(n.x, es, t, src);
  }
}
