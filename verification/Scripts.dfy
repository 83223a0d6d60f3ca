/** The three conversion scripts as step programs.

    One step is one command. Run executes the command a pod stands at;
    Interrupt is the volume left behind when the pod is killed while that
    command runs. A pod that exits with an error or is killed starts again from
    the top, as a container with restart policy OnFailure does, so both are Idle. */
module Scripts {
  import opened Base
  import opened Volumes

  // What a job was created to do, with the environment it hands to its script.
  datatype Task =
    | Helper
    | Upgrade(vol: nat, id: string, before: int, after: int, initdbArgs: string)
    | Convert(vol: nat, checkpoint: string, before: int, after: int, id: string)
    | Move(vol: nat)

  datatype Pc =
    // primary-upgrade; ckpt is the shell variable DB_OLD_CHECKPOINT
    | PCheck
    | PClean(ckpt: string)
    | PInit(ckpt: string)
    | PUpgrade(ckpt: string)
    | PConf(ckpt: string, k: nat)
    | PReport(ckpt: string)
    // secondary-upgrade
    | SCheck
    | SClean
    | SCompare
    | SWait
    | SKeep(k: nat)
    | SRsync
    | SRestore(k: nat)
    | SPublish
    | SRemove
    | SForget
    | SInstall
    // primary-upgrade-move
    | MTest
    | MRemove
    | MRename

  // What the preupgrade helper prints.
  datatype DbConfig = DbConfig(locale: string, encoding: string, dataChecksums: bool, maxPreparedTransactions: int)

  datatype Output =
    | NoOutput
    | Settings(config: DbConfig)
    | Upgraded(oldCheckpoint: string, newSysId: string)

  datatype Pod = Idle | At(pc: Pc) | Finished(output: Output)

  datatype Effect = Effect(vol: Volume, pod: Pod)

  /** Everything a script does not decide: what initdb generates, whether
      pg_upgrade succeeds, and what an interrupted command has left. */
  datatype Chance = Chance(
    id: string, checkpoint: string, conf: map<File, string>, success: bool,
    vanished: bool, keepVersion: bool, keepControl: bool, keepOld: bool, keepFiles: set<File>)

  function Entry(t: Task): Pc
    requires !t.Helper?
  {
    match t
    case Upgrade(_, _, _, _, _) => PCheck
    case Convert(_, _, _, _, _) => SCheck
    case Move(_) => MTest
  }

  // pc is a command of the script task t runs.
  predicate InProgram(pc: Pc, t: Task) {
    match t
    case Helper => false
    case Upgrade(_, _, _, _, _) => pc.PCheck? || pc.PClean? || pc.PInit? || pc.PUpgrade? || pc.PConf? || pc.PReport?
    case Convert(_, _, _, _, _) =>
      || pc.SCheck? || pc.SClean? || pc.SCompare? || pc.SWait? || pc.SKeep? || pc.SRsync?
      || pc.SRestore? || pc.SPublish? || pc.SRemove? || pc.SForget? || pc.SInstall?
    case Move(_) => pc.MTest? || pc.MRemove? || pc.MRename?
  }

  // A recursive removal or copy of d that stopped half way.
  function Fragment(d: Dir, c: Chance): Dir {
    if d.Absent? || c.vanished then
      Absent
    else
      Present(
        if c.keepVersion then d.version else None,
        if c.keepControl then d.control else None,
        if c.keepOld then d.controlOld else None,
        false,
        map f | f in d.conf && f in c.keepFiles :: d.conf[f])
  }

  // The old data directory of a replica while, or after, rsync turns it into the primary's.
  function Overwritten(own: Dir, src: Dir, c: Chance): Dir {
    Present(
      if c.keepVersion then VersionOf(own) else VersionOf(src),
      if c.keepControl && own.Present? then own.control else if src.Present? then src.control else None,
      if src.Present? then src.controlOld else None,
      false,
      c.conf)
  }

  /** The data.new that `rsync --size-only` makes of the primary's. It takes files of the same size for equal and so
      relies on the replica's old files being the primary's old files, to which those of data.new are linked. */
  function Copied(own: Dir, src: Volume): Dir {
    if CaughtUpWith(own, src.data) || src.dataNew.Absent? then src.dataNew else src.dataNew.(intact := false)
  }

  // private/upgrade/upgrade-scripts/primary-upgrade
  function RunUpgrade(x: Volume, pc: Pc, t: Task, c: Chance): Effect
    requires t.Upgrade?
  {
    match pc
    case PCheck =>
      if t.id == "" then
        Effect(x, Idle)
      else if Disabled(x.data) then
        Effect(x, At(PReport("")))
      else if VersionOf(x.data) != Some(t.before) || SysIdOf(x.data) != t.id then
        Effect(x, Idle)
      else
        Effect(x, At(PClean(CheckpointOf(x.data))))
    case PClean(ckpt) =>
      Effect(x.(dataNew := Absent), At(PInit(ckpt)))
    case PInit(ckpt) =>
      if x.dataNew.Present? then
        Effect(x, Idle)
      else
        Effect(x.(dataNew := Present(Some(t.after), Some(Control(c.id, c.checkpoint)), None, false, c.conf)),
               At(PUpgrade(ckpt)))
    case PUpgrade(ckpt) =>
      if c.success && x.data.Present? && x.data.control.Some? && x.dataNew.Present? then
        Effect(x.(data := x.data.(control := None, controlOld := x.data.control),
                  dataNew := x.dataNew.(intact := true)),
               At(PConf(ckpt, 0)))
      else
        Effect(x.(dataNew := Fragment(x.dataNew, c)), Idle)
    case PConf(ckpt, k) =>
      if k < |PRESERVE_FILES| && x.dataNew.Present? then
        Effect(x.(dataNew := x.dataNew.(conf := CopyFile(ConfOf(x.data), PRESERVE_FILES[k], x.dataNew.conf))),
               At(PConf(ckpt, k + 1)))
      else
        Effect(x, At(PReport(ckpt)))
    case PReport(ckpt) =>
      Effect(x, Finished(Upgraded(ckpt, SysIdOf(x.dataNew))))
    case _ =>
      Effect(x, Idle)
  }

  // private/upgrade/upgrade-scripts/secondary-upgrade; src is the volume the rsync daemon serves, if one runs
  function RunConvert(x: Volume, pc: Pc, t: Task, src: Option<Volume>, c: Chance): Effect
    requires t.Convert?
  {
    match pc
    case SCheck =>
      if t.checkpoint == "" || t.id == "" || VersionOf(x.data).None? then
        Effect(x, Idle)
      else if SysIdOf(x.data) == t.id && VersionOf(x.data) == Some(t.after) then
        Effect(x, Finished(NoOutput))
      else if x.done.Absent? then
        Effect(x, At(SClean))
      else
        Effect(x, At(SRemove))
    case SClean =>
      Effect(x.(dataNew := Absent), At(SCompare))
    case SCompare =>
      if VersionOf(x.data).None? then
        Effect(x, Idle)
      else if VersionOf(x.data) == Some(t.before) && CheckpointOf(x.data) == t.checkpoint then
        Effect(x, At(SWait))
      else
        Effect(x, At(SRemove))
    case SWait =>
      if src.None? then
        Effect(x, At(SWait))
      else
        Effect(x.(preserve := if x.preserve.None? then Some(map[]) else x.preserve), At(SKeep(0)))
    case SKeep(k) =>
      if k < |PRESERVE_FILES| && x.preserve.Some? then
        Effect(if PRESERVE_FILES[k] in x.preserve.value then x
               else x.(preserve := Some(CopyFile(ConfOf(x.data), PRESERVE_FILES[k], x.preserve.value))),
               At(SKeep(k + 1)))
      else
        Effect(x, At(SRsync))
    case SRsync =>
      if src.None? then
        Effect(x, Idle)
      else
        Effect(x.(data := Overwritten(x.data, src.value.data, c.(keepVersion := false, keepControl := false)),
                  dataNew := Copied(x.data, src.value)),
               At(SRestore(0)))
    case SRestore(k) =>
      if k < |PRESERVE_FILES| && x.preserve.Some? && x.dataNew.Present? then
        Effect(x.(dataNew := x.dataNew.(conf := CopyFile(x.preserve.value, PRESERVE_FILES[k], x.dataNew.conf))),
               At(SRestore(k + 1)))
      else
        Effect(x, At(SPublish))
    case SPublish =>
      if x.dataNew.Absent? then
        Effect(x, Idle)
      else
        Effect(x.(dataNew := Absent, done := x.dataNew), At(SRemove))
    case SRemove =>
      Effect(x.(data := Absent), At(SForget))
    case SForget =>
      if x.done.Absent? then
        Effect(x, Finished(NoOutput))
      else
        Effect(x.(preserve := None), At(SInstall))
    case SInstall =>
      if x.done.Absent? then
        Effect(x, Idle)
      else
        Effect(x.(data := x.done, done := Absent), Finished(NoOutput))
    case _ =>
      Effect(x, Idle)
  }

  // private/upgrade/upgrade-scripts/primary-upgrade-move
  function RunMove(x: Volume, pc: Pc): Effect {
    match pc
    case MTest =>
      if x.dataNew.Present? then Effect(x, At(MRemove)) else Effect(x, Finished(NoOutput))
    case MRemove =>
      Effect(x.(data := Absent), At(MRename))
    case MRename =>
      if x.dataNew.Absent? then Effect(x, Idle)
      else Effect(x.(data := x.dataNew, dataNew := Absent), Finished(NoOutput))
    case _ =>
      Effect(x, Idle)
  }

  function Run(x: Volume, pc: Pc, t: Task, src: Option<Volume>, c: Chance): Effect {
    match t
    case Helper => Effect(x, Idle)
    case Upgrade(_, _, _, _, _) => RunUpgrade(x, pc, t, c)
    case Convert(_, _, _, _, _) => RunConvert(x, pc, t, src, c)
    case Move(_) => RunMove(x, pc)
  }

  // The volume when the command at pc is cut short. Renames and single-file copies are atomic.
  function Interrupt(x: Volume, pc: Pc, t: Task, src: Option<Volume>, c: Chance): Volume {
    match pc
    case PClean(_) => x.(dataNew := Fragment(x.dataNew, c))
    case PInit(_) =>
      if x.dataNew.Present? then x
      else
        var version := if c.keepVersion && t.Upgrade? then Some(t.after) else None;
        x.(dataNew := Present(version, None, None, false, c.conf))
    case SClean => x.(dataNew := Fragment(x.dataNew, c))
    case SRsync =>
      if src.None? then x
      else x.(data := Overwritten(x.data, src.value.data, c), dataNew := Fragment(src.value.dataNew, c))
    case SRemove => x.(data := Fragment(x.data, c))
    case SForget =>
      if x.preserve.None? || x.done.Absent? then x
      else x.(preserve := Some(map f | f in x.preserve.value && f in c.keepFiles :: x.preserve.value[f]))
    case MRemove => x.(data := Fragment(x.data, c))
    case _ => x
  }
}
