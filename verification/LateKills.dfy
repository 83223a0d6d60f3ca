/** What a kill of primary-upgrade after pg_upgrade costs: exactly when the checkpoint is
    reported, and exactly when the leader's configuration files are carried over. */
module LateKills {
  import opened Volumes
  import opened Scripts
  import opened Leader

  // pg_upgrade is done, and the script's last line is not.
  predicate PastUpgrade(pod: Pod) {
    pod.At? && (pod.pc.PConf? || pod.pc.PReport?)
  }

  // The files are not all copied yet.
  predicate Copying(pod: Pod) {
    pod.At? && pod.pc.PConf? && pod.pc.k < |PRESERVE_FILES|
  }

  // A pod was killed between pg_upgrade and the script's last line.
  ghost predicate KilledLate(x: Volume, es: seq<Event>, t: Task)
    requires t.Upgrade?
  {
    es != [] &&
    (|| KilledLate(x, es[..|es| - 1], t)
     || (es[|es| - 1].Kill? && PastUpgrade(After(Node(x, Idle), es[..|es| - 1], t).pod)))
  }

  // A pod was killed between pg_upgrade and the last copy of a configuration file.
  ghost predicate KilledCopying(x: Volume, es: seq<Event>, t: Task)
    requires t.Upgrade?
  {
    es != [] &&
    (|| KilledCopying(x, es[..|es| - 1], t)
     || (es[|es| - 1].Kill? && Copying(After(Node(x, Idle), es[..|es| - 1], t).pod)))
  }

  // ----- the checkpoint

  // k is the old checkpoint; `killed` says whether a pod was killed late.
  predicate ReportsExactly(n: Node, killed: bool, k: string) {
    if !Disabled(n.x.data) then
      !killed && !PastUpgrade(n.pod) && !n.pod.Finished?
    else match n.pod
      case Idle => killed
      case At(PConf(ckpt, _)) => !killed && ckpt == k
      case At(PReport(ckpt)) => ckpt == if killed then "" else k
      case At(pc) => pc.PCheck? && killed
      case Finished(out) => out.Upgraded? && out.oldCheckpoint == if killed then "" else k
  }

  lemma StepReportsExactly(n: Node, e: Event, t: Task, killed: bool, k: string)
    requires t.Upgrade? && UpgradePodOk(n.x, n.pod, t) && ReportsExactly(n, killed, k)
    requires LastCheckpoint(n.x.data) == k
    ensures ReportsExactly(Next(n, e, t), killed || (e.Kill? && PastUpgrade(n.pod)), k)
  {
  }

  lemma {:induction false} EveryReport(x: Volume, es: seq<Event>, t: Task, id: string)
    requires t.Upgrade? && Untouched(x, t.before, id)
    ensures ReportsExactly(After(Node(x, Idle), es, t), KilledLate(x, es, t), CheckpointOf(x.data))
  {
    if es != [] {
      var front := es[..|es| - 1];
      EveryReport(x, front, t, id);
      UpgradeIsCrashSafe(x, front, t, id);
      StepReportsExactly(After(Node(x, Idle), front, t), es[|es| - 1], t, KilledLate(x, front, t),
          CheckpointOf(x.data));
    }
  }

  /** Whatever the kills and restarts, an exit 0 has printed the old database's checkpoint exactly if no pod was
      killed between pg_upgrade and the script's last line; otherwise it has printed nothing. */
  lemma {:induction false} CheckpointIsReportedExactly(x: Volume, es: seq<Event>, t: Task, id: string)
    requires t.Upgrade? && Untouched(x, t.before, id) && CheckpointOf(x.data) != ""
    requires After(Node(x, Idle), es, t).pod.Finished?
    ensures var out := After(Node(x, Idle), es, t).pod.output;
            && out.Upgraded?
            && (out.oldCheckpoint == CheckpointOf(x.data) <==> !KilledLate(x, es, t))
            && (KilledLate(x, es, t) ==> out.oldCheckpoint == "")
  {
    EveryReport(x, es, t, id);
  }

  // ----- the configuration files

  function IndexOf(f: File): (i: nat)
    ensures i < |PRESERVE_FILES| && PRESERVE_FILES[i] == f
  {
    match f
    case PostgresqlConf => 0
    case BaseConf => 1
    case AutoConf => 2
    case HbaConf => 3
    case IdentConf => 4
  }

  // base with the first k preserved files taken from own, where own has them.
  function Overlay(base: map<File, string>, own: map<File, string>, k: nat): map<File, string>
    requires k <= |PRESERVE_FILES|
  {
    if k == 0 then base else CopyFile(own, PRESERVE_FILES[k - 1], Overlay(base, own, k - 1))
  }

  lemma {:induction false} OverlayAt(base: map<File, string>, own: map<File, string>, k: nat, f: File)
    requires k <= |PRESERVE_FILES|
    ensures var r, from := Overlay(base, own, k), if IndexOf(f) < k && f in own then own else base;
            (f in r <==> f in from) && (f in r ==> r[f] == from[f])
  {
    if k > 0 {
      OverlayAt(base, own, k - 1, f);
      assert PRESERVE_FILES[k - 1] == f <==> IndexOf(f) == k - 1;
    }
  }

  // What initdb had put into data.new when pg_upgrade took the database there.
  ghost function Initial(x: Volume, es: seq<Event>, t: Task): map<File, string>
    requires t.Upgrade?
  {
    if es == [] then map[]
    else if Disabled(After(Node(x, Idle), es[..|es| - 1], t).x.data) then Initial(x, es[..|es| - 1], t)
    else ConfOf(After(Node(x, Idle), es, t).x.dataNew)
  }

  // How many of the files the loop has come past.
  ghost function Copied(x: Volume, es: seq<Event>, t: Task): nat
    requires t.Upgrade?
  {
    if es == [] then 0
    else
      var n := After(Node(x, Idle), es[..|es| - 1], t);
      if es[|es| - 1].Command? && Copying(n.pod) then n.pod.pc.k + 1 else Copied(x, es[..|es| - 1], t)
  }

  predicate FilesExactly(n: Node, killed: bool, copied: nat, base: map<File, string>, own: map<File, string>) {
    && n.x.data.Present? && ConfOf(n.x.data) == own && copied <= |PRESERVE_FILES|
    && if !Disabled(n.x.data) then
         !killed && copied == 0 && !PastUpgrade(n.pod) && !n.pod.Finished?
       else
         && n.x.dataNew.Present?
         && n.x.dataNew.conf == Overlay(base, own, copied)
         && match n.pod
            case At(PConf(_, k)) => !killed && copied == k
            case At(pc) => (pc.PCheck? || pc.PReport?) && (!killed ==> copied == |PRESERVE_FILES|)
            case _ => !killed ==> copied == |PRESERVE_FILES|
  }

  lemma StepFilesExactly(n: Node, e: Event, t: Task, killed: bool, copied: nat,
      base: map<File, string>, own: map<File, string>)
    requires t.Upgrade? && UpgradePodOk(n.x, n.pod, t) && FilesExactly(n, killed, copied, base, own)
    ensures FilesExactly(Next(n, e, t), killed || (e.Kill? && Copying(n.pod)),
                         if e.Command? && Copying(n.pod) then n.pod.pc.k + 1 else copied,
                         if Disabled(n.x.data) then base else ConfOf(Next(n, e, t).x.dataNew), own)
  {
  }

  lemma {:induction false} EveryFile(x: Volume, es: seq<Event>, t: Task, id: string)
    requires t.Upgrade? && Untouched(x, t.before, id)
    ensures FilesExactly(After(Node(x, Idle), es, t), KilledCopying(x, es, t), Copied(x, es, t), Initial(x, es, t),
        ConfOf(x.data))
  {
    if es != [] {
      var front := es[..|es| - 1];
      EveryFile(x, front, t, id);
      UpgradeIsCrashSafe(x, front, t, id);
      StepFilesExactly(After(Node(x, Idle), front, t), es[|es| - 1], t, KilledCopying(x, front, t), Copied(x, front, t),
                       Initial(x, front, t), ConfOf(x.data));
    }
  }

  // File f of the new directory is the leader's own.
  predicate HasOwn(conf: map<File, string>, own: map<File, string>, f: File) {
    f in own ==> f in conf && conf[f] == own[f]
  }

  lemma CarriesEach(conf: map<File, string>, own: map<File, string>)
    ensures Carries(conf, own) <==> forall f :: HasOwn(conf, own, f)
  {
    if forall f :: HasOwn(conf, own, f) {
      forall f | f in own
        ensures f in conf && conf[f] == own[f]
      {
        assert HasOwn(conf, own, f);
      }
    }
  }

  /** After an exit 0 the new directory has the leader's configuration files exactly if initdb happened to generate
      each of those the copying loop had not come to when its pod was killed; it had come to all of them exactly if
      no pod was killed while copying. */
  lemma {:induction false} FilesAreCarriedExactly(x: Volume, es: seq<Event>, t: Task, id: string)
    requires t.Upgrade? && Untouched(x, t.before, id)
    requires After(Node(x, Idle), es, t).pod.Finished?
    ensures var own := ConfOf(x.data);
            Carries(ConfOf(After(Node(x, Idle), es, t).x.dataNew), own) <==>
              forall f :: Copied(x, es, t) <= IndexOf(f) ==> HasOwn(Initial(x, es, t), own, f)
    ensures Copied(x, es, t) == |PRESERVE_FILES| <==> !KilledCopying(x, es, t)
  {
    EveryFile(x, es, t, id);
    var n, own, base, k := After(Node(x, Idle), es, t), ConfOf(x.data), Initial(x, es, t), Copied(x, es, t);
    forall f
      ensures HasOwn(n.x.dataNew.conf, own, f) <==> IndexOf(f) < k || HasOwn(base, own, f)
    {
      OverlayAt(base, own, k, f);
    }
    CarriesEach(n.x.dataNew.conf, own);
    if KilledCopying(x, es, t) { KilledLeavesSome(x, es, t, id); }
  }

  // A pod killed while copying had not come to the last file.
  lemma {:induction false} KilledLeavesSome(x: Volume, es: seq<Event>, t: Task, id: string)
    requires t.Upgrade? && Untouched(x, t.before, id) && KilledCopying(x, es, t)
    ensures Copied(x, es, t) < |PRESERVE_FILES| && !Copying(After(Node(x, Idle), es, t).pod)
  {
    var front := es[..|es| - 1];
    EveryFile(x, front, t, id);
    EveryFile(x, es, t, id);
    if KilledCopying(x, front, t) {
      KilledLeavesSome(x, front, t, id);
    }
  }
}
