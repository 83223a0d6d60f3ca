/** What one undisturbed reconcile does and what it holds back from, said of the cluster before and after. */
module Laws {
  import opened Base
  import opened World
  import opened Protocol
  import opened Rounds
  import opened Images

  /** A ready cluster is admitted to the upgrade its spec asks for exactly if the instance is not to be ignored, the
      version is another one and on offer, and with several volumes Patroni has named a leader. */
  lemma AdmittedExactlyIf(w: World)
    requires w.status.state == Ready && w.status.upgradeVersion == 0 && Lookup(w.table, w.status.version).Some?
    ensures var s := ReconcileRound(w).0.status;
            && (s.upgradeVersion != 0 <==>
                  && !w.spec.ignore && w.spec.version != 0
                  && w.spec.version != w.status.version && w.spec.version in w.status.upgradeVersions
                  && (w.status.volumes > 1 ==> w.leader.Some?))
            && (s.upgradeVersion != 0 ==> s == w.status.(upgradeVersion := w.spec.version))
  {
    var w0 := Apply(w, Fetch);
    var img := Lookup(w.table, w.status.version).value;
    if !w.spec.ignore && w.status.version == w.spec.version {
      assert ReconcileRound(w) == OrdinaryRound(w0, img);
    }
  }

  /** A version that is not on offer is refused, and nothing is reconciled until the spec is changed. */
  lemma UnofferedIsRefused(w: World)
    requires w.status.state == Ready && w.status.upgradeVersion == 0 && Lookup(w.table, w.status.version).Some?
    requires !w.spec.ignore && w.spec.version != w.status.version && w.spec.version !in w.status.upgradeVersions
    ensures ReconcileRound(w) == (w.(seen := w.spec, told := None), true)
  {
  }

  /** preupgrade-sync works on a cluster that has been asked to run: with several volumes, the reconcile that leaves its
      job behind leaves the replicas of the spec asked for, at the old version. */
  lemma SyncFindsReplicas(w: World)
    requires Inv(w) && InStage(w, Sync) && SyncJob !in w.jobs
    ensures var w' := ReconcileRound(w).0;
            SyncJob in w'.jobs ==> w'.sts == Some(Sts(w.spec.nodes, w.status.version)) && w.status.volumes != 1
  {
  }

  /** postupgrade waits: as long as the replicas are not all ready its job is not created and its stage not left. */
  lemma PostupgradeWaits(w: World)
    requires Inv(w) && InStage(w, Postupgrade) && PostJob !in w.jobs && w.ready != w.spec.nodes
    ensures var w' := ReconcileRound(w).0;
            PostJob !in w'.jobs && w'.status == w.status
  {
    var w0 := Apply(w, Fetch);
    assert PostupgradeRound(w0, w.spec.nodes).w == Apply(w0, PutSts(Sts(w.spec.nodes, w.status.version)));
  }

  /** The job of primary-upgrade is not deleted after a success without its result on record, failed before or not. */
  lemma ResultIsRecorded(w: World)
    requires Inv(w) && Succeeded(w, UpJob) && UpJob !in ReconcileRound(w).0.jobs
    ensures var c, out := ReconcileRound(w).0.config, w.jobs[UpJob].pod.output;
            && out.Upgraded? && c.initialize == Some(out.newSysId)
            && (out.oldCheckpoint != "" ==> c.checkpoint == Some(out.oldCheckpoint))
            && c.settings.Some? && PAUSE !in c.settings.value
  {
    assert JobOk(w, UpJob);
  }
}
