/** The operator's handlers and its reconcile loop, call by call. */
module Operator {
  import opened Base
  import opened Volumes
  import opened Scripts
  import opened Images
  import opened Initdb
  import opened World
  import opened Protocol
  import opened Rounds
  import opened Stability
  import opened ApiServer
  import opened StageChain

  // The operator has neither written the status nor read the instance anew.
  predicate Steady(w: World, w': World) {
    w'.status == w.status && w'.seen == w.seen
  }

  // What is known of job `name` since it was read as `job`.
  predicate Known(w: World, name: JobName, job: Job) {
    && name in w.jobs && !w.jobs[name].deleting
    && (job.pod.Finished? ==> w.jobs[name].pod == job.pod)
    && (job.failed ==> w.jobs[name].failed)
  }

  lemma KnownLater(w: World, w': World, name: JobName, job: Job)
    requires Known(w, name, job) && Later(w, w')
    ensures Known(w', name, job)
  {
    assert JobLater(w, w', name);
  }

  // A conversion job as the secondaries handler holds it.
  datatype Client = Client(i: nat, job: Job)

  function Indices(cs: seq<Client>): seq<nat> {
    seq(|cs|, k requires 0 <= k < |cs| => cs[k].i)
  }

  // The clients are the jobs as they stand.
  ghost predicate Current(w: World, cs: seq<Client>) {
    forall k :: 0 <= k < |cs| ==> SupJob(cs[k].i) in w.jobs && cs[k].job == w.jobs[SupJob(cs[k].i)]
  }

  lemma ClientsBelow(cs: seq<Client>, n: nat, leader: nat)
    requires Indices(cs) == Others(n, leader)
    ensures forall k :: 0 <= k < |cs| ==> cs[k].i < n && cs[k].i != leader
  {
    forall k | 0 <= k < |cs|
      ensures cs[k].i < n && cs[k].i != leader
    {
      assert cs[k].i == Indices(cs)[k];
      assert Others(n, leader)[k] in Others(n, leader);
    }
  }

  lemma OneMore(w: World, i: nat, leader: nat)
    requires i != leader && w.config.checkpoint.Some? && w.config.initialize.Some?
    ensures Others(i + 1, leader) == Others(i, leader) + [i]
    ensures CreateMissing(w, Others(i + 1, leader)) ==
            Apply(CreateMissing(w, Others(i, leader)), NewJob(SupJob(i), ConvertTask(w, i)))
  {
    assert Others(i + 1, leader)[..|Others(i, leader)|] == Others(i, leader);
  }

  // What has been seen of a client is still so: its success is on record, and its job, if it is there, has failed.
  predicate StillSo(w: World, c: Client) {
    && (c.job.pod.Finished? ==> SupJob(c.i) in w.finished)
    && (c.job.failed && SupJob(c.i) in w.jobs ==> w.jobs[SupJob(c.i)].failed)
  }

  ghost predicate AllStillSo(w: World, cs: seq<Client>) {
    forall k :: 0 <= k < |cs| ==> StillSo(w, cs[k])
  }

  predicate AllFinished(cs: seq<Client>, n: nat)
    requires n <= |cs|
  {
    forall k :: 0 <= k < n ==> cs[k].job.pod.Finished?
  }

  // The counting loop over the volumes os has turned w0 into w.
  predicate Tallied(w0: World, w: World, os: seq<nat>, succeeded: nat, failed: nat) {
    w == RetireFailed(w0, os) && succeeded == CountSucceeded(w0, os) && failed == CountFailed(w0, os)
  }

  lemma TallyOneMore(w0: World, w: World, w': World, cs: seq<Client>, k: nat, succeeded: nat, failed: nat)
    requires k < |cs| && Current(w0, cs)
    ensures var os, j := Indices(cs), cs[k].job;
            && Tallied(w0, w, os[..k], succeeded, failed)
            && w' == (if j.failed && !j.pod.Finished? then Apply(w, RetireJob(SupJob(cs[k].i))) else w)
            ==> Tallied(w0, w', os[..k + 1], succeeded + (if j.pod.Finished? then 1 else 0),
                        failed + (if j.failed && !j.pod.Finished? then 1 else 0))
  {
    var os := Indices(cs);
    assert os[..k + 1][..k] == os[..k] && os[..k + 1][k] == cs[k].i;
  }

  lemma StillSoLater(w: World, w': World, cs: seq<Client>)
    requires AllStillSo(w, cs) && Later(w, w')
    ensures AllStillSo(w', cs)
  {
    forall k | 0 <= k < |cs|
      ensures StillSo(w', cs[k])
    {
      assert StillSo(w, cs[k]) && JobLater(w, w', SupJob(cs[k].i));
    }
  }

  // The jobs of the first n clients are gone.
  ghost predicate Gone(w: World, cs: seq<Client>, n: nat)
    requires n <= |cs|
  {
    forall j :: 0 <= j < n ==> SupJob(cs[j].i) !in w.jobs
  }

  lemma GoneLater(w: World, w': World, cs: seq<Client>, n: nat)
    requires n <= |cs| && Gone(w, cs, n) && Later(w, w')
    ensures Gone(w', cs, n)
  {
    forall j | 0 <= j < n
      ensures SupJob(cs[j].i) !in w'.jobs
    {
      assert JobLater(w, w', SupJob(cs[j].i));
    }
  }

  // vols with claims for the first n volumes.
  function Fill(vols: map<nat, Volume>, n: nat): (r: map<nat, Volume>)
    ensures forall i: nat :: i in r <==> i in vols || i < n
    ensures forall i: nat :: i in r ==> r[i] == if i in vols then vols[i] else EMPTY
  {
    if n == 0 then vols
    else
      var r := Fill(vols, n - 1);
      if n - 1 in r then r else r[n - 1 := EMPTY]
  }

  function From(claims: set<nat>, n: nat): set<nat> {
    set i | i in claims && n <= i
  }

  // w is w0 with claims for the first n volumes.
  predicate Filled(w0: World, w: World, n: nat) {
    w == w0.(vols := Fill(w0.vols, n))
  }

  lemma FillNext(w0: World, w: World, w': World, n: nat)
    requires Filled(w0, w, n) && w' == if n in w0.vols then w else Apply(w, NewClaim(n))
    ensures Filled(w0, w', n + 1)
  {
  }

  // Claims for the first n volumes exist.
  predicate HasFirst(vols: map<nat, Volume>, n: nat) {
    forall i: nat :: i < n ==> i in vols
  }

  lemma OneMoreClaim(vols: map<nat, Volume>, vols': map<nat, Volume>, claims: set<nat>, n: nat)
    ensures From(claims, n + 1) == From(claims, n) - {n}
    ensures HasFirst(vols, n) && vols.Keys <= vols'.Keys && n in vols' ==> HasFirst(vols', n + 1)
  {
  }

  lemma RestDropped(w: World, n: nat)
    ensures Without(w.(vols := Fill(w.vols, n)), From(w.vols.Keys, n)) == ClaimsRound(w, n)
  {
    var vols, gone := Fill(w.vols, n), From(w.vols.Keys, n);
    assert vols - gone == ClaimsRound(w, n).vols;
    assert w.pods - gone == ClaimsRound(w, n).pods;
  }

  function Without(w: World, gone: set<nat>): World {
    w.(vols := w.vols - gone, pods := w.pods - gone)
  }

  lemma DropOneMore(w: World, gone: set<nat>, i: nat)
    ensures Apply(Without(w, gone), DropClaim(i)) == Without(w, gone + {i})
  {
    assert w.vols - gone - {i} == w.vols - (gone + {i});
    assert w.pods - gone - {i} == w.pods - (gone + {i});
  }

  /** One reconcile of one PatroniPostgres: `status` and `spec` are the fetched instance,
      changed in memory and written back only if the reconcile succeeds. */
  class Reconciler {
    const api: Api
    const upgrademap: Links<Stage>
    var status: Status
    var spec: Spec

    // The instance has been read, and does not say to ignore it.
    ghost predicate Attending()
      reads api
    {
      api.Valid() && !api.w.seen.ignore
    }

    // The instance in memory is the one that was read, with the persisted status, and the cluster is in stage k.
    ghost predicate At(k: Stage)
      reads this, api
    {
      Attending() && InStage(api.w, k) && status == api.w.status && spec == api.w.seen
    }

    constructor (api: Api, upgrademap: Links<Stage>)
      ensures this.api == api && this.upgrademap == upgrademap
    {
      this.api, this.upgrademap := api, upgrademap;
      status := Status(State.Fresh, 0, 0, [], 0);
      spec := Spec(false, 0, 0);
    }

    // Get an object, then update it.
    method Update(c: Call) returns (ok: bool, ghost mid: World)
      requires api.Valid() && Allowed(api.w, c) && !c.Persist?
      modifies api
      ensures api.Valid() && old(api.hist) <= api.hist
      ensures Inv(mid) && Later(old(api.w), mid) && Allowed(mid, c)
      ensures api.w == mid || api.w == Apply(mid, c)
      ensures ok ==> api.w == Apply(mid, c)
      ensures api.Undisturbed() ==> ok && mid == old(api.w)
    {
      ok := api.Read();
      mid := api.w;
      AllowedLater(old(api.w), api.w, c);
      if ok {
        ghost var w1 := api.w;
        ok, mid := api.Do(c);
        LaterTrans(old(api.w), w1, mid);
      }
    }

    // ensureUpgradeJob for the helper jobs: the job as it was found or created
    method EnsureHelper(name: JobName) returns (ok: bool, job: Job)
      requires Attending() && InStage(api.w, StageOf(name))
      requires name == PreJob || name == SyncJob || name == PostJob
      requires name == SyncJob ==> api.w.status.volumes != 1 && ScaledUp(api.w)
      requires name == PostJob ==> ScaledUp(api.w) && api.w.told == Some(api.w.seen.nodes)
      modifies api
      ensures api.Valid() && old(api.hist) <= api.hist
      ensures Steady(old(api.w), api.w) && api.w.config.checkpoint == old(api.w.config.checkpoint)
      ensures ok ==> Known(api.w, name, job)
      ensures api.Undisturbed() ==>
                && ok && api.w == Apply(old(api.w), NewJob(name, Helper))
                && job == api.w.jobs[name]
    {
      var found: Option<Job>;
      ok, found := api.GetJob(name);
      job := Job(Helper, Idle, false, false);
      assert JobOk(api.w, name);
      if ok && found.Some? {
        job := found.value;
      } else if ok {
        ok := CreateHelper(name);
      }
    }

    method CreateHelper(name: JobName) returns (ok: bool)
      requires Attending() && Allowed(api.w, NewJob(name, Helper))
      modifies api
      ensures api.Valid() && old(api.hist) <= api.hist
      ensures Steady(old(api.w), api.w) && api.w.config.checkpoint == old(api.w.config.checkpoint)
      ensures ok ==> Known(api.w, name, Job(Helper, Idle, false, false))
      ensures api.Undisturbed() ==> ok && api.w == Apply(old(api.w), NewJob(name, Helper))
    {
      ghost var w1, mid := api.w, api.w;
      ok, mid := api.Do(NewJob(name, Helper));
      assert JobLater(w1, mid, name);
    }

    // cleanupJob: delete a job that has succeeded or failed
    method CleanupJob(name: JobName, job: Job) returns (ok: bool)
      requires Attending() && InStage(api.w, StageOf(name)) && name != UpJob && !name.SupJob?
      requires Known(api.w, name, job)
      modifies api
      ensures api.Valid() && old(api.hist) <= api.hist
      ensures Steady(old(api.w), api.w) && api.w.config.initdbArgs == old(api.w.config.initdbArgs)
      ensures api.w.config.checkpoint == old(api.w.config.checkpoint)
      ensures ok && job.pod.Finished? ==>
                name in api.w.finished && api.w.finished[name] == job.pod.output && name !in api.w.jobs
      ensures api.Undisturbed() ==>
                && ok
                && api.w == if job.pod.Finished? || job.failed then Apply(old(api.w), DropJob(name)) else old(api.w)
    {
      ok := true;
      if job.pod.Finished? || job.failed {
        ghost var w1, mid := api.w, api.w;
        ok, mid := api.Do(DropJob(name));
        assert JobOk(w1, name);
        assert JobLater(w1, mid, name);
      }
    }

    // preupgradeHandler.handle
    method Preupgrade() returns (done: bool, err: bool)
      requires At(Stage.Preupgrade)
      modifies api
      ensures api.Valid() && old(api.hist) <= api.hist && Steady(old(api.w), api.w)
      ensures done && !err ==> Done(api.w, Stage.Preupgrade)
      ensures api.Undisturbed() ==> Verdict(api.w, done, err) == PreupgradeRound(old(api.w))
    {
      done, err := false, false;
      var refused := false;
      var ok, job;
      ok, job := EnsureHelper(PreJob);
      if !ok { return false, true; }
      if job.pod.Finished? {
        ok, done := TakeSettings(job);
        if !ok { return false, true; }
        refused := !done;
      }
      ok := CleanupJob(PreJob, job);
      if !ok { return false, true; }
      err := job.failed || refused;
    }

    // The job has reported settings that allow an upgrade, and they are on record.
    predicate Taken(w: World, job: Job) {
      && job.pod.Finished? && job.pod.output.Settings? && job.pod.output.config.maxPreparedTransactions == 0
      && w.config.initdbArgs == Some(InitdbArgs(job.pod.output.config))
    }

    // The pod's log is read; the arguments for initdb are recorded, unless prepared transactions are in use
    method TakeSettings(job: Job) returns (ok: bool, taken: bool)
      requires At(Stage.Preupgrade) && Known(api.w, PreJob, job) && job.pod.Finished?
      modifies api
      ensures api.Valid() && old(api.hist) <= api.hist && Steady(old(api.w), api.w)
      ensures ok ==> Known(api.w, PreJob, job) && (taken ==> Taken(api.w, job))
      ensures api.Undisturbed() ==>
                var out := job.pod.output;
                && (ok <==> out.Settings?)
                && (ok ==> (taken <==> out.config.maxPreparedTransactions == 0))
                && api.w == if ok && taken then Apply(old(api.w), PutInitdbArgs(InitdbArgs(out.config))) else old(api.w)
    {
      taken := false;
      ok := api.Read();
      KnownLater(old(api.w), api.w, PreJob, job);
      if !ok || !job.pod.output.Settings? { return false, false; }
      if job.pod.output.config.maxPreparedTransactions == 0 {
        ghost var w1, mid := api.w, api.w;
        assert JobOk(w1, PreJob);
        ok, mid := Update(PutInitdbArgs(InitdbArgs(job.pod.output.config)));
        KnownLater(w1, mid, PreJob, job);
        taken := ok;
      }
    }

    // scaledownHandler.handle, for both scale-down stages
    method ScaleDown(ghost k: Stage) returns (done: bool, err: bool)
      requires At(k) && (k == PreScaledown || k == Scaledown)
      modifies api
      ensures api.Valid() && old(api.hist) <= api.hist && Steady(old(api.w), api.w)
      ensures done && !err ==> Done(api.w, k)
      ensures api.Undisturbed() ==> Verdict(api.w, done, err) == ScaledownRound(old(api.w))
    {
      var ok := api.Read();
      if !ok || api.w.sts.None? { return false, true; }
      ghost var mid;
      ok, mid := api.Do(PutSts(api.w.sts.value.(replicas := 0)));
      if !ok { return false, true; }
      return AvailableReplicas() == 0, false;
    }

    /** The available replicas the StatefulSet reports. Environment assumption: with none asked for, the report
        is zero only if no database pod runs. */
    function AvailableReplicas(): nat
      reads api
    {
      |api.w.pods|
    }

    // statefulset.ReconcileSts: get or create, with the replicas of the spec and the version of the status
    method ReconcileSts() returns (ok: bool)
      requires Attending() && status.version == api.w.status.version && spec == api.w.seen
      requires InStage(api.w, Stage.Postupgrade) || (InStage(api.w, Stage.Sync) && api.w.status.volumes != 1)
          || (Serving(api.w) && !api.w.status.state.Upgrading?)
      modifies api
      ensures api.Valid() && old(api.hist) <= api.hist && Steady(old(api.w), api.w)
      ensures api.w.config.checkpoint == old(api.w.config.checkpoint)
      ensures ok ==> api.w.sts == Some(Sts(spec.nodes, status.version)) && api.w.told == Some(api.w.ready)
      ensures api.Undisturbed() ==> ok && api.w == Apply(old(api.w), PutSts(Sts(spec.nodes, status.version)))
    {
      ghost var mid;
      ok, mid := Update(PutSts(Sts(spec.nodes, status.version)));
    }

    // preupgradeSyncHandler.handle
    method PreupgradeSync() returns (done: bool, err: bool)
      requires At(Stage.Sync)
      modifies api
      ensures api.Valid() && old(api.hist) <= api.hist && Steady(old(api.w), api.w)
      ensures done && !err ==> Done(api.w, Stage.Sync)
      ensures api.Undisturbed() ==> Verdict(api.w, done, err) == SyncRound(old(api.w), spec.nodes)
    {
      if status.volumes == 1 { return true, false; }
      var ok := ReconcileSts();
      if !ok { return false, true; }
      ok := Service();
      if !ok { return false, true; }
      var job;
      ok, job := EnsureHelper(SyncJob);
      if !ok { return false, true; }
      done := job.pod.Finished?;
      ok := CleanupJob(SyncJob, job);
      if !ok { return false, true; }
      err := job.failed;
    }

    // Objects that have no bearing on an upgrade: services, secrets, roles, policies.
    method Service() returns (ok: bool)
      requires Attending()
      modifies api
      ensures api.Valid() && old(api.hist) <= api.hist && Later(old(api.w), api.w)
      ensures api.Undisturbed() ==> ok && api.w == old(api.w)
    {
      ghost var mid;
      ok, mid := Update(Other);
    }

    // SetLatestCheckpointLocation and SetDBId, in that order
    method RecordResult(out: Output) returns (ok: bool)
      requires Attending() && InStage(api.w, Stage.Primary) && out.Upgraded?
      requires UpJob in api.w.finished && api.w.finished[UpJob] == out
      modifies api
      ensures api.Valid() && old(api.hist) <= api.hist && Steady(old(api.w), api.w)
      ensures StillReported(old(api.w), api.w, out)
      ensures ok ==> Recorded(api.w) && api.w.config.settings.Some? && PAUSE !in api.w.config.settings.value
      ensures api.Undisturbed() ==>
                var w1 := if out.oldCheckpoint != "" then Apply(old(api.w), PutCheckpoint(out.oldCheckpoint))
                    else old(api.w);
                if w1.config.settings.None? then !ok && api.w == w1
                else ok && api.w == Apply(w1, PutDbId(out.newSysId))
    {
      ok := true;
      if out.oldCheckpoint != "" {
        ok := RecordCheckpoint(out);
        if !ok { return; }
      }
      ok := RecordId(out);
    }

    // The job of stage primary is what it was, or further on, and `out` is still on record.
    predicate StillReported(w: World, w': World, out: Output) {
      && UpJob in w'.finished && w'.finished[UpJob] == out
      && (UpJob in w.jobs ==> UpJob in w'.jobs && (w.jobs[UpJob].failed ==> w'.jobs[UpJob].failed))
    }

    method RecordCheckpoint(out: Output) returns (ok: bool)
      requires Attending() && InStage(api.w, Stage.Primary) && out.Upgraded? && out.oldCheckpoint != ""
      requires UpJob in api.w.finished && api.w.finished[UpJob] == out
      modifies api
      ensures api.Valid() && old(api.hist) <= api.hist && Steady(old(api.w), api.w)
      ensures StillReported(old(api.w), api.w, out)
      ensures ok ==> api.w.config.checkpoint == Some(out.oldCheckpoint)
      ensures api.Undisturbed() ==> ok && api.w == Apply(old(api.w), PutCheckpoint(out.oldCheckpoint))
    {
      ghost var w0, mid := api.w, api.w;
      assert JobOk(w0, UpJob);
      ok, mid := Update(PutCheckpoint(out.oldCheckpoint));
      assert JobLater(w0, mid, UpJob);
    }

    // SetDBId
    method RecordId(out: Output) returns (ok: bool)
      requires Attending() && InStage(api.w, Stage.Primary) && out.Upgraded?
      requires UpJob in api.w.finished && api.w.finished[UpJob] == out
      requires out.oldCheckpoint != "" ==> api.w.config.checkpoint == Some(out.oldCheckpoint)
      modifies api
      ensures api.Valid() && old(api.hist) <= api.hist && Steady(old(api.w), api.w)
      ensures StillReported(old(api.w), api.w, out)
      ensures ok ==> Recorded(api.w) && api.w.config.settings.Some? && PAUSE !in api.w.config.settings.value
      ensures api.Undisturbed() ==>
                if old(api.w).config.settings.None? then !ok && api.w == old(api.w)
                else ok && api.w == Apply(old(api.w), PutDbId(out.newSysId))
    {
      ghost var w1, mid := api.w, api.w;
      assert JobOk(w1, UpJob);
      var config;
      ok, config := api.GetConfig();
      assert JobLater(w1, api.w, UpJob);
      if !ok || config.settings.None? { return false; }
      ghost var w2 := api.w;
      ok, mid := api.Do(PutDbId(out.newSysId));
      assert JobLater(w2, mid, UpJob);
    }

    // The pod's log is read, and what it says recorded
    method TakeResult(job: Job) returns (ok: bool)
      requires At(Stage.Primary) && Known(api.w, UpJob, job) && job.pod.Finished?
      modifies api
      ensures api.Valid() && old(api.hist) <= api.hist && Steady(old(api.w), api.w)
      ensures ok ==>
                && UpJob in api.w.jobs && (job.failed ==> api.w.jobs[UpJob].failed)
                && Recorded(api.w) && api.w.config.settings.Some? && PAUSE !in api.w.config.settings.value
      ensures api.Undisturbed() ==>
                var out := job.pod.output;
                if !out.Upgraded? then !ok && api.w == old(api.w)
                else
                  var w1 := if out.oldCheckpoint != "" then Apply(old(api.w), PutCheckpoint(out.oldCheckpoint))
                      else old(api.w);
                  if w1.config.settings.None? then !ok && api.w == w1
                  else ok && api.w == Apply(w1, PutDbId(out.newSysId))
    {
      ok := api.Read();
      KnownLater(old(api.w), api.w, UpJob, job);
      assert JobOk(api.w, UpJob);
      if !ok || !job.pod.output.Upgraded? { return false; }
      ok := RecordResult(job.pod.output);
    }

    // primaryUpgradeHandler.handle
    method PrimaryUpgrade() returns (done: bool, err: bool)
      requires At(Stage.Primary)
      modifies api
      ensures api.Valid() && old(api.hist) <= api.hist && Steady(old(api.w), api.w)
      ensures done && !err ==> Done(api.w, Stage.Primary)
      ensures api.Undisturbed() ==> Verdict(api.w, done, err) == PrimaryRound(old(api.w))
    {
      done, err := false, false;
      var ok, found;
      ok, found := api.GetJob(UpJob);
      if !ok { return false, true; }
      if found.None? {
        err := CreateUpgrade();
        return false, err;
      }
      assert JobOk(api.w, UpJob);
      done, err := FinishUpgrade(found.value);
    }

    // With the job as it was found: its result is recorded, then it is deleted
    method FinishUpgrade(job: Job) returns (done: bool, err: bool)
      requires At(Stage.Primary) && Known(api.w, UpJob, job)
      modifies api
      ensures api.Valid() && old(api.hist) <= api.hist && Steady(old(api.w), api.w)
      ensures done && !err ==> Done(api.w, Stage.Primary)
      ensures api.Undisturbed() && old(api.w.jobs)[UpJob] == job ==>
          Verdict(api.w, done, err) == PrimaryRound(old(api.w))
    {
      var ok;
      done, err := false, job.failed;
      if job.pod.Finished? {
        ok := TakeResult(job);
        if !ok { return false, true; }
        done := true;
      }
      ok := CleanupUpgrade(job);
      if !ok { return false, true; }
    }

    // The job is deleted if it has succeeded or failed
    method CleanupUpgrade(job: Job) returns (ok: bool)
      requires At(Stage.Primary) && UpJob in api.w.jobs && (job.failed ==> api.w.jobs[UpJob].failed)
      requires job.pod.Finished? ==>
          Recorded(api.w) && api.w.config.settings.Some? && PAUSE !in api.w.config.settings.value
      modifies api
      ensures api.Valid() && old(api.hist) <= api.hist && Steady(old(api.w), api.w)
      ensures ok && job.pod.Finished? ==> Done(api.w, Stage.Primary)
      ensures api.Undisturbed() ==>
                ok && api.w == if job.pod.Finished? || job.failed then Apply(old(api.w), DropJob(UpJob)) else old(api.w)
    {
      ok := true;
      if job.pod.Finished? || job.failed {
        ghost var w1, mid := api.w, api.w;
        assert JobOk(w1, UpJob);
        ok, mid := api.Do(DropJob(UpJob));
        assert JobLater(w1, mid, UpJob);
      }
    }

    // The three reads the job's specification needs; a leader index beyond VolumeStatuses panics.
    method UpgradeInputs() returns (ok: bool, args: string, leader: nat, id: string)
      requires At(Stage.Primary)
      modifies api
      ensures api.Valid() && old(api.hist) <= api.hist && Later(old(api.w), api.w)
      ensures ok ==>
                && api.w.config.initialize == Some(id) && leader == Target(api.w)
                && args == if api.w.config.initdbArgs.Some? then api.w.config.initdbArgs.value else ""
      ensures api.Undisturbed() ==> api.w == old(api.w) && (ok <==> LeaderKnown(api.w) && api.w.config.initialize.Some?)
    {
      args, leader, id := "", 0, "";
      var config;
      ok, config := api.GetConfig();
      if !ok { return; }
      args := if config.initdbArgs.Some? then config.initdbArgs.value else "";
      ghost var w1 := api.w;
      ok, leader := api.GetSyncLeader(status.volumes);
      LaterTrans(old(api.w), w1, api.w);
      if !ok { return; }
      ghost var w2 := api.w;
      ok, config := api.GetConfig();
      LaterTrans(old(api.w), w2, api.w);
      if !ok || config.initialize.None? || leader >= status.volumes { return false, args, leader, ""; }
      id := config.initialize.value;
    }

    method CreateUpgrade() returns (err: bool)
      requires At(Stage.Primary) && UpJob !in api.w.jobs
      modifies api
      ensures api.Valid() && old(api.hist) <= api.hist && Steady(old(api.w), api.w)
      ensures api.Undisturbed() ==> Verdict(api.w, false, err) == PrimaryRound(old(api.w))
    {
      ghost var w0, mid := api.w, api.w;
      var ok, args, leader, id := UpgradeInputs();
      if !ok { return true; }
      assert JobLater(w0, api.w, UpJob);
      ok, mid := api.Do(NewJob(UpJob, Upgrade(leader, id, status.version, status.upgradeVersion, args)));
      err := !ok;
    }

    // The job of stage primary-move when there is none yet
    method CreateMove() returns (ok: bool)
      requires At(Stage.PrimaryMove) && MoveJob !in api.w.jobs
      modifies api
      ensures api.Valid() && old(api.hist) <= api.hist && Steady(old(api.w), api.w)
      ensures api.Undisturbed() ==> Verdict(api.w, false, !ok) == MoveRound(old(api.w))
    {
      ghost var w1, mid := api.w, api.w;
      var leader;
      ok, leader := api.GetSyncLeader(status.volumes);
      if !ok || leader >= status.volumes { return false; }
      assert JobLater(w1, api.w, MoveJob);
      ok, mid := api.Do(NewJob(MoveJob, Move(leader)));
    }

    // primaryUpgradeMoveHandler.handle; the version in memory follows the upgrade once the job has succeeded
    method PrimaryMove() returns (done: bool, err: bool)
      requires At(Stage.PrimaryMove)
      modifies api, this`status
      ensures api.Valid() && old(api.hist) <= api.hist && Steady(old(api.w), api.w)
      ensures done && !err ==> Done(api.w, Stage.PrimaryMove)
      ensures !err ==> status == if done then old(status).(version := old(status).upgradeVersion) else old(status)
      ensures api.Undisturbed() ==> Verdict(api.w, done, err) == MoveRound(old(api.w))
    {
      done, err := false, false;
      var ok, found;
      ok, found := api.GetJob(MoveJob);
      if !ok { return false, true; }
      if found.None? {
        ok := CreateMove();
        return false, !ok;
      }
      var job := found.value;
      assert JobOk(api.w, MoveJob);
      if job.pod.Finished? {
        status := status.(version := status.upgradeVersion);
        done := true;
      }
      ok := CleanupJob(MoveJob, job);
      if !ok { return false, true; }
      err := job.failed;
    }

    // postupgradeHandler.handle
    method Postupgrade() returns (done: bool, err: bool)
      requires At(Stage.Postupgrade)
      modifies api
      ensures api.Valid() && old(api.hist) <= api.hist && Steady(old(api.w), api.w)
      ensures done && !err ==> PostJob in api.w.finished && PostJob !in api.w.jobs
      ensures api.Undisturbed() ==> Verdict(api.w, done, err) == PostupgradeRound(old(api.w), spec.nodes)
    {
      var ok, ready := EnsureRunning();
      if !ok { return false, true; }
      if !ready { return false, false; }
      var job;
      ok, job := EnsureHelper(PostJob);
      if !ok { return false, true; }
      done := job.pod.Finished?;
      ok := CleanupJob(PostJob, job);
      if !ok { return false, true; }
      err := job.failed;
    }

    // The replicas of the spec are asked for, and counted in the answer
    method EnsureRunning() returns (ok: bool, ready: bool)
      requires At(Stage.Postupgrade)
      modifies api
      ensures At(Stage.Postupgrade) && old(api.hist) <= api.hist && Steady(old(api.w), api.w)
      ensures ok && ready ==> ScaledUp(api.w) && api.w.told == Some(spec.nodes)
      ensures api.Undisturbed() ==>
                && ok && api.w == Apply(old(api.w), PutSts(Sts(spec.nodes, status.version)))
                && (ready <==> api.w.ready == spec.nodes)
    {
      ok := ReconcileSts();
      if !ok { return false, false; }
      ready := api.w.ready == spec.nodes;
      ok := Service();
    }

    // upgradeSecondariesEnsurestreamer
    method EnsureStreamer(leader: nat) returns (ok: bool)
      requires At(Stage.Secondaries) && leader == Target(api.w) && status.volumes != 1
      modifies api
      ensures api.Valid() && old(api.hist) <= api.hist && Steady(old(api.w), api.w)
      ensures Target(api.w) == leader
      ensures ok ==> api.w.streamer == Some(leader)
      ensures api.Undisturbed() ==>
                if old(api.w).streamer.None? && leader >= status.volumes then !ok && api.w == old(api.w)
                else ok && api.w == Apply(old(api.w), NewStreamer(leader))
    {
      ghost var mid;
      ok := api.Read();
      if !ok { return; }
      if api.w.streamer.None? {
        // Indexing VolumeStatuses beyond its end panics.
        if leader >= status.volumes { return false; }
        ok, mid := api.Do(NewStreamer(leader));
        if !ok { return; }
      }
      ok := Service();
    }

    // upgradeSecondariesEnsureseclients
    method EnsureClients(leader: nat) returns (ok: bool, ret: seq<Client>)
      requires At(Stage.Secondaries) && leader == Target(api.w) && status.volumes != 1
      requires api.w.streamer == Some(leader)
      modifies api
      ensures api.Valid() && old(api.hist) <= api.hist && Steady(old(api.w), api.w)
      ensures Target(api.w) == leader
      ensures ok ==> Indices(ret) == Others(status.volumes, leader) && AllStillSo(api.w, ret)
      ensures api.Undisturbed() ==>
                if old(api.w).config.checkpoint.None? || old(api.w).config.initialize.None? then
                  !ok && api.w == old(api.w)
                else
                  ok && api.w == CreateMissing(old(api.w), Others(status.volumes, leader)) && Current(api.w, ret)
    {
      ret := [];
      var config;
      ok, config := api.GetConfig();
      if !ok || config.checkpoint.None? || config.initialize.None? { return false, []; }
      ok, ret := CreateClients(leader, config);
    }

    // The loop over VolumeStatuses
    method CreateClients(leader: nat, config: Config) returns (ok: bool, ret: seq<Client>)
      requires At(Stage.Secondaries) && leader == Target(api.w) && status.volumes != 1
      requires api.w.config == config && config.checkpoint.Some? && config.initialize.Some?
      requires api.w.streamer == Some(Target(api.w))
      modifies api
      ensures api.Valid() && old(api.hist) <= api.hist && Steady(old(api.w), api.w) && Target(api.w) == leader
      ensures ok ==> Collected(old(api.w), ret, status.volumes, leader, config)
      ensures api.Undisturbed() ==> ok
    {
      ret := [];
      ok := true;
      ghost var w1, hist := api.w, api.hist;
      for idx := 0 to status.volumes
        invariant hist <= api.hist && Collected(w1, ret, idx, leader, config)
      {
        ok, ret := NextClient(idx, leader, config, ret, w1);
        if !ok { return false, []; }
      }
    }

    // The jobs of the first n volumes, but the leader's, are in cs; w1 is the cluster before the loop.
    ghost predicate Collected(w1: World, cs: seq<Client>, n: nat, leader: nat, config: Config)
      requires config.checkpoint.Some? && config.initialize.Some? && w1.config == config
      reads this, api
    {
      && At(Stage.Secondaries) && Steady(w1, api.w) && Target(api.w) == leader && api.w.config == config
      && api.w.streamer == Some(leader)
      && Indices(cs) == Others(n, leader) && AllStillSo(api.w, cs)
      && (api.Undisturbed() ==> api.w == CreateMissing(w1, Others(n, leader)) && Current(api.w, cs))
    }

    // One round of that loop: its invariant carries over
    method NextClient(idx: nat, leader: nat, config: Config, cs: seq<Client>, ghost w1: World)
        returns (ok: bool, ret: seq<Client>)
      requires config.checkpoint.Some? && config.initialize.Some? && w1.config == config
      requires Collected(w1, cs, idx, leader, config) && idx < status.volumes
      modifies api
      ensures At(Stage.Secondaries) && old(api.hist) <= api.hist && Steady(old(api.w), api.w) && Target(api.w) == leader
      ensures ok ==> Collected(w1, ret, idx + 1, leader, config)
      ensures api.Undisturbed() ==> ok
    {
      if idx == leader { return true, cs; }
      ClientsBelow(cs, idx, leader);
      OneMore(w1, idx, leader);
      ok, ret := AddClient(idx, config, cs);
    }

    // One volume of that loop
    method AddClient(idx: nat, config: Config, cs: seq<Client>) returns (ok: bool, ret: seq<Client>)
      requires At(Stage.Secondaries) && idx < status.volumes && idx != Target(api.w)
      requires api.w.config == config && config.checkpoint.Some? && config.initialize.Some?
      requires api.w.streamer == Some(Target(api.w))
      requires AllStillSo(api.w, cs) && forall k :: 0 <= k < |cs| ==> cs[k].i < idx
      modifies api
      ensures api.Valid() && old(api.hist) <= api.hist && Steady(old(api.w), api.w)
      ensures Target(api.w) == Target(old(api.w)) && api.w.config == config && api.w.streamer == old(api.w).streamer
      ensures ok ==> Indices(ret) == Indices(cs) + [idx] && AllStillSo(api.w, ret)
      ensures api.Undisturbed() ==>
                && ok && api.w == Apply(old(api.w), NewJob(SupJob(idx), ConvertTask(old(api.w), idx)))
                && (Current(old(api.w), cs) ==> Current(api.w, ret))
    {
      var job;
      ok, job := EnsureClient(idx, config, cs);
      ret := cs + [Client(idx, job)];
    }

    // Get or create the job of one volume
    method EnsureClient(idx: nat, config: Config, ghost cs: seq<Client>) returns (ok: bool, job: Job)
      requires At(Stage.Secondaries) && idx < status.volumes && idx != Target(api.w)
      requires api.w.config == config && config.checkpoint.Some? && config.initialize.Some?
      requires api.w.streamer == Some(Target(api.w))
      requires AllStillSo(api.w, cs) && forall k :: 0 <= k < |cs| ==> cs[k].i < idx
      modifies api
      ensures api.Valid() && old(api.hist) <= api.hist && Steady(old(api.w), api.w)
      ensures Target(api.w) == Target(old(api.w)) && api.w.config == config && api.w.streamer == old(api.w).streamer
      ensures ok ==> AllStillSo(api.w, cs) && StillSo(api.w, Client(idx, job))
      ensures api.Undisturbed() ==>
                && ok && api.w == Apply(old(api.w), NewJob(SupJob(idx), ConvertTask(old(api.w), idx)))
                && job == api.w.jobs[SupJob(idx)]
    {
      ghost var w0, mid := api.w, api.w;
      var name := SupJob(idx);
      var found;
      ok, found := api.GetJob(name);
      StillSoLater(w0, api.w, cs);
      assert JobOk(api.w, name);
      job := Job(Convert(idx, config.checkpoint.value, status.version, status.upgradeVersion, config.initialize.value),
          Idle, false, false);
      if ok && found.Some? {
        job := found.value;
      } else if ok {
        ghost var w1 := api.w;
        ok, mid := api.Do(NewJob(name, job.task));
        StillSoLater(w1, mid, cs);
        assert JobLater(w1, mid, name);
      }
    }

    // The counting loop: successes and failures, deleting what failed
    method CountClients(clients: seq<Client>, leader: nat) returns (ok: bool, succeeded: nat, failed: nat)
      requires At(Stage.Secondaries) && AllStillSo(api.w, clients) && leader == Target(api.w)
      modifies api
      ensures At(Stage.Secondaries) && old(api.hist) <= api.hist && Steady(old(api.w), api.w)
      ensures AllStillSo(api.w, clients) && Target(api.w) == leader
      ensures ok && succeeded == |clients| ==> AllFinished(clients, |clients|)
      ensures api.Undisturbed() && Current(old(api.w), clients) ==>
                ok && Tallied(old(api.w), api.w, Indices(clients), succeeded, failed)
    {
      ghost var w0, os := api.w, Indices(clients);
      succeeded, failed, ok := 0, 0, true;
      for k := 0 to |clients|
        invariant At(Stage.Secondaries) && old(api.hist) <= api.hist && Steady(old(api.w), api.w)
        invariant AllStillSo(api.w, clients) && Target(api.w) == leader
        invariant succeeded <= k && (succeeded == k ==> AllFinished(clients, k))
        invariant api.Undisturbed() && Current(w0, clients) ==> Tallied(w0, api.w, os[..k], succeeded, failed)
      {
        ok, succeeded, failed := CountClient(clients, k, leader, succeeded, failed, w0);
        if !ok { return; }
      }
      assert os[..|clients|] == os;
    }

    // One round of that loop: its invariant carries over
    method CountClient(clients: seq<Client>, k: nat, leader: nat, s: nat, f: nat, ghost w0: World)
        returns (ok: bool, succeeded: nat, failed: nat)
      requires At(Stage.Secondaries) && AllStillSo(api.w, clients) && k < |clients| && leader == Target(api.w)
      requires s <= k && (s == k ==> AllFinished(clients, k))
      requires api.Undisturbed() && Current(w0, clients) ==> Tallied(w0, api.w, Indices(clients)[..k], s, f)
      modifies api
      ensures At(Stage.Secondaries) && old(api.hist) <= api.hist && Steady(old(api.w), api.w)
      ensures AllStillSo(api.w, clients) && Target(api.w) == leader
      ensures ok ==> succeeded <= k + 1 && (succeeded == k + 1 ==> AllFinished(clients, k + 1))
      ensures api.Undisturbed() && Current(w0, clients) ==>
          ok && Tallied(w0, api.w, Indices(clients)[..k + 1], succeeded, failed)
    {
      ok := RetireClient(clients, k, leader);
      succeeded, failed := s, f;
      if !ok { return; }
      if Current(w0, clients) { TallyOneMore(w0, old(api.w), api.w, clients, k, s, f); }
      if clients[k].job.pod.Finished? {
        succeeded := s + 1;
      } else if clients[k].job.failed {
        failed := f + 1;
      }
    }

    // Delete in the foreground, if the job only failed
    method RetireClient(clients: seq<Client>, k: nat, leader: nat) returns (ok: bool)
      requires At(Stage.Secondaries) && AllStillSo(api.w, clients) && k < |clients| && leader == Target(api.w)
      modifies api
      ensures At(Stage.Secondaries) && old(api.hist) <= api.hist && Steady(old(api.w), api.w)
      ensures AllStillSo(api.w, clients) && Target(api.w) == leader
      ensures api.Undisturbed() ==>
                ok && api.w == if clients[k].job.failed && !clients[k].job.pod.Finished?
                               then Apply(old(api.w), RetireJob(SupJob(clients[k].i))) else old(api.w)
    {
      ghost var mid;
      ok := true;
      if clients[k].job.failed && !clients[k].job.pod.Finished? {
        ok, mid := api.Do(RetireJob(SupJob(clients[k].i)));
        StillSoLater(old(api.w), mid, clients);
      }
    }

    // The deleting loop at the end
    method DropClients(clients: seq<Client>, leader: nat) returns (ok: bool)
      requires At(Stage.Secondaries) && AllConverted(api.w) && api.w.streamer.None? && leader == Target(api.w)
      requires Indices(clients) == Others(status.volumes, leader)
      modifies api
      ensures api.Valid() && old(api.hist) <= api.hist && Steady(old(api.w), api.w)
      ensures ok ==> AllConverted(api.w) && api.w.streamer.None? && Target(api.w) == leader
      ensures ok ==> Gone(api.w, clients, |clients|)
      ensures api.Undisturbed() ==> ok && api.w == DropAll(old(api.w), Indices(clients))
    {
      ghost var w0, os := api.w, Indices(clients);
      ClientsBelow(clients, status.volumes, leader);
      ok := true;
      for k := 0 to |clients|
        invariant At(Stage.Secondaries) && old(api.hist) <= api.hist && Steady(old(api.w), api.w)
        invariant AllConverted(api.w) && api.w.streamer.None? && Target(api.w) == leader
        invariant Gone(api.w, clients, k)
        invariant api.Undisturbed() ==> api.w == DropAll(w0, os[..k])
      {
        assert os[..k + 1][..k] == os[..k] && os[k] == clients[k].i;
        ok := DropClient(clients, k, leader);
        if !ok { return; }
      }
      assert os[..|clients|] == os;
    }

    method DropClient(clients: seq<Client>, k: nat, leader: nat) returns (ok: bool)
      requires At(Stage.Secondaries) && AllConverted(api.w) && api.w.streamer.None? && leader == Target(api.w)
      requires k < |clients| && clients[k].i < status.volumes && clients[k].i != leader
      requires Gone(api.w, clients, k)
      modifies api
      ensures At(Stage.Secondaries) && old(api.hist) <= api.hist && Steady(old(api.w), api.w)
      ensures AllConverted(api.w) && api.w.streamer.None? && Target(api.w) == leader
      ensures ok ==> Gone(api.w, clients, k + 1)
      ensures api.Undisturbed() ==> ok && api.w == Apply(old(api.w), DropJob(SupJob(clients[k].i)))
    {
      ghost var w0, mid := api.w, api.w;
      assert JobOk(w0, SupJob(clients[k].i));
      ok, mid := api.Do(DropJob(SupJob(clients[k].i)));
      ConvertedLater(w0, mid);
      GoneLater(w0, mid, clients, k);
    }

    // secondaryUpgradeHandler.handle
    method Secondaries() returns (done: bool, err: bool)
      requires At(Stage.Secondaries)
      modifies api
      ensures api.Valid() && old(api.hist) <= api.hist && Steady(old(api.w), api.w)
      ensures done && !err ==> Done(api.w, Stage.Secondaries)
      ensures api.Undisturbed() ==> Verdict(api.w, done, err) == SecondariesRound(old(api.w))
    {
      if status.volumes == 1 { return true, false; }
      var ok, leader, clients;
      ok, leader := api.GetSyncLeader(status.volumes);
      if !ok { return false, true; }
      ok := EnsureStreamer(leader);
      if !ok { return false, true; }
      ok, clients := EnsureClients(leader);
      if !ok { return false, true; }
      var succeeded, failed;
      ok, succeeded, failed := CountClients(clients, leader);
      if !ok { return false, true; }
      if failed > 0 { return false, true; }
      if succeeded == |clients| {
        done, err := FinishSecondaries(clients, leader);
      } else {
        done, err := false, false;
      }
    }

    // All jobs have succeeded: the streamer goes, then the jobs
    method FinishSecondaries(clients: seq<Client>, leader: nat) returns (done: bool, err: bool)
      requires At(Stage.Secondaries) && AllStillSo(api.w, clients) && leader == Target(api.w)
      requires Indices(clients) == Others(status.volumes, leader)
      requires AllFinished(clients, |clients|)
      modifies api
      ensures api.Valid() && old(api.hist) <= api.hist && Steady(old(api.w), api.w)
      ensures done && !err ==> Done(api.w, Stage.Secondaries)
      ensures api.Undisturbed() ==> done && !err && api.w == DropAll(Apply(old(api.w), DropStreamer), Indices(clients))
    {
      ghost var w0, mid := api.w, api.w;
      forall i {:trigger SupJob(i)} | 0 <= i < status.volumes && i != leader
        ensures exists k :: 0 <= k < |clients| && clients[k].i == i
      {
        assert i in Others(status.volumes, leader);
        var k :| 0 <= k < |Indices(clients)| && Indices(clients)[k] == i;
        assert clients[k].i == i;
      }
      assert AllConverted(api.w);
      var ok;
      ok, mid := api.Do(DropStreamer);
      if !ok { return false, true; }
      ConvertedLater(w0, mid);
      ok := DropClients(clients, leader);
      if !ok { return false, true; }
      forall i {:trigger SupJob(i)}
        ensures SupJob(i) !in api.w.jobs
      {
        assert JobOk(api.w, SupJob(i));
      }
      done, err := true, false;
    }

    // The handler of stage k
    method RunStage(k: Stage) returns (done: bool, err: bool)
      requires At(k)
      modifies api, this`status
      ensures api.Valid() && old(api.hist) <= api.hist && Steady(old(api.w), api.w)
      ensures done && !err ==> k == Stage.Postupgrade || Done(api.w, k)
      ensures done && !err && k == Stage.Postupgrade ==> PostJob in api.w.finished && PostJob !in api.w.jobs
      ensures !err ==>
                status == old(status).(version := if done && k == Stage.PrimaryMove then old(status).upgradeVersion
                                                  else old(status).version)
      ensures api.Undisturbed() ==> Verdict(api.w, done, err) == StageRound(old(api.w), k, spec.nodes)
    {
      match k
      case Preupgrade => done, err := Preupgrade();
      case PreScaledown => done, err := ScaleDown(k);
      case Sync => done, err := PreupgradeSync();
      case Scaledown => done, err := ScaleDown(k);
      case Primary => done, err := PrimaryUpgrade();
      case Secondaries => done, err := Secondaries();
      case PrimaryMove => done, err := PrimaryMove();
      case Postupgrade => done, err := Postupgrade();
    }

    // ClearUpgradeAnnotations
    method ClearUpgradeAnnotations() returns (ok: bool)
      requires Attending() && InStage(api.w, Stage.Postupgrade) && PostJob in api.w.finished && PostJob !in api.w.jobs
      modifies api
      ensures api.Valid() && old(api.hist) <= api.hist && Steady(old(api.w), api.w)
      ensures ok ==> Done(api.w, Stage.Postupgrade)
      ensures api.Undisturbed() ==> ok && api.w == Apply(old(api.w), ClearAnnotations)
    {
      ghost var w0, mid := api.w, api.w;
      ok, mid := Update(ClearAnnotations);
      assert JobLater(w0, mid, PostJob);
    }

    // Handle: run the stage's handler and move the status in memory
    method Handle() returns (err: bool)
      requires Attending() && status == api.w.status && spec == api.w.seen && status.upgradeVersion != 0
      requires LinksOf(upgrademap, HANDLERS)
      modifies api, this`status
      ensures api.Valid() && old(api.hist) <= api.hist && Steady(old(api.w), api.w)
      ensures !err ==> MayPersist(api.w, status)
      ensures api.Undisturbed() ==>
                var (w', e) := HandleRound(old(api.w), spec.nodes);
                err == e && w' == if err then api.w else Apply(api.w, Persist(status))
    {
      if !status.state.Upgrading? {
        status := status.(state := Upgrading(Stage.Preupgrade));
        return false;
      }
      var k := status.state.stage;
      var done;
      done, err := RunStage(k);
      if err || !done { return; }
      LinksFollow(upgrademap, k);
      var next := upgrademap[k];
      if next.Some? {
        status := status.(state := Upgrading(next.value));
      } else {
        status := status.(state := Ready, upgradeVersion := 0);
        var ok := ClearUpgradeAnnotations();
        err := !ok;
      }
    }

    // The instance in memory is the one that was read, and no upgrade is called for.
    ghost predicate Tending()
      reads this, api
    {
      Attending() && Serving(api.w) && spec == api.w.seen
    }

    // pvc.Reconcile: create or patch the claims the spec needs, then delete the rest
    method ReconcileClaims() returns (ok: bool)
      requires Tending()
      modifies api, this`status
      ensures api.Valid() && old(api.hist) <= api.hist && Steady(old(api.w), api.w)
      ensures status == old(status).(volumes := status.volumes) && (ok ==> status.volumes == spec.nodes)
      ensures forall i: nat :: i in old(api.w.vols) && i < spec.nodes ==> i in api.w.vols
      ensures ok ==> HasFirst(api.w.vols, spec.nodes)
      ensures api.Undisturbed() ==> ok && api.w == ClaimsRound(old(api.w), spec.nodes)
    {
      ok := api.Read();
      if !ok { return; }
      ghost var w0 := api.w;
      var existing := api.w.vols.Keys;
      ok, existing := EnsureClaims(existing);
      if !ok { return; }
      ok := DropClaims(existing);
      RestDropped(w0, spec.nodes);
    }

    // The loop over the nodes: what it leaves of `existing` is not needed.
    method EnsureClaims(existing: set<nat>) returns (ok: bool, rest: set<nat>)
      requires existing <= api.w.vols.Keys
      requires Tending()
      modifies api, this`status
      ensures api.Valid() && old(api.hist) <= api.hist && Steady(old(api.w), api.w)
      ensures status == old(status).(volumes := status.volumes) && (ok ==> status.volumes == spec.nodes)
      ensures old(api.w.vols).Keys <= api.w.vols.Keys
      ensures ok ==> rest == From(existing, spec.nodes) && HasFirst(api.w.vols, spec.nodes)
      ensures api.Undisturbed() && existing == old(api.w.vols).Keys ==>
                ok && Filled(old(api.w), api.w, spec.nodes)
    {
      ghost var w0, hist := api.w, api.hist;
      ok, rest := true, existing;
      status := status.(volumes := 0);
      for idx := 0 to spec.nodes
        invariant ok && hist <= api.hist && status == old(status).(volumes := idx)
        invariant Ensured(w0, existing, rest, idx)
      {
        ok, rest := NextClaim(existing, rest, idx, w0);
        if !ok { return; }
      }
    }

    // The first n claims exist, and `rest` is what is left of `existing`; w0 is the cluster before the loop.
    ghost predicate Ensured(w0: World, existing: set<nat>, rest: set<nat>, n: nat)
      reads this, api
    {
      && Tending() && Steady(w0, api.w) && w0.vols.Keys <= api.w.vols.Keys
      && existing <= w0.vols.Keys && rest == From(existing, n) && HasFirst(api.w.vols, n)
      && (api.Undisturbed() && existing == w0.vols.Keys ==> Filled(w0, api.w, n))
    }

    // One round of that loop: its invariant carries over
    method NextClaim(existing: set<nat>, rest0: set<nat>, idx: nat, ghost w0: World)
        returns (ok: bool, rest: set<nat>)
      requires Ensured(w0, existing, rest0, idx) && idx < spec.nodes
      modifies api, this`status
      ensures Tending() && old(api.hist) <= api.hist && Steady(w0, api.w) && w0.vols.Keys <= api.w.vols.Keys
      ensures ok ==> Ensured(w0, existing, rest, idx + 1)
      ensures status == if ok then old(status).(volumes := idx + 1) else old(status)
      ensures api.Undisturbed() ==> ok
    {
      ghost var before := api.w;
      rest := rest0;
      ok := EnsureClaim(idx, idx in rest);
      if !ok { return; }
      OneMoreClaim(before.vols, api.w.vols, existing, idx);
      if api.Undisturbed() && existing == w0.vols.Keys { FillNext(w0, before, api.w, idx); }
      rest := rest - {idx};
      status := status.(volumes := idx + 1);
    }

    // Patch or Create
    method EnsureClaim(idx: nat, present: bool) returns (ok: bool)
      requires idx < spec.nodes && (present ==> idx in api.w.vols)
      requires Tending()
      modifies api
      ensures api.Valid() && old(api.hist) <= api.hist && Steady(old(api.w), api.w)
      ensures old(api.w.vols).Keys <= api.w.vols.Keys && (ok ==> idx in api.w.vols)
      ensures api.Undisturbed() ==> ok && api.w == if present then old(api.w) else Apply(old(api.w), NewClaim(idx))
    {
      ghost var mid;
      if present {
        ok, mid := api.Do(Other);
      } else {
        ok, mid := api.Do(NewClaim(idx));
      }
    }

    method DropClaims(rest: set<nat>) returns (ok: bool)
      requires forall i :: i in rest ==> spec.nodes <= i
      requires Tending()
      modifies api
      ensures api.Valid() && old(api.hist) <= api.hist && Steady(old(api.w), api.w)
      ensures forall i: nat :: i in old(api.w.vols) && i < spec.nodes ==> i in api.w.vols
      ensures api.Undisturbed() ==> ok && api.w == Without(old(api.w), rest)
    {
      ghost var w0, hist, gone := api.w, api.hist, {};
      ok := true;
      var todo := rest;
      while todo != {}
        invariant ok && hist <= api.hist && todo + gone == rest
        invariant Dropped(w0, gone)
        decreases todo
      {
        var i :| i in todo;
        ok := DropOne(i, w0, gone);
        if !ok { return; }
        todo, gone := todo - {i}, gone + {i};
      }
      assert gone == rest;
    }

    // Of the claims that were there in w0 none that is needed is gone; left alone, exactly `gone` are.
    ghost predicate Dropped(w0: World, gone: set<nat>)
      reads this, api
    {
      && Tending() && Steady(w0, api.w)
      && (forall i: nat :: i in w0.vols && i < spec.nodes ==> i in api.w.vols)
      && (api.Undisturbed() ==> api.w == Without(w0, gone))
    }

    method DropOne(i: nat, ghost w0: World, ghost gone: set<nat>) returns (ok: bool)
      requires Dropped(w0, gone) && spec.nodes <= i
      modifies api
      ensures Tending() && old(api.hist) <= api.hist && Steady(w0, api.w)
      ensures forall j: nat :: j in w0.vols && j < spec.nodes ==> j in api.w.vols
      ensures ok ==> Dropped(w0, gone + {i})
      ensures api.Undisturbed() ==> ok
    {
      ghost var mid;
      DropOneMore(w0, gone, i);
      ok, mid := api.Do(DropClaim(i));
    }

    // statefulset.Reconcile
    method ReconcileStatefulSet(img: Image) returns (ok: bool)
      requires Attending() && status.version == api.w.status.version && spec == api.w.seen
      requires Serving(api.w) && !api.w.status.state.Upgrading?
      requires Lookup(api.w.table, status.version) == Some(img)
      modifies api, this`status
      ensures api.Valid() && old(api.hist) <= api.hist && Steady(old(api.w), api.w)
      ensures ok ==> status == old(status).(state := status.state, upgradeVersions := status.upgradeVersions)
      ensures ok ==> status.state == Ready || status.state == Scaling
      ensures ok ==> api.w.told.Some? && (status.state == Ready <==> api.w.told == Some(spec.nodes))
      ensures ok ==>
                status.upgradeVersions == if status.state == Ready then Above(img.versions, status.version)
                                          else old(status).upgradeVersions
      ensures !ok ==> status == old(status)
      ensures api.Undisturbed() ==> ok && api.w == Apply(old(api.w), PutSts(Sts(spec.nodes, old(status).version)))
    {
      ok := ReconcileSts();
      if !ok { return; }
      if api.w.ready == spec.nodes {
        var versions := UpgradeVersions(img, status.version);
        status := status.(state := Ready, upgradeVersions := versions);
      } else {
        status := status.(state := Scaling);
      }
    }

    // The body of Reconcile between fetching the instance and the deferred status update
    method Body(img: Image) returns (err: bool)
      requires Attending() && status == api.w.status && spec == api.w.seen && !status.state.Fresh?
      requires Lookup(api.w.table, status.version) == Some(img) && LinksOf(upgrademap, HANDLERS)
      modifies api, this`status
      ensures api.Valid() && old(api.hist) <= api.hist && Steady(old(api.w), api.w)
      ensures !err ==> MayPersist(api.w, status)
      ensures api.Undisturbed() && old(api.w).spec == old(api.w).seen ==>
                var (w', e) := BodyRound(old(api.w), img);
                err == e && w' == if err then api.w else Apply(api.w, Persist(status))
    {
      if status.upgradeVersion != 0 {
        err := Handle();
        return;
      }
      var ok;
      if status.state == Ready && status.version != spec.version {
        if spec.version in status.upgradeVersions {
          var leader;
          ok, leader := api.GetSyncLeader(status.volumes);
          if !ok { return true; }
          status := status.(upgradeVersion := spec.version);
          return false;
        }
        return true;
      }
      err := Ordinary(img);
    }

    // The body of Reconcile and its deferred status update, which is left out after an error
    method BodyAndStatus(img: Image) returns (err: bool)
      requires Attending() && status == api.w.status && spec == api.w.seen && !status.state.Fresh?
      requires Lookup(api.w.table, status.version) == Some(img) && LinksOf(upgrademap, HANDLERS)
      modifies api, this`status
      ensures api.Valid() && old(api.hist) <= api.hist
      ensures api.Undisturbed() && old(api.w).spec == old(api.w).seen ==>
                (api.w, err) == BodyRound(old(api.w), img)
    {
      BodyKeepsSpec(api.w, img);
      err := Body(img);
      if !err {
        var ok;
        ghost var mid;
        ok, mid := api.UpdateStatus(status);
        err := !ok;
      }
    }

    // n objects that have no bearing on an upgrade
    method Plumbing(n: nat) returns (ok: bool)
      requires Attending()
      modifies api
      ensures api.Valid() && old(api.hist) <= api.hist && Steady(old(api.w), api.w) && api.w.told == old(api.w).told
      ensures api.Undisturbed() ==> ok && api.w == old(api.w)
    {
      ok := true;
      for k := 0 to n
        invariant api.Undisturbed() ==> api.w == old(api.w)
        invariant api.Valid() && old(api.hist) <= api.hist && Steady(old(api.w), api.w) && api.w.told == old(api.w).told
      {
        ok := Service();
        if !ok { return; }
      }
    }

    // The reconcilers of a cluster that is not being upgraded
    method Ordinary(img: Image) returns (err: bool)
      requires Attending() && status == api.w.status && spec == api.w.seen && !status.state.Fresh?
      requires Lookup(api.w.table, status.version) == Some(img) && Serving(api.w)
      modifies api, this`status
      ensures api.Valid() && old(api.hist) <= api.hist && Steady(old(api.w), api.w)
      ensures !err ==> MayRefresh(api.w, status)
      ensures api.Undisturbed() && old(api.w).spec == old(api.w).seen ==>
                var (w', e) := OrdinaryRound(old(api.w), img);
                err == e && w' == if err then api.w else Apply(api.w, Persist(status))
    {
      var ok := ReconcileClaims();
      if !ok { return true; }
      ok := ReconcileRest(img);
      err := !ok;
    }

    // What comes after the claims
    method ReconcileRest(img: Image) returns (ok: bool)
      requires Tending() && status.version == api.w.status.version && !api.w.status.state.Upgrading?
      requires Lookup(api.w.table, status.version) == Some(img)
      modifies api, this`status
      ensures api.Valid() && old(api.hist) <= api.hist && Steady(old(api.w), api.w)
      ensures ok ==> status == old(status).(state := status.state, upgradeVersions := status.upgradeVersions)
      ensures ok ==> status.state == Ready || status.state == Scaling
      ensures ok ==> api.w.told.Some? && (status.state == Ready <==> api.w.told == Some(spec.nodes))
      ensures ok ==>
                status.upgradeVersions == if status.state == Ready then Above(img.versions, status.version)
                                          else old(status).upgradeVersions
      ensures api.Undisturbed() ==> ok && api.w == Apply(old(api.w), PutSts(Sts(spec.nodes, old(status).version)))
    {
      ok := Plumbing(4);  // secret, config map, roles, services
      if !ok { return; }
      ok := ReconcileStatefulSet(img);
      if !ok { return; }
      ok := Plumbing(2);  // network policy, disruption budget
    }

    // A new instance gets its version and state
    method Initialize(registry: map<int, Image>) returns (ok: bool)
      requires Attending() && status == api.w.status && status.state.Fresh? && spec == api.w.seen
      requires forall v :: if v in registry then Lookup(api.w.table, v) == Some(registry[v])
          else Lookup(api.w.table, v) == None
      modifies api, this`status
      ensures api.Valid() && old(api.hist) <= api.hist
      ensures api.w.seen == old(api.w).seen && api.w.table == old(api.w).table
      ensures ok ==> status == api.w.status && !status.state.Fresh?
      ensures api.Undisturbed() && old(api.w).spec == old(api.w).seen ==>
                if spec.version !in registry then !ok && api.w == old(api.w)
                else ok && api.w == Apply(old(api.w), Persist(Status(Scaling, spec.version, 0, [], 0)))
    {
      if spec.version !in registry { return false; }
      status := Status(Scaling, spec.version, 0, [], 0);
      ghost var mid;
      ok, mid := api.UpdateStatus(status);
    }

    /** Reconcile. Whatever fails and whatever happens meanwhile, every call it makes is one the protocol allows,
        so the history stays a legal run. */
    method Reconcile(registry: map<int, Image>) returns (err: bool)
      requires api.Valid() && LinksOf(upgrademap, HANDLERS)
      requires forall v :: if v in registry then Lookup(api.w.table, v) == Some(registry[v])
          else Lookup(api.w.table, v) == None
      modifies api, this
      ensures api.Valid() && old(api.hist) <= api.hist
      ensures api.Undisturbed() ==> (api.w, err) == ReconcileRound(old(api.w))
    {
      ghost var mid;
      var ok;
      ok, mid := api.Do(Fetch);
      if !ok { return true; }
      status, spec := api.w.status, api.w.spec;
      if spec.ignore { return false; }
      if status.state.Fresh? {
        ok := Initialize(registry);
        if !ok { return true; }
      }
      if status.version !in registry { return true; }
      err := BodyAndStatus(registry[status.version]);
    }
  }
}
