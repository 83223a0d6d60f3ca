/** preupgrade-sync: waiting until every replica has replayed, and checkpointed at,
    exactly the primary's final write-ahead log position.

    The primary goes on writing and replicas go on replaying between any two
    statements; replicas are checked by goroutines in any interleaving. */
module CatchUp {
  import opened Names
  import opened Schedules
  import opened Replication

  /** The database cluster as the job sees it. Its schedule, the failures of statements and the job's deadline,
      in statements, are arbitrary. */
  class Cluster {
    const members: nat
    const primary: nat
    const schedule: nat -> seq<Activity>
    const failures: nat -> bool
    const order: nat -> nat       // which goroutine runs next
    ghost const standbys: set<nat>
    var left: nat
    var tick: nat
    var d: Db

    ghost predicate Valid()
      reads this
    {
      && primary < members
      && DbOk(d, standbys)
      && AreStandbys(standbys, members, primary) && |standbys| == members - 1
    }

    // No statement fails.
    ghost predicate Reliable() {
      forall t: nat :: !failures(t)
    }

    // Nor does anything else happen.
    ghost predicate Idle() {
      Reliable() && forall t: nat :: schedule(t) == []
    }

    constructor (members: nat, primary: nat, schedule: nat -> seq<Activity>, failures: nat -> bool, order: nat -> nat,
        deadline: nat, d: Db)
      requires primary < members && DbOk(d, d.replayed.Keys) && AreStandbys(d.replayed.Keys, members, primary)
      ensures Valid() && this.members == members && this.primary == primary && this.d == d
      ensures AreStandbys(standbys, members, primary)
    {
      this.members, this.primary, this.schedule, this.failures, this.order := members, primary, schedule, failures,
          order;
      left, tick, this.d := deadline, 0, d;
      standbys := d.replayed.Keys;
      StandbysCount(d.replayed.Keys, members, primary);
    }

    // One statement is sent: the cluster moves on, and the statement fails or the deadline has passed, or it is run.
    method Statement() returns (ok: bool)
      requires Valid()
      modifies this
      ensures Valid() && Grown(old(d), d, standbys)
      ensures left == if old(left) > 0 then old(left) - 1 else 0
      ensures ok ==> old(left) > 0
      ensures Reliable() ==> (ok <==> old(left) > 0)
      ensures Idle() ==> d == old(d)
    {
      var acts := schedule(tick);
      ok := left > 0 && !failures(tick);
      if left > 0 { left := left - 1; }
      tick := tick + 1;
      for k := 0 to |acts|
        invariant Valid() && Grown(old(d), d, standbys)
        invariant left == if old(left) > 0 then old(left) - 1 else 0
        invariant acts == [] ==> d == old(d)
      {
        ActKeeps(d, acts[k], standbys);
        GrownTrans(old(d), d, Act(d, acts[k]), standbys);
        d := Act(d, acts[k]);
      }
    }

    // SELECT client_addr FROM pg_stat_replication WHERE ... replay_lsn >= lsn
    method Rows(lsn: nat) returns (ok: bool, ips: seq<nat>)
      requires Valid()
      modifies this
      ensures Valid() && Grown(old(d), d, standbys)
      ensures left == if old(left) > 0 then old(left) - 1 else 0
      ensures ok ==> old(left) > 0
      ensures Reliable() ==> (ok <==> old(left) > 0)
      ensures Idle() ==> d == old(d)
      ensures RowsAre(d, standbys, ips, lsn)
    {
      ok := Statement();
      ips := Answer(lsn);
    }

    method Answer(lsn: nat) returns (ips: seq<nat>)
      requires Valid()
      ensures RowsAre(d, standbys, ips, lsn)
    {
      ips := [];
      for i := 0 to members
        invariant RowsBelow(d, standbys, ips, lsn, i)
      {
        RowsNext(d, standbys, ips, lsn, i);
        if i in d.rows && lsn <= d.reported[i] {
          ips := ips + [i];
        }
      }
    }

    // readReplicas: ask until exactly len(memberNames)-1 rows have reached lsn
    method ReadReplicas(lsn: nat) returns (ok: bool, ips: seq<nat>)
      requires Valid()
      modifies this
      ensures Valid() && Grown(old(d), d, standbys) && left <= old(left)
      ensures ok ==> |ips| == members - 1 && left < old(left) && AllReport(d, standbys, lsn)
      ensures ok ==> Addresses(ips, standbys) && forall k :: 0 <= k < |ips| ==> lsn <= d.replayed[ips[k]]
      ensures Reliable() && !ok ==> left == 0
      ensures Idle() ==> d == old(d)
      ensures Idle() && AllReport(old(d), standbys, lsn) && old(left) > 0 ==> ok && left == old(left) - 1
    {
      ok, ips := Rows(lsn);
      AllRowsExactlyIf(d, standbys, ips, lsn);
      while ok && |ips| != members - 1
        invariant Valid() && Grown(old(d), d, standbys) && left <= old(left) && (ok ==> left < old(left))
        invariant RowsAre(d, standbys, ips, lsn)
        invariant Reliable() && !ok ==> left == 0
        invariant Idle() ==> d == old(d)
        invariant Idle() && AllReport(old(d), standbys, lsn) && old(left) > 0 ==>
                    ok && |ips| == members - 1 && left == old(left) - 1
        decreases ok, left
      {
        ghost var before := d;
        ok, ips := Rows(lsn);
        GrownTrans(old(d), before, d, standbys);
        AllRowsExactlyIf(d, standbys, ips, lsn);
      }
      AllRowsExactlyIf(d, standbys, ips, lsn);
    }

    // SELECT pg_wal_lsn_diff(lsn, pg_last_wal_replay_lsn()) on replica i
    method Lag(i: nat, lsn: nat) returns (ok: bool, diff: int)
      requires Valid() && i in standbys
      modifies this
      ensures Valid() && Grown(old(d), d, standbys)
      ensures left == if old(left) > 0 then old(left) - 1 else 0
      ensures Reliable() ==> (ok <==> old(left) > 0)
      ensures Idle() ==> d == old(d)
      ensures diff == lsn - d.replayed[i]
    {
      ok := Statement();
      diff := lsn - d.replayed[i];
    }

    // CHECKPOINT on replica i: a restart point at what it has replayed
    method Checkpoint(i: nat) returns (ok: bool)
      requires Valid() && i in standbys
      modifies this
      ensures Valid() && Grown(old(d), d, standbys)
      ensures left == if old(left) > 0 then old(left) - 1 else 0
      ensures Reliable() ==> (ok <==> old(left) > 0)
      ensures Idle() ==> d == old(d).(restart := d.restart)
      ensures ok ==> d.restart[i] == d.replayed[i]
    {
      ok := Statement();
      if ok {
        d := d.(restart := d.restart[i := d.replayed[i]]);
      }
    }

    // CHECKPOINT on the primary
    method CheckpointHere() returns (ok: bool)
      requires Valid()
      modifies this
      ensures Valid() && Grown(old(d), d, standbys)
      ensures left == if old(left) > 0 then old(left) - 1 else 0
      ensures ok ==> old(left) > 0
      ensures Reliable() ==> (ok <==> old(left) > 0)
      ensures Idle() ==> d == old(d).(checkpoint := d.checkpoint)
      ensures ok ==> d.checkpoint == d.lsn
    {
      ok := Statement();
      if ok {
        d := d.(checkpoint := d.lsn);
      }
    }
  }

  /** The cluster has only moved on since it was d; if nothing else happens, replicas have made restart points and that
      is all. */
  ghost predicate Kept(c: Cluster, d: Db)
    reads c
  {
    && c.Valid() && DbOk(d, c.standbys) && Grown(d, c.d, c.standbys)
    && (c.Idle() ==> c.d == d.(restart := c.d.restart))
  }

  lemma KeptSince(c: Cluster, d: Db, before: Db)
    requires DbOk(d, c.standbys) && Kept(c, before) && Grown(d, before, c.standbys)
    requires c.Idle() ==> before == d.(restart := before.restart)
    ensures Kept(c, d)
  {
    GrownTrans(d, before, c.d, c.standbys);
  }

  // One statement of goroutine k: waitReplica up to its next pause
  method Advance(c: Cluster, i: nat, r: Routine, lsn: nat) returns (r': Routine)
    requires c.Valid() && i in c.standbys && !r.Finished?
    requires r == CaughtUp ==> lsn <= c.d.replayed[i]
    requires r == Checkpointed ==> Synced(c.d, i, lsn)
    modifies c
    ensures Kept(c, old(c.d)) && c.left <= old(c.left)
    ensures StepsLeft(r') < StepsLeft(r)
    ensures r' == Finished(true) <==> r == Checkpointed
    ensures r' == CaughtUp ==> lsn <= c.d.replayed[i]
    ensures r' == Checkpointed || r' == Finished(true) ==> Synced(c.d, i, lsn)
    ensures c.Idle() && lsn <= old(c.d).replayed[i] && Cost(r) <= old(c.left) ==>
              r' != Finished(false) && c.left + Cost(r) == old(c.left) + Cost(r')
  {
    match r
    case Connecting =>
      var ok, diff := c.Lag(i, lsn);
      r' := if !ok || diff > 0 then Finished(false) else CaughtUp;
    case CaughtUp =>
      var ok := c.Checkpoint(i);
      r' := if !ok then Finished(false) else Checkpointed;
    case Checkpointed =>
      r' := Finished(true);
    case Finished(_) =>
      r' := r;
  }

  /** waitReplicas: one goroutine for each address, run in whatever interleaving, adding to one
      counter. It answers true exactly when as many goroutines succeeded as there are replicas. */
  method WaitReplicas(c: Cluster, ips: seq<nat>, lsn: nat) returns (all: bool, ghost outcome: seq<Routine>)
    requires c.Valid() && forall k :: 0 <= k < |ips| ==> ips[k] in c.standbys
    modifies c
    ensures Kept(c, old(c.d)) && c.left <= old(c.left)
    ensures |outcome| == |ips| && forall k :: 0 <= k < |outcome| ==> outcome[k].Finished?
    ensures all <==> Successes(outcome) == c.members - 1
    ensures |ips| == c.members - 1 ==> (all <==> forall k :: 0 <= k < |outcome| ==> outcome[k] == Finished(true))
    ensures forall k :: 0 <= k < |outcome| && outcome[k] == Finished(true) ==> Synced(c.d, ips[k], lsn)
    ensures c.Idle() && |ips| == c.members - 1 && 2 * |ips| <= old(c.left) && CaughtUpAll(old(c.d), ips, lsn) ==>
              all && c.left == old(c.left) - 2 * |ips|
  {
    var synced := 0;
    var rs := seq(|ips|, k => Connecting);
    NoSuccessYet(|ips|);
    CostAtFirst(|ips|);
    assert rs == seq(|ips|, k => Connecting);
    rs, synced := RunAll(c, ips, lsn, rs, synced);
    outcome := rs;
    AtTheEnd(rs);
    all := synced == c.members - 1;
  }

  // wg.Wait: the goroutines run until none is left
  method RunAll(c: Cluster, ips: seq<nat>, lsn: nat, rs0: seq<Routine>, synced0: nat)
      returns (rs: seq<Routine>, synced: nat)
    requires c.Valid() && forall k :: 0 <= k < |ips| ==> ips[k] in c.standbys
    requires RoutinesOk(c.d, ips, rs0, lsn) && synced0 == Successes(rs0)
    modifies c
    ensures Kept(c, old(c.d)) && c.left <= old(c.left)
    ensures !Pending(Lefts(rs)) && RoutinesOk(c.d, ips, rs, lsn) && synced == Successes(rs)
    ensures c.Idle() && NoneFailed(rs0) && Sum(Costs(rs0)) <= old(c.left) && CaughtUpAll(old(c.d), ips, lsn) ==>
              NoneFailed(rs) && c.left + Sum(Costs(rs0)) == old(c.left) + Sum(Costs(rs))
  {
    ghost var enough := NoneFailed(rs0) && Sum(Costs(rs0)) <= old(c.left) && CaughtUpAll(old(c.d), ips, lsn);
    rs, synced := rs0, synced0;
    while Pending(Lefts(rs))
      invariant Kept(c, old(c.d)) && c.left <= old(c.left)
      invariant RoutinesOk(c.d, ips, rs, lsn) && synced == Successes(rs)
      invariant c.Idle() && enough ==> NoneFailed(rs) && c.left + Sum(Costs(rs0)) == old(c.left) + Sum(Costs(rs))
      decreases Sum(Lefts(rs))
    {
      ghost var before := c.d;
      rs, synced := Schedule(c, ips, lsn, rs, synced);
      KeptSince(c, old(c.d), before);
    }
  }

  ghost predicate CaughtUpAll(d: Db, ips: seq<nat>, lsn: nat) {
    forall k :: 0 <= k < |ips| ==> ips[k] in d.replayed && lsn <= d.replayed[ips[k]]
  }

  // The scheduler's pick among the goroutines that are not finished
  method Pick(c: Cluster, rs: seq<Routine>) returns (k: nat)
    requires Pending(Lefts(rs))
    modifies c`tick
    ensures k < |rs| && !rs[k].Finished?
  {
    k := Choose(Lefts(rs), c.order(c.tick));
    c.tick := c.tick + 1;
  }

  // The scheduler picks a goroutine, which runs to its next pause; its last step is the atomic addition.
  method Schedule(c: Cluster, ips: seq<nat>, lsn: nat, rs: seq<Routine>, synced: nat)
      returns (rs': seq<Routine>, synced': nat)
    requires c.Valid() && RoutinesOk(c.d, ips, rs, lsn) && synced == Successes(rs)
    requires Pending(Lefts(rs)) && forall k :: 0 <= k < |ips| ==> ips[k] in c.standbys
    modifies c
    ensures Kept(c, old(c.d)) && c.left <= old(c.left)
    ensures RoutinesOk(c.d, ips, rs', lsn) && synced' == Successes(rs')
    ensures Sum(Lefts(rs')) < Sum(Lefts(rs))
    ensures c.Idle() && NoneFailed(rs) && Sum(Costs(rs)) <= old(c.left) && CaughtUpAll(old(c.d), ips, lsn) ==>
              NoneFailed(rs') && c.left + Sum(Costs(rs)) == old(c.left) + Sum(Costs(rs'))
  {
    var k := Pick(c, rs);
    var r := Advance(c, ips[k], rs[k], lsn);
    RoutineMoves(old(c.d), c.d, ips, rs, k, r, lsn, c.standbys);
    CostMoves(rs, k, r);
    rs' := rs[k := r];
    synced' := if r == Finished(true) then synced + 1 else synced;
  }

  // One attempt: the addresses that have caught up, then all of them at once
  method Attempt(c: Cluster, lsn: nat) returns (ok: bool, all: bool)
    requires c.Valid()
    modifies c
    ensures Kept(c, old(c.d)) && c.left <= old(c.left) && (ok ==> c.left < old(c.left))
    ensures ok && all ==> AllSynced(c.d, c.standbys, lsn)
    ensures c.Reliable() && !ok ==> c.left == 0
    ensures c.Idle() && ok ==> AllReport(old(c.d), c.standbys, lsn)
    ensures c.Idle() && AllReport(old(c.d), c.standbys, lsn) && 2 * c.members <= old(c.left) + 1 ==>
              ok && all && c.left + 2 * c.members == old(c.left) + 1
  {
    var ips;
    all := false;
    ok, ips := c.ReadReplicas(lsn);
    if !ok { return; }
    ghost var outcome, before := [], c.d;
    all, outcome := WaitReplicas(c, ips, lsn);
    KeptSince(c, old(c.d), before);
    if all {
      RowsAreEveryone(ips, c.standbys);
    }
  }

  // waitReplicasReplayLSN: again and again until all replicas are synced, or the deadline passes
  method WaitReplicasReplayLSN(c: Cluster, lsn: nat) returns (ok: bool)
    requires c.Valid()
    modifies c
    ensures Kept(c, old(c.d)) && c.left <= old(c.left)
    ensures ok ==> AllSynced(c.d, c.standbys, lsn)
    ensures c.Reliable() && !ok ==> c.left == 0
    ensures c.Idle() && ok ==> AllReport(old(c.d), c.standbys, lsn)
    ensures c.Idle() && AllReport(old(c.d), c.standbys, lsn) && 2 * c.members <= old(c.left) + 1 ==>
              ok && c.left + 2 * c.members == old(c.left) + 1
  {
    var all;
    ok, all := Attempt(c, lsn);
    while ok && !all
      invariant Kept(c, old(c.d)) && c.left <= old(c.left)
      invariant ok && all ==> AllSynced(c.d, c.standbys, lsn)
      invariant c.Reliable() && !ok ==> c.left == 0
      invariant c.Idle() && ok ==> AllReport(old(c.d), c.standbys, lsn)
      invariant c.Idle() && AllReport(old(c.d), c.standbys, lsn) && 2 * c.members <= old(c.left) + 1 ==>
                  ok && all && c.left + 2 * c.members == old(c.left) + 1
      decreases ok && !all, c.left
    {
      ghost var before := c.d;
      ok, all := Attempt(c, lsn);
      KeptSince(c, old(c.d), before);
    }
  }

  // One round: checkpoint the primary, note its position, wait for the replicas, look again
  method Round(c: Cluster) returns (ok: bool, walLsn: nat, increase: int)
    requires c.Valid()
    modifies c
    ensures c.Valid() && Grown(old(c.d), c.d, c.standbys) && c.left <= old(c.left) && (ok ==> c.left < old(c.left))
    ensures ok ==> increase == c.d.lsn - walLsn && old(c.d).lsn <= c.d.checkpoint
    ensures ok && increase == 0 ==> Exact(c.d, c.standbys, walLsn)
    ensures c.Reliable() && !ok ==> c.left == 0
    ensures c.Idle() && ok ==> AllReport(old(c.d), c.standbys, old(c.d).lsn)
    ensures c.Idle() && AllReport(old(c.d), c.standbys, old(c.d).lsn) && 2 * c.members + 2 <= old(c.left) ==>
              ok && increase == 0 && walLsn == old(c.d).lsn
  {
    walLsn, increase := 0, 0;
    ok := c.CheckpointHere();
    if !ok { return; }
    ghost var d1 := c.d;
    ok := c.Statement();  // SELECT pg_current_wal_lsn()
    if !ok { return; }
    walLsn := c.d.lsn;
    ghost var d2 := c.d;
    GrownTrans(old(c.d), d1, d2, c.standbys);
    ok, increase := WaitAndRecheck(c, walLsn);
    GrownTrans(old(c.d), d2, c.d, c.standbys);
  }

  // The second half of a round, once the primary's position has been noted
  method WaitAndRecheck(c: Cluster, walLsn: nat) returns (ok: bool, increase: int)
    requires c.Valid()
    modifies c
    ensures Kept(c, old(c.d)) && c.left <= old(c.left)
    ensures ok ==> increase == c.d.lsn - walLsn
    ensures ok && increase == 0 ==> Exact(c.d, c.standbys, walLsn)
    ensures c.Reliable() && !ok ==> c.left == 0
    ensures c.Idle() && ok ==> AllReport(old(c.d), c.standbys, walLsn)
    ensures c.Idle() && AllReport(old(c.d), c.standbys, walLsn) && 2 * c.members <= old(c.left) ==> ok
  {
    increase := 0;
    ok := WaitReplicasReplayLSN(c, walLsn);
    if !ok { return; }
    ghost var before := c.d;
    ok, increase := Recheck(c, walLsn);
    KeptSince(c, old(c.d), before);
  }

  // SELECT pg_wal_lsn_diff(pg_current_wal_lsn(), walLsn) once the replicas are synced with walLsn
  method Recheck(c: Cluster, walLsn: nat) returns (ok: bool, increase: int)
    requires c.Valid() && AllSynced(c.d, c.standbys, walLsn)
    modifies c
    ensures Kept(c, old(c.d))
    ensures c.left == if old(c.left) > 0 then old(c.left) - 1 else 0
    ensures c.Reliable() ==> (ok <==> old(c.left) > 0)
    ensures c.Idle() ==> c.d == old(c.d)
    ensures increase == c.d.lsn - walLsn
    ensures increase == 0 ==> Exact(c.d, c.standbys, walLsn)
  {
    ok := c.Statement();
    increase := c.d.lsn - walLsn;
    if increase == 0 {
      SyncedIsExact(old(c.d), c.d, c.standbys, walLsn);
    }
  }

  /** syncRestorePoints: when it returns without error, the primary has been checkpointed and its position is the
      recorded one, and every replica has replayed exactly to it and has its restart point there. While no statement
      fails only the deadline ends it; and on a cluster that stands still it succeeds, given the time for one round,
      exactly if every replica has reported the primary's position. */
  method SyncRestorePoints(c: Cluster) returns (ok: bool, walLsn: nat)
    requires c.Valid()
    modifies c
    ensures c.Valid()
    ensures ok ==> Exact(c.d, c.standbys, walLsn) && old(c.d).lsn <= c.d.checkpoint <= walLsn
    ensures c.Reliable() && !ok ==> c.left == 0
    ensures c.Idle() && 2 * c.members + 2 <= old(c.left) ==>
              (ok <==> AllReport(old(c.d), c.standbys, old(c.d).lsn)) && (ok ==> walLsn == old(c.d).lsn)
  {
    var increase;
    ok, walLsn, increase := Round(c);
    while ok && increase != 0
      invariant c.Valid() && Grown(old(c.d), c.d, c.standbys)
      invariant ok && increase == 0 ==> Exact(c.d, c.standbys, walLsn)
      invariant ok ==> old(c.d).lsn <= c.d.checkpoint
      invariant c.Reliable() && !ok ==> c.left == 0
      invariant c.Idle() && 2 * c.members + 2 <= old(c.left) ==>
                  (ok <==> AllReport(old(c.d), c.standbys, old(c.d).lsn))
                  && (ok ==> increase == 0 && walLsn == old(c.d).lsn)
      decreases ok && increase != 0, c.left
    {
      ghost var before := c.d;
      ok, walLsn, increase := Round(c);
      GrownTrans(old(c.d), before, c.d, c.standbys);
    }
  }

  // The member names the job derives from the cluster's name and size
  method MemberNames(name: string, size: nat) returns (names: seq<string>)
    ensures |names| == size && forall i :: 0 <= i < size ==> names[i] == MemberName(name, i)
    ensures forall i, j :: 0 <= i < j < size ==> names[i] != names[j]
  {
    names := [];
    for i := 0 to size
      invariant |names| == i && forall k :: 0 <= k < i ==> names[k] == MemberName(name, k)
    {
      names := names + [MemberName(name, i)];
    }
    forall i, j | 0 <= i < j < size
      ensures names[i] != names[j]
    {
      if names[i] == names[j] {
        MemberNameIsInjective(name, i, name, j);
      }
    }
  }
}
