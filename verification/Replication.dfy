/** What preupgrade-sync depends on: how positions in the write-ahead log move while the primary writes and replicas
    replay, and what the goroutines that check the replicas may conclude. */
module Replication {
  import opened Schedules

  // Positions in the write-ahead log; replicas are known by their index in memberNames.
  datatype Db = Db(
    lsn: nat,                      // the primary's position
    checkpoint: nat,               // that of its last checkpoint
    replayed: map<nat, nat>,       // how far each replica has replayed
    restart: map<nat, nat>,        // the position of its last restart point
    reported: map<nat, nat>,       // replay_lsn as the primary knows it
    rows: set<nat>)                // replicas with a row in pg_stat_replication, at most one each

  datatype Activity =
    | Insert(bytes: nat)
    | CheckpointPrimary
    | Replay(replica: nat, upto: nat)
    | Report(replica: nat)
    | Connect(replica: nat)
    | Disconnect(replica: nat)

  // The indices below n.
  function Below(n: nat): (r: set<nat>)
    ensures |r| == n && forall i: nat :: i in r <==> i < n
  {
    if n == 0 then {} else Below(n - 1) + {n - 1}
  }

  // All members but the primary.
  ghost predicate AreStandbys(standbys: set<nat>, members: nat, primary: nat) {
    forall i: nat :: i in standbys <==> i < members && i != primary
  }

  lemma StandbysCount(standbys: set<nat>, members: nat, primary: nat)
    requires primary < members && AreStandbys(standbys, members, primary)
    ensures |standbys| == members - 1
  {
    assert standbys == Below(members) - {primary};
  }

  // A replica cannot be ahead of the primary, nor be reported ahead of itself.
  ghost predicate DbOk(d: Db, replicas: set<nat>) {
    && d.replayed.Keys == d.restart.Keys == d.reported.Keys == replicas
    && d.rows <= replicas && d.checkpoint <= d.lsn
    && forall i :: i in replicas ==> d.restart[i] <= d.replayed[i] <= d.lsn && d.reported[i] <= d.replayed[i]
  }

  function Act(d: Db, a: Activity): Db {
    match a
    case Insert(bytes) => d.(lsn := d.lsn + bytes)
    case CheckpointPrimary => d.(checkpoint := d.lsn)
    case Replay(i, upto) =>
      if i in d.replayed && d.replayed[i] <= upto <= d.lsn then d.(replayed := d.replayed[i := upto]) else d
    case Report(i) => if i in d.replayed then d.(reported := d.reported[i := d.replayed[i]]) else d
    case Connect(i) => if i in d.replayed then d.(rows := d.rows + {i}) else d
    case Disconnect(i) => d.(rows := d.rows - {i})
  }

  // What only grows.
  ghost predicate Grown(d: Db, d': Db, replicas: set<nat>)
    requires DbOk(d, replicas) && DbOk(d', replicas)
  {
    && d.lsn <= d'.lsn && d.checkpoint <= d'.checkpoint
    && forall i :: i in replicas ==> d.replayed[i] <= d'.replayed[i] && d.restart[i] <= d'.restart[i]
  }

  lemma GrownTrans(a: Db, b: Db, c: Db, replicas: set<nat>)
    requires DbOk(a, replicas) && DbOk(b, replicas) && DbOk(c, replicas)
    requires Grown(a, b, replicas) && Grown(b, c, replicas)
    ensures Grown(a, c, replicas)
  {
  }

  lemma ActKeeps(d: Db, a: Activity, replicas: set<nat>)
    requires DbOk(d, replicas)
    ensures DbOk(Act(d, a), replicas) && Grown(d, Act(d, a), replicas)
  {
  }

  // Replica i has replayed to lsn and has checkpointed after reaching it.
  predicate Synced(d: Db, i: nat, lsn: nat) {
    i in d.replayed && i in d.restart && lsn <= d.replayed[i] && lsn <= d.restart[i]
  }

  // Different replicas.
  ghost predicate Addresses(ips: seq<nat>, replicas: set<nat>) {
    && (forall k :: 0 <= k < |ips| ==> ips[k] in replicas)
    && (forall j, k :: 0 <= j < k < |ips| ==> ips[j] != ips[k])
  }

  // Every replica has a row, and the primary knows that it has replayed to lsn.
  ghost predicate AllReport(d: Db, replicas: set<nat>, lsn: nat)
    requires DbOk(d, replicas)
  {
    forall i :: i in replicas ==> i in d.rows && lsn <= d.reported[i]
  }

  // The rows with which pg_stat_replication answers, of the replicas below n and of all.
  ghost predicate RowsBelow(d: Db, replicas: set<nat>, ips: seq<nat>, lsn: nat, n: nat)
    requires DbOk(d, replicas)
  {
    && (forall j, k :: 0 <= j < k < |ips| ==> ips[j] != ips[k])
    && forall i :: i in ips <==> i < n && i in d.rows && lsn <= d.reported[i]
  }

  ghost predicate RowsAre(d: Db, replicas: set<nat>, ips: seq<nat>, lsn: nat)
    requires DbOk(d, replicas)
  {
    && (forall j, k :: 0 <= j < k < |ips| ==> ips[j] != ips[k])
    && forall i :: i in ips <==> i in d.rows && lsn <= d.reported[i]
  }

  // Row i, if it answers the query, comes after those before it.
  lemma RowsNext(d: Db, replicas: set<nat>, ips: seq<nat>, lsn: nat, i: nat)
    requires DbOk(d, replicas) && RowsBelow(d, replicas, ips, lsn, i)
    ensures RowsBelow(d, replicas, if i in d.rows && lsn <= d.reported[i] then ips + [i] else ips, lsn, i + 1)
  {
    if i in d.rows && lsn <= d.reported[i] {
      forall k | 0 <= k < |ips|
        ensures ips[k] != i
      {
        assert ips[k] in ips;
      }
    }
  }

  // There are as many rows as replicas exactly if every replica reports.
  lemma AllRowsExactlyIf(d: Db, replicas: set<nat>, ips: seq<nat>, lsn: nat)
    requires DbOk(d, replicas) && RowsAre(d, replicas, ips, lsn)
    ensures Addresses(ips, replicas) && forall k :: 0 <= k < |ips| ==> lsn <= d.replayed[ips[k]]
    ensures |ips| == |replicas| <==> AllReport(d, replicas, lsn)
  {
    forall k | 0 <= k < |ips|
      ensures ips[k] in replicas && lsn <= d.replayed[ips[k]]
    {
      assert ips[k] in ips;
    }
    if |ips| == |replicas| {
      RowsAreEveryone(ips, replicas);
    }
    if AllReport(d, replicas, lsn) {
      DistinctCount(ips);
      assert Elements(ips) == replicas;
    }
  }

  // ----- goroutines

  // Where one waitReplica goroutine stands; success is what its deferred Done leaves behind.
  datatype Routine = Connecting | CaughtUp | Checkpointed | Finished(success: bool)

  function StepsLeft(r: Routine): nat {
    match r
    case Connecting => 3
    case CaughtUp => 2
    case Checkpointed => 1
    case Finished(_) => 0
  }

  function Lefts(rs: seq<Routine>): seq<nat> {
    seq(|rs|, k requires 0 <= k < |rs| => StepsLeft(rs[k]))
  }

  function Mark(r: Routine): nat {
    if r == Finished(true) then 1 else 0
  }

  function Marks(rs: seq<Routine>): seq<nat> {
    seq(|rs|, k requires 0 <= k < |rs| => Mark(rs[k]))
  }

  function Successes(rs: seq<Routine>): nat {
    Sum(Marks(rs))
  }

  lemma AdvanceOne(rs: seq<Routine>, k: nat, r: Routine)
    requires k < |rs| && StepsLeft(r) < StepsLeft(rs[k])
    ensures Sum(Lefts(rs[k := r])) < Sum(Lefts(rs))
    ensures Successes(rs[k := r]) == Successes(rs) + Mark(r)
  {
    assert Lefts(rs[k := r]) == Lefts(rs)[k := StepsLeft(r)];
    SumUpdate(Lefts(rs), k, StepsLeft(r));
    assert Marks(rs[k := r]) == Marks(rs)[k := Mark(r)];
    SumUpdate(Marks(rs), k, Mark(r));
  }

  // The statements a goroutine that does not fail still has to send.
  function Cost(r: Routine): nat {
    match r
    case Connecting => 2
    case CaughtUp => 1
    case _ => 0
  }

  function Costs(rs: seq<Routine>): seq<nat> {
    seq(|rs|, k requires 0 <= k < |rs| => Cost(rs[k]))
  }

  lemma CostMoves(rs: seq<Routine>, k: nat, r: Routine)
    requires k < |rs|
    ensures Cost(rs[k]) <= Sum(Costs(rs))
    ensures Sum(Costs(rs[k := r])) + Cost(rs[k]) == Sum(Costs(rs)) + Cost(r)
  {
    SumUpdate(Costs(rs), k, 0);
    assert Costs(rs[k := r]) == Costs(rs)[k := Cost(r)];
    SumUpdate(Costs(rs), k, Cost(r));
  }

  lemma {:induction false} CostAtFirst(n: nat)
    ensures Sum(Costs(seq(n, k => Connecting))) == 2 * n
  {
    if n > 0 {
      CostAtFirst(n - 1);
      assert Costs(seq(n, k => Connecting))[..n - 1] == Costs(seq(n - 1, k => Connecting));
    }
  }

  // No goroutine has failed.
  ghost predicate NoneFailed(rs: seq<Routine>) {
    forall k :: 0 <= k < |rs| ==> rs[k] != Finished(false)
  }

  lemma AllDone(rs: seq<Routine>)
    ensures !Pending(Lefts(rs)) ==> Sum(Costs(rs)) == 0 && forall k :: 0 <= k < |rs| ==> rs[k].Finished?
  {
    SumIsZero(Costs(rs));
    assert forall k :: 0 <= k < |rs| ==> Lefts(rs)[k] == StepsLeft(rs[k]);
  }

  lemma AllSucceeded(rs: seq<Routine>)
    ensures Successes(rs) <= |rs|
    ensures Successes(rs) == |rs| <==> forall k :: 0 <= k < |rs| ==> rs[k] == Finished(true)
  {
    SumOfMarks(Marks(rs));
    assert forall k :: 0 <= k < |rs| ==> Marks(rs)[k] == Mark(rs[k]);
  }

  // When no goroutine is left to run.
  lemma AtTheEnd(rs: seq<Routine>)
    requires !Pending(Lefts(rs))
    ensures Sum(Costs(rs)) == 0 && forall k :: 0 <= k < |rs| ==> rs[k].Finished?
    ensures Successes(rs) == |rs| <==> forall k :: 0 <= k < |rs| ==> rs[k] == Finished(true)
    ensures NoneFailed(rs) ==> Successes(rs) == |rs|
  {
    AllDone(rs);
    AllSucceeded(rs);
  }

  // As many different replicas as there are replicas are all of them.
  lemma RowsAreEveryone(ips: seq<nat>, replicas: set<nat>)
    requires |ips| == |replicas| && Addresses(ips, replicas)
    ensures forall i :: i in replicas ==> i in ips
  {
    DistinctCount(ips);
    SubsetOfSameSize(Elements(ips), replicas);
  }

  function Elements(ips: seq<nat>): (r: set<nat>)
    ensures forall i :: i in r <==> i in ips
  {
    if ips == [] then {} else Elements(ips[..|ips| - 1]) + {ips[|ips| - 1]}
  }

  lemma {:induction false} DistinctCount(ips: seq<nat>)
    requires forall j, k :: 0 <= j < k < |ips| ==> ips[j] != ips[k]
    ensures |Elements(ips)| == |ips|
  {
    if ips != [] {
      DistinctCount(ips[..|ips| - 1]);
    }
  }

  lemma SubsetOfSameSize(a: set<nat>, b: set<nat>)
    requires a <= b && |a| == |b|
    ensures a == b
  {
    if b - a != {} {
      var x :| x in b - a;
      SubsetIsSmaller(a, b - {x});
    } else {
      assert forall x :: x in b ==> x !in b - a;
    }
  }

  lemma {:induction false} SubsetIsSmaller(a: set<nat>, b: set<nat>)
    requires a <= b
    ensures |a| <= |b|
  {
    if x :| x in a {
      SubsetIsSmaller(a - {x}, b - {x});
    }
  }

  // What is known of the goroutines: a success means the replica is synced.
  ghost predicate RoutinesOk(d: Db, ips: seq<nat>, rs: seq<Routine>, lsn: nat) {
    && |rs| == |ips|
    && (forall k :: 0 <= k < |rs| && rs[k] == CaughtUp ==> ips[k] in d.replayed && lsn <= d.replayed[ips[k]])
    && (forall k :: 0 <= k < |rs| && (rs[k] == Checkpointed || rs[k] == Finished(true)) ==> Synced(d, ips[k], lsn))
  }

  // Goroutine k has come to r, and nothing the others know has been lost.
  lemma RoutineMoves(d: Db, d': Db, ips: seq<nat>, rs: seq<Routine>, k: nat, r: Routine, lsn: nat, replicas: set<nat>)
    requires DbOk(d, replicas) && DbOk(d', replicas) && Grown(d, d', replicas) && RoutinesOk(d, ips, rs, lsn)
    requires k < |rs| && StepsLeft(r) < StepsLeft(rs[k]) && ips[k] in replicas
    requires r == CaughtUp ==> lsn <= d'.replayed[ips[k]]
    requires r == Checkpointed || r == Finished(true) ==> Synced(d', ips[k], lsn)
    ensures RoutinesOk(d', ips, rs[k := r], lsn)
    ensures Sum(Lefts(rs[k := r])) < Sum(Lefts(rs)) && Successes(rs[k := r]) == Successes(rs) + Mark(r)
  {
    AdvanceOne(rs, k, r);
  }

  lemma NoSuccessYet(n: nat)
    ensures Successes(seq(n, k => Connecting)) == 0
  {
    SumIsZero(Marks(seq(n, k => Connecting)));
  }

  // Every replica is synced with lsn.
  ghost predicate AllSynced(d: Db, replicas: set<nat>, lsn: nat) {
    forall i :: i in replicas ==> Synced(d, i, lsn)
  }

  // The primary is at lsn, and every replica has replayed exactly to it and has its restart point there.
  ghost predicate Exact(d: Db, replicas: set<nat>, lsn: nat) {
    d.lsn == lsn && forall i :: i in replicas ==>
        i in d.replayed && i in d.restart && d.replayed[i] == lsn && d.restart[i] == lsn
  }

  // A replica cannot be ahead of the primary: if the primary has not moved, synced is exact.
  lemma SyncedIsExact(d: Db, d': Db, replicas: set<nat>, lsn: nat)
    requires DbOk(d, replicas) && DbOk(d', replicas) && Grown(d, d', replicas)
    requires AllSynced(d, replicas, lsn) && d'.lsn == lsn
    ensures Exact(d', replicas, lsn)
  {
    forall i | i in replicas
      ensures d'.replayed[i] == lsn && d'.restart[i] == lsn
    {
      assert Synced(d, i, lsn);
    }
  }
}
