/** postupgrade: extensions are updated in all databases at once, by one goroutine
    each, and only if all of them succeed the databases are analyzed. */
module Extensions {
  import opened Base
  import opened Schedules

  datatype Statement =
    | Alter(database: string, extension: string)
    | Analyze(database: string)

  // A buffered channel of errors; what cannot be sent at once would block.
  class ErrChan {
    const capacity: nat
    var buf: seq<string>

    constructor (capacity: nat)
      ensures this.capacity == capacity && buf == []
    {
      this.capacity, buf := capacity, [];
    }

    // A send that does not block: the caller shows that there is room.
    method Send(err: string)
      requires |buf| < capacity
      modifies this
      ensures buf == old(buf) + [err]
    {
      buf := buf + [err];
    }
  }

  // One goroutine: it connects and lists the extensions, updates them in turn, and stops at the first error.
  datatype Worker = Starting | Updating(todo: seq<string>) | Failing | Finished(failed: bool)

  /** The database server: which extensions each database has, and which statements fail. `turn` makes the
      interleaving of the goroutines arbitrary; `log` holds the statements that succeeded. */
  class Server {
    const extensions: string -> Option<seq<string>>   // None: connecting or listing fails
    const fails: Statement -> bool
    const turn: nat -> nat
    var tick: nat
    ghost var log: seq<Statement>

    constructor (extensions: string -> Option<seq<string>>, fails: Statement -> bool, turn: nat -> nat)
      ensures this.extensions == extensions && this.fails == fails && log == []
    {
      this.extensions, this.fails, this.turn := extensions, fails, turn;
      tick, log := 0, [];
    }

    method Exec(s: Statement) returns (ok: bool)
      modifies this
      ensures ok == !fails(s)
      ensures log == if ok then old(log) + [s] else old(log)
    {
      tick := tick + 1;
      ok := !fails(s);
      if ok { log := log + [s]; }
    }

    // Updating database db succeeds: it can be read and none of its extensions fails.
    predicate Updatable(db: string) {
      extensions(db).Some? && forall e :: e in extensions(db).value ==> !fails(Alter(db, e))
    }

    // Every extension of db has been updated.
    ghost predicate Updated(db: string)
      reads this
    {
      extensions(db).Some? && forall e :: e in extensions(db).value ==> Alter(db, e) in log
    }
  }

  function Left(s: Server, db: string, w: Worker): nat {
    match w
    case Starting => if s.extensions(db).Some? then |s.extensions(db).value| + 3 else 3
    case Updating(todo) => |todo| + 2
    case Failing => 1
    case Finished(_) => 0
  }

  function Lefts(s: Server, dbs: seq<string>, ws: seq<Worker>): seq<nat>
    requires |ws| == |dbs|
  {
    seq(|ws|, k requires 0 <= k < |ws| => Left(s, dbs[k], ws[k]))
  }

  function Mark(w: Worker): nat {
    if w == Finished(true) then 1 else 0
  }

  function Marks(ws: seq<Worker>): seq<nat> {
    seq(|ws|, k requires 0 <= k < |ws| => Mark(ws[k]))
  }

  // Errors sent so far.
  function Sent(ws: seq<Worker>): nat {
    Sum(Marks(ws))
  }

  // While a goroutine has not sent there is room for it.
  lemma SentBound(ws: seq<Worker>, k: nat)
    requires k < |ws|
    ensures Sent(ws) <= |ws| && (ws[k] != Finished(true) ==> Sent(ws) < |ws|)
    ensures Sent(ws) == 0 ==> ws[k] != Finished(true)
  {
    SumOfMarks(Marks(ws));
    SumIsZero(Marks(ws));
    assert Marks(ws)[k] == Mark(ws[k]);
  }

  lemma SentSome(ws: seq<Worker>)
    ensures Sent(ws) > 0 ==> exists k :: 0 <= k < |ws| && ws[k] == Finished(true)
  {
    SumIsZero(Marks(ws));
    if Sent(ws) > 0 {
      var k :| 0 <= k < |Marks(ws)| && Marks(ws)[k] != 0;
      assert ws[k] == Finished(true);
    }
  }

  lemma AdvanceOne(s: Server, dbs: seq<string>, ws: seq<Worker>, k: nat, w: Worker)
    requires |ws| == |dbs| && k < |ws| && Left(s, dbs[k], w) < Left(s, dbs[k], ws[k]) && ws[k] != Finished(true)
    ensures Sum(Lefts(s, dbs, ws[k := w])) < Sum(Lefts(s, dbs, ws))
    ensures Sent(ws[k := w]) == Sent(ws) + Mark(w)
  {
    assert Lefts(s, dbs, ws[k := w]) == Lefts(s, dbs, ws)[k := Left(s, dbs[k], w)];
    SumUpdate(Lefts(s, dbs, ws), k, Left(s, dbs[k], w));
    assert Marks(ws[k := w]) == Marks(ws)[k := Mark(w)];
    SumUpdate(Marks(ws), k, Mark(w));
  }

  /** What a goroutine's state says: what is left of its list, what has been updated, and that it fails only if its
      database cannot be updated. */
  ghost predicate WorkerOk(s: Server, db: string, w: Worker)
    reads s
  {
    match w
    case Starting => true
    case Updating(todo) =>
      && s.extensions(db).Some?
      && (forall e :: e in todo ==> e in s.extensions(db).value)
      && forall e :: e in s.extensions(db).value ==> e in todo || (Alter(db, e) in s.log && !s.fails(Alter(db, e)))
    case Failing => !s.Updatable(db)
    case Finished(failed) => if failed then !s.Updatable(db) else s.Updatable(db) && s.Updated(db)
  }

  // What has been executed between before and after is no analysis.
  ghost predicate OnlyAlters(before: seq<Statement>, after: seq<Statement>) {
    before <= after && NoAnalyze(after[|before|..])
  }

  lemma AltersCompose(a: seq<Statement>, b: seq<Statement>, c: seq<Statement>)
    requires OnlyAlters(a, b) && OnlyAlters(b, c)
    ensures OnlyAlters(a, c)
  {
    assert c[|a|..] == b[|a|..] + c[|b|..];
  }

  // One step of the goroutine of db; the step that sends is the one after failing.
  method Advance(s: Server, ch: ErrChan, db: string, w: Worker) returns (w': Worker)
    requires WorkerOk(s, db, w) && !w.Finished? && |ch.buf| < ch.capacity
    modifies s, ch
    ensures WorkerOk(s, db, w') && OnlyAlters(old(s.log), s.log)
    ensures Left(s, db, w') < Left(s, db, w)
    ensures |ch.buf| == old(|ch.buf|) + if w' == Finished(true) then 1 else 0
  {
    match w
    case Starting =>
      w' := if s.extensions(db).None? then Failing else Updating(s.extensions(db).value);
    case Updating(todo) =>
      if todo == [] {
        w' := Finished(false);
      } else {
        var ok := s.Exec(Alter(db, todo[0]));
        assert forall e :: e in todo ==> e == todo[0] || e in todo[1..];
        w' := if ok then Updating(todo[1..]) else Failing;
      }
    case Failing =>
      ch.Send(db);
      w' := Finished(true);
    case Finished(_) =>
      w' := w;
  }

  ghost predicate WorkersOk(s: Server, dbs: seq<string>, ws: seq<Worker>)
    reads s
  {
    |ws| == |dbs| && forall k :: 0 <= k < |ws| ==> WorkerOk(s, dbs[k], ws[k])
  }

  // One step of goroutine k; the others know what they knew.
  method Schedule(s: Server, ch: ErrChan, dbs: seq<string>, ws: seq<Worker>, k: nat) returns (ws': seq<Worker>)
    requires WorkersOk(s, dbs, ws) && k < |ws| && !ws[k].Finished?
    requires ch.capacity == |dbs| && |ch.buf| == Sent(ws)
    modifies s, ch
    ensures WorkersOk(s, dbs, ws') && |ch.buf| == Sent(ws')
    ensures OnlyAlters(old(s.log), s.log)
    ensures Sum(Lefts(s, dbs, ws')) < Sum(Lefts(s, dbs, ws))
  {
    SentBound(ws, k);
    var w := Advance(s, ch, dbs[k], ws[k]);
    AdvanceOne(s, dbs, ws, k, w);
    ws' := ws[k := w];
  }

  /** updateextensions: in every interleaving no goroutine ever blocks on the channel, and an error comes back
      exactly when some database could not be updated; without an error every extension has been updated. */
  method UpdateExtensions(s: Server, dbs: seq<string>) returns (err: Option<string>)
    modifies s
    ensures err.None? <==> forall k :: 0 <= k < |dbs| ==> s.Updatable(dbs[k])
    ensures err.None? ==> forall k :: 0 <= k < |dbs| ==> s.Updated(dbs[k])
    ensures OnlyAlters(old(s.log), s.log)
  {
    var errchan := new ErrChan(|dbs|);
    var ws := seq(|dbs|, k => Starting);
    NothingSentYet(|dbs|);
    while Pending(Lefts(s, dbs, ws))
      invariant WorkersOk(s, dbs, ws) && errchan.capacity == |dbs| && |errchan.buf| == Sent(ws)
      invariant fresh(errchan) && OnlyAlters(old(s.log), s.log)
      decreases Sum(Lefts(s, dbs, ws))
    {
      ghost var before := s.log;
      var k := Choose(Lefts(s, dbs, ws), s.turn(s.tick));
      s.tick := s.tick + 1;
      ws := Schedule(s, errchan, dbs, ws, k);
      AltersCompose(old(s.log), before, s.log);
    }
    Verdict(s, dbs, ws);
    err := if errchan.buf != [] then Some(errchan.buf[0]) else None;
  }

  // When all goroutines are finished, the errors sent tell whether all databases have been updated.
  lemma Verdict(s: Server, dbs: seq<string>, ws: seq<Worker>)
    requires WorkersOk(s, dbs, ws) && !Pending(Lefts(s, dbs, ws))
    ensures Sent(ws) == 0 <==> forall k :: 0 <= k < |dbs| ==> s.Updatable(dbs[k])
    ensures Sent(ws) == 0 ==> forall k :: 0 <= k < |dbs| ==> s.Updated(dbs[k])
  {
    SentSome(ws);
    if k :| 0 <= k < |ws| && ws[k] == Finished(true) {
      assert WorkerOk(s, dbs[k], ws[k]);
      SentBound(ws, k);
    }
    forall k | 0 <= k < |dbs| && Sent(ws) == 0
      ensures s.Updatable(dbs[k]) && s.Updated(dbs[k])
    {
      SentBound(ws, k);
      assert WorkerOk(s, dbs[k], ws[k]);
      assert Lefts(s, dbs, ws)[k] == Left(s, dbs[k], ws[k]);
    }
  }

  lemma NothingSentYet(n: nat)
    ensures Sent(seq(n, k => Starting)) == 0
  {
    SumIsZero(Marks(seq(n, k => Starting)));
  }

  /** postupgradefn: the databases are analyzed, in order, only after every extension of every database has been
      updated; success means that all of both has been done. */
  method Postupgrade(s: Server, dbs: seq<string>) returns (ok: bool)
    modifies s
    ensures old(s.log) <= s.log
    ensures ok <==> forall k :: 0 <= k < |dbs| ==> s.Updatable(dbs[k]) && !s.fails(Analyze(dbs[k]))
    ensures ok ==> forall k :: 0 <= k < |dbs| ==> s.Updated(dbs[k]) && Analyze(dbs[k]) in s.log
    ensures (exists k :: 0 <= k < |dbs| && !s.Updatable(dbs[k])) ==> NoAnalyze(s.log[|old(s.log)|..])
    ensures forall i, j :: |old(s.log)| <= i < j < |s.log| && s.log[i].Analyze? ==> s.log[j].Analyze?
  {
    var err := UpdateExtensions(s, dbs);
    ghost var added := s.log[|old(s.log)|..];
    forall i | |old(s.log)| <= i < |s.log|
      ensures s.log[i].Alter?
    {
      assert s.log[i] == added[i - |old(s.log)|] && added[i - |old(s.log)|] in added;
    }
    if err.Some? {
      ok := false;
      return;
    }
    for i := 0 to |dbs|
      invariant old(s.log) <= s.log
      invariant forall k :: 0 <= k < |dbs| ==> s.Updated(dbs[k])
      invariant forall i, j :: |old(s.log)| <= i < j < |s.log| && s.log[i].Analyze? ==> s.log[j].Analyze?
      invariant forall k :: 0 <= k < i ==> Analyze(dbs[k]) in s.log && !s.fails(Analyze(dbs[k]))
    {
      ok := s.Exec(Analyze(dbs[i]));
      if !ok { return; }
    }
    ok := true;
  }

  ghost predicate NoAnalyze(log: seq<Statement>) {
    forall c :: c in log ==> c.Alter?
  }
}
