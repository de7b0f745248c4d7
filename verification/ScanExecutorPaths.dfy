/** Complete paths through execute_scan, from its first await to its result. */
module ScanExecutorPaths {
  import opened Wrappers
  import opened ScanTable
  import opened ScanLocks
  import opened ScanExecutor

  /** The executor running alone through a list of events; None if an event
      cannot happen where the program is. */
  function Drive(db: Db, sid: Sid, x: Exec, events: seq<Event>, clock: int): Option<(Db, Exec)>
    decreases |events|
  {
    if events == [] then Some((db, x))
    else if !Enabled(db, sid, x, events[0]) then None
    else
      var (after, y) := Step(db, sid, x, events[0], clock);
      Drive(after, sid, y, events[1..], clock)
  }

  lemma DriveOne(db: Db, sid: Sid, x: Exec, event: Event, rest: seq<Event>, clock: int)
    requires Enabled(db, sid, x, event)
    ensures var (after, y) := Step(db, sid, x, event, clock);
            Drive(db, sid, x, [event] + rest, clock) == Drive(after, sid, y, rest, clock)
  {
    assert ([event] + rest)[1..] == rest;
  }

  /** A claimed scan nobody else is touching. */
  predicate Undisturbed(db: Db, sid: Sid, scan: ScanId, tenant: Tenant) {
    && sid !in db.open
    && scan in db.rows && db.rows[scan].tenant == tenant && db.rows[scan].status == Running
    && Free(db, sid, scan)
  }

  function KnownKeys(db: Db, scan: ScanId): set<string> {
    set f | f in db.found && f.scan == scan :: f.key
  }

  const CLEANUP: seq<Event> := [Success, Success, Success, Success]

  /** Without interference a run stores the report, completes the row and adds
      exactly the findings that were not there yet. */
  lemma UndisturbedRunCompletes(db: Db, sid: Sid, scan: ScanId, tenant: Tenant, drafts: set<string>, raw: string, clock: int)
    requires DbOk(db) && Undisturbed(db, sid, scan, tenant)
    ensures var run := Drive(db, sid, Start(scan, tenant, true),
                         [Success, Success, Success, GraphResult(drafts, raw),
                          Success, Success, Success, Success, Success], clock);
            && run.Some?
            && run.value.1.pc == Done(ReturnedCompleted)
            && run.value.0.rows == db.rows[scan := Moved(db.rows[scan], Completed, None, Some(raw), clock)]
            && run.value.0.found == db.found + set key | key in drafts - KnownKeys(db, scan) :: Finding(scan, key, Some(sid))
  {
    assert Running in AllowedFrom(Completed);
    var x := Start(scan, tenant, true);
    var tail := [Success, Success, Success, Success, Success];
    var x3 := x.(context := TenantContext(tenant), pc := Graph);
    ThreeSteps(db, sid, x, [GraphResult(drafts, raw)] + tail, clock);
    assert [Success, Success, Success] + ([GraphResult(drafts, raw)] + tail)
        == [Success, Success, Success, GraphResult(drafts, raw), Success, Success, Success, Success, Success];
    DriveOne(db, sid, x3, GraphResult(drafts, raw), tail, clock);
    var x4 := x3.(drafts := drafts, raw := raw, pc := PersistContext);
    PersistPath(db, sid, x4, clock);
  }

  lemma ThreeSteps(db: Db, sid: Sid, x: Exec, rest: seq<Event>, clock: int)
    requires x.pc.FirstContext? && x.claimed && Visible(db, x)
    ensures Drive(db, sid, x, [Success, Success, Success] + rest, clock)
         == Drive(db, sid, x.(context := TenantContext(x.tenant), pc := Graph), rest, clock)
  {
    var x1 := x.(context := TenantContext(x.tenant), pc := Load);
    DriveOne(db, sid, x, Success, [Success, Success] + rest, clock);
    assert [Success] + ([Success, Success] + rest) == [Success, Success, Success] + rest;
    DriveOne(db, sid, x1, Success, [Success] + rest, clock);
    assert [Success] + ([Success] + rest) == [Success, Success] + rest;
    DriveOne(db, sid, x1.(pc := RunContext), Success, rest, clock);
  }

  lemma PersistPath(db: Db, sid: Sid, x: Exec, clock: int)
    requires DbOk(db) && Undisturbed(db, sid, x.scan, x.tenant) && x.pc.PersistContext?
    ensures var run := Drive(db, sid, x, [Success, Success, Success, Success, Success], clock);
            && run.Some?
            && run.value.1.pc == Done(ReturnedCompleted)
            && run.value.0.rows == db.rows[x.scan := Moved(db.rows[x.scan], Completed, None, Some(x.raw), clock)]
            && run.value.0.found == db.found + set key | key in x.drafts - KnownKeys(db, x.scan) :: Finding(x.scan, key, Some(sid))
  {
    var x1 := x.(context := TenantContext(x.tenant), pc := PersistRead);
    var x2 := x1.(seen := KnownKeys(db, x.scan), pc := PersistFlush);
    DriveOne(db, sid, x, Success, [Success, Success, Success, Success], clock);
    DriveOne(db, sid, x1, Success, [Success, Success, Success], clock);
    assert [Success] + [Success, Success, Success, Success] == [Success, Success, Success, Success, Success];
    assert [Success] + [Success, Success, Success] == [Success, Success, Success, Success];
    StorePath(db, sid, x2, clock);
  }

  lemma StorePath(db: Db, sid: Sid, x: Exec, clock: int)
    requires FindingsAnchored(db) && Undisturbed(db, sid, x.scan, x.tenant) && x.pc.PersistFlush?
    ensures var run := Drive(db, sid, x, [Success, Success, Success], clock);
            && run.Some?
            && run.value.1.pc == Done(ReturnedCompleted)
            && run.value.0.rows == db.rows[x.scan := Moved(db.rows[x.scan], Completed, None, Some(x.raw), clock)]
            && run.value.0.found == db.found + NewFindings(sid, x)
  {
    var d1, x1 := Insert(db, sid, NewFindings(sid, x)), x.(pc := CompleteUpdate);
    assert NotBeingDeleted(db, sid, x.scan);
    DriveOne(db, sid, x, Success, [Success, Success], clock);
    assert [Success] + [Success, Success] == [Success, Success, Success];
    assert Free(d1, sid, x.scan);
    FinishPath(db, d1, sid, x1, clock);
  }

  lemma FinishPath(db: Db, staged: Db, sid: Sid, x: Exec, clock: int)
    requires FindingsAnchored(db) && staged.rows == db.rows && staged.found == db.found
    requires Open(staged, sid) == Tx(map[], NewFindings(sid, x)) && Free(staged, sid, x.scan)
    requires Visible(db, x) && db.rows[x.scan].status == Running && x.pc.CompleteUpdate?
    ensures var run := Drive(staged, sid, x, [Success, Success], clock);
            && run.Some?
            && run.value.1.pc == Done(ReturnedCompleted)
            && run.value.0.rows == db.rows[x.scan := Moved(db.rows[x.scan], Completed, None, Some(x.raw), clock)]
            && run.value.0.found == db.found + NewFindings(sid, x)
  {
    assert Running in AllowedFrom(Completed);
    var row := Moved(db.rows[x.scan], Completed, None, Some(x.raw), clock);
    var d2, x2 := Stage(staged, sid, x.scan, Put(row)), x.(pc := CompleteCommit);
    DriveOne(staged, sid, x, Success, [Success], clock);
    assert [Success] + [Success] == [Success, Success];
    DriveOne(d2, sid, x2, Success, [], clock);
    assert [Success] + [] == [Success];
    CommitOf(db, d2, sid, x.scan, row, NewFindings(sid, x));
  }

  /** Committing one row and some findings of that row does just that. */
  lemma CommitOf(db: Db, staged: Db, sid: Sid, id: ScanId, row: Scan, adds: set<Finding>)
    requires FindingsAnchored(db) && id in db.rows && forall f | f in adds :: f.scan == id
    requires staged.rows == db.rows && staged.found == db.found
    requires Open(staged, sid) == Tx(map[id := Put(row)], adds)
    ensures Commit(staged, sid).rows == db.rows[id := row]
    ensures Commit(staged, sid).found == db.found + adds
  {
  }

  lemma CommitNothing(db: Db, staged: Db, sid: Sid)
    requires FindingsAnchored(db)
    requires staged.rows == db.rows && staged.found == db.found
    requires Open(staged, sid) == Tx(map[], {})
    ensures Commit(staged, sid).rows == db.rows
    ensures Commit(staged, sid).found == db.found
  {
  }

  /** A cleanup moved the row to its goal if it was still open, and changed nothing else. */
  predicate SettledAs(db: Db, x: Exec, kind: Cleanup, after: Db, clock: int)
    requires ValidRequest(Goal(kind), Reason(kind), None)
  {
    && after.found == db.found
    && after.rows == if CanMove(db, x, Goal(kind))
                     then db.rows[x.scan := Moved(db.rows[x.scan], Goal(kind), Reason(kind), None, clock)]
                     else db.rows
  }

  /** A cleanup nobody disturbs ends in a terminal row: the goal if the row was
      still open, whatever it had become otherwise. Findings stay as they were. */
  lemma CleanupPath(db: Db, sid: Sid, x: Exec, clock: int)
    requires DbOk(db) && Free(db, sid, x.scan)
    requires x.pc.Cleaning? && x.pc.step.DoRollback? && !x.pc.interrupted
    requires ValidRequest(Goal(x.pc.kind), Reason(x.pc.kind), None)
    ensures var run := Drive(db, sid, x, CLEANUP, clock);
            && run.Some?
            && run.value.1.pc == Done(if x.pc.kind.MarkCancelled? then RaisedCancelled
                                      else if CanMove(db, x, Failed) then ReturnedFailed else ReturnedCancelled)
            && SettledAs(db, x, x.pc.kind, run.value.0, clock)
  {
    var d1 := Rollback(db, sid);
    var x1 := x.(context := NoContext, pc := x.pc.(step := DoContext));
    var x2 := x1.(context := TenantContext(x.tenant), pc := x.pc.(step := DoUpdate));
    DriveOne(db, sid, x, Success, [Success, Success, Success], clock);
    assert [Success] + [Success, Success, Success] == CLEANUP;
    DriveOne(d1, sid, x1, Success, [Success, Success], clock);
    assert [Success] + [Success, Success] == [Success, Success, Success];
    assert Free(d1, sid, x.scan);
    MarkPath(d1, sid, x2, clock);
  }

  lemma MarkPath(db: Db, sid: Sid, x: Exec, clock: int)
    requires FindingsAnchored(db) && Free(db, sid, x.scan) && sid !in db.open
    requires x.pc.Cleaning? && x.pc.step.DoUpdate? && !x.pc.interrupted
    requires ValidRequest(Goal(x.pc.kind), Reason(x.pc.kind), None)
    ensures var run := Drive(db, sid, x, [Success, Success], clock);
            && run.Some?
            && run.value.1.pc == Done(if x.pc.kind.MarkCancelled? then RaisedCancelled
                                      else if CanMove(db, x, Failed) then ReturnedFailed else ReturnedCancelled)
            && SettledAs(db, x, x.pc.kind, run.value.0, clock)
  {
    var kind := x.pc.kind;
    var matched := CanMove(db, x, Goal(kind));
    var d1 := StageMove(db, sid, x, Goal(kind), Reason(kind), None, clock);
    var x1 := x.(pc := x.pc.(step := DoCommit(matched)));
    DriveOne(db, sid, x, Success, [Success], clock);
    assert [Success] + [Success] == [Success, Success];
    DriveOne(d1, sid, x1, Success, [], clock);
    assert [Success] + [] == [Success];
    if matched {
      CommitOf(db, d1, sid, x.scan, Moved(db.rows[x.scan], Goal(kind), Reason(kind), None, clock), {});
    } else {
      CommitNothing(db, d1, sid);
    }
  }

  /** A graph error fails the scan with its reason and stores no finding. */
  lemma GraphErrorFailsScan(db: Db, sid: Sid, x: Exec, reason: string, clock: int)
    requires DbOk(db) && Undisturbed(db, sid, x.scan, x.tenant)
    requires x.pc.Graph? && 0 < |reason| <= MAX_REASON
    ensures var run := Drive(db, sid, x, [GraphError(reason)] + CLEANUP, clock);
            && run.Some?
            && run.value.1.pc == Done(ReturnedFailed)
            && run.value.0.found == db.found
            && run.value.0.rows == db.rows[x.scan := Moved(db.rows[x.scan], Failed, Some(reason), None, clock)]
  {
    assert Running in AllowedFrom(Failed);
    DriveOne(db, sid, x, GraphError(reason), CLEANUP, clock);
    CleanupPath(db, sid, BeginCleanup(x, FailWith(reason), true), clock);
  }

  /** An exception at any await of a claimed run, whether or not the statement that
      raised had been applied: a row that was still running has failed with
      "internal_error", any other stays what it was, and no finding is stored, unless
      the statement was the final commit and had been applied. */
  lemma ErrorFailsScan(db: Db, sid: Sid, x: Exec, applied: bool, clock: int)
    requires DbOk(db) && ExecOk(db, sid, x) && Free(db, sid, x.scan)
    requires x.claimed && !x.pc.Cleaning? && Enabled(db, sid, x, Fault(applied))
    ensures var run := Drive(db, sid, x, [Fault(applied)] + CLEANUP, clock);
            var committed := applied && x.pc.CompleteCommit?;
            && run.Some?
            && run.value.1.pc == Done(if !committed && x.scan in db.rows && db.rows[x.scan].status == Running
                                      then ReturnedFailed else ReturnedCancelled)
            && run.value.0.found == (if committed then db.found + NewFindings(sid, x) else db.found)
            && run.value.0.rows.Keys == db.rows.Keys
            && (x.scan in db.rows ==>
                  var was, now := db.rows[x.scan], run.value.0.rows[x.scan];
                  if committed then now.status == Completed
                  else if was.status == Running then
                    now == was.(status := Failed, failureReason := Some("internal_error"), completedAt := Some(clock))
                  else now == was)
  {
    var (after, y) := Step(db, sid, x, Fault(applied), clock);
    FaultStep(db, sid, x, applied, clock);
    FaultEffect(db, sid, x, applied, clock);
    FailingCleanup(after, sid, y, clock);
    DriveOne(db, sid, x, Fault(applied), CLEANUP, clock);
  }

  lemma FaultStep(db: Db, sid: Sid, x: Exec, applied: bool, clock: int)
    requires x.claimed && !x.pc.Cleaning? && Enabled(db, sid, x, Fault(applied))
    ensures exists guarded :: Step(db, sid, x, Fault(applied), clock).1
                           == x.(pc := Cleaning(FailWith("internal_error"), DoRollback, guarded, false))
  {
    var y := Step(db, sid, x, Fault(applied), clock).1;
    assert y == x.(pc := Cleaning(FailWith("internal_error"), DoRollback, y.pc.guarded, false));
  }

  lemma FaultEffect(db: Db, sid: Sid, x: Exec, applied: bool, clock: int)
    requires DbOk(db) && ExecOk(db, sid, x) && Free(db, sid, x.scan)
    requires x.claimed && !x.pc.Cleaning? && Enabled(db, sid, x, Fault(applied))
    ensures var after := Step(db, sid, x, Fault(applied), clock).0;
            && DbOk(after) && Free(after, sid, x.scan) && Taken(after, x)
            && if applied && x.pc.CompleteCommit? then
                 && x.scan in db.rows && after.rows.Keys == db.rows.Keys && after.rows[x.scan].status == Completed
                 && after.found == db.found + NewFindings(sid, x)
               else after.rows == db.rows && after.found == db.found
  {
    FaultStep(db, sid, x, applied, clock);
    assert CanTakeEffect(db, sid, x) || !applied;
    InterruptedEffect(db, sid, x, applied, clock);
    CancelledStep(db, sid, x, applied, clock);
    assert Step(db, sid, x, Fault(applied), clock).0 == Step(db, sid, x, Cancel(applied), clock).0;
  }

  /** An undisturbed failing cleanup of a claimed scan. */
  lemma FailingCleanup(db: Db, sid: Sid, x: Exec, clock: int)
    requires DbOk(db) && Taken(db, x) && Free(db, sid, x.scan) && x.pc.Cleaning?
    requires x.pc == Cleaning(FailWith("internal_error"), DoRollback, x.pc.guarded, false)
    ensures var run := Drive(db, sid, x, CLEANUP, clock);
            var open := x.scan in db.rows && db.rows[x.scan].status == Running;
            && run.Some? && run.value.1.pc == Done(if open then ReturnedFailed else ReturnedCancelled)
            && run.value.0.found == db.found && run.value.0.rows.Keys == db.rows.Keys
            && (x.scan in db.rows ==>
                  run.value.0.rows[x.scan] ==
                    if open then db.rows[x.scan].(status := Failed, failureReason := Some("internal_error"), completedAt := Some(clock))
                    else db.rows[x.scan])
  {
    assert Running in AllowedFrom(Failed) && AllowedFrom(Failed) == {Pending, Running};
    assert x.scan in db.rows ==> db.rows[x.scan].status != Pending;
    CleanupPath(db, sid, x, clock);
  }

  /** The state of a cleanup that has come to some step. */
  function AtStep(x: Exec, step: CleanupStep, interrupted: bool): Exec
    requires x.pc.Cleaning?
  {
    x.(pc := Cleaning(x.pc.kind, step, x.pc.guarded, interrupted))
  }

  /** What a second fault does. The cleanup of an except clause is not protected: an
      error at any of its steps is raised, and a cancellation that came meanwhile is
      raised after it. That of a graph error still is inside the try block: an error
      begins the cleanup of the except clause, which is not protected, and a
      cancellation that came meanwhile the cancelling one. */
  lemma SecondFault(db: Db, x: Exec, first: Event, step: CleanupStep, applied: bool)
    requires x.claimed && !x.pc.Done? && !x.pc.Cleaning?
    requires first.Fault? || first.Cancel? || (first.GraphError? && x.pc.Graph?)
    ensures var inside := first.GraphError? || (first.Fault? && (x.pc.PersistContext? || x.pc.PersistRead? || x.pc.PersistFlush?));
            var y := Resume(db, x, first);
            && y.pc.Cleaning?
            && Resume(db, AtStep(y, step, false), Fault(applied)).pc
               == (if inside then Cleaning(FailWith("internal_error"), DoRollback, false, false) else Done(RaisedError))
            && Resume(db, AtStep(y, step, false), Cancel(applied)) == AtStep(y, step, true)
            && forall matched ::
                 Resume(db, AtStep(y, DoCommit(matched), true), Success).pc
                 == if inside then Cleaning(MarkCancelled, DoRollback, false, false) else Done(RaisedCancelled)
  {
  }

  /** An exception of an executor that has not claimed its scan stores nothing and
      fails nothing: it is raised, and the row is untouched unless the claim itself
      had been applied. */
  lemma UnclaimedErrorIsRaised(db: Db, sid: Sid, x: Exec, applied: bool, clock: int)
    requires DbOk(db) && ExecOk(db, sid, x) && Enabled(db, sid, x, Fault(applied)) && !x.claimed
    ensures var (after, y) := Step(db, sid, x, Fault(applied), clock);
            && y.pc == Done(RaisedError) && sid !in after.open
            && (!(applied && x.pc.OwnCommit?) ==> after.rows == db.rows && after.found == db.found)
  {
    assert !AfterClaim(x.pc);
  }

  /** A cancellation at any await of a claimed run, whether or not the interrupted
      statement reached the database: the run ends with the row terminal and the
      cancellation re-raised. The findings of this run survive exactly if the
      interrupted statement was the final commit and had been applied. */
  lemma CancellationSettlesScan(db: Db, sid: Sid, x: Exec, applied: bool, clock: int)
    requires DbOk(db) && ExecOk(db, sid, x) && Free(db, sid, x.scan)
    requires x.claimed && !x.pc.Cleaning? && Enabled(db, sid, x, Cancel(applied))
    ensures var run := Drive(db, sid, x, [Cancel(applied)] + CLEANUP, clock);
            var committed := applied && x.pc.CompleteCommit?;
            && run.Some?
            && run.value.1.pc == Done(RaisedCancelled)
            && run.value.0.found == (if committed then db.found + NewFindings(sid, x) else db.found)
            && run.value.0.rows.Keys == db.rows.Keys
            && (x.scan in db.rows ==>
                  var was := db.rows[x.scan].status;
                  run.value.0.rows[x.scan].status == if committed then Completed else if was == Running then Cancelled else was)
  {
    var (after, y) := Step(db, sid, x, Cancel(applied), clock);
    CancelledStep(db, sid, x, applied, clock);
    InterruptedEffect(db, sid, x, applied, clock);
    CancellingCleanup(after, sid, y, clock);
    DriveOne(db, sid, x, Cancel(applied), CLEANUP, clock);
  }

  lemma CancelledStep(db: Db, sid: Sid, x: Exec, applied: bool, clock: int)
    requires x.claimed && !x.pc.Cleaning? && Enabled(db, sid, x, Cancel(applied))
    ensures Step(db, sid, x, Cancel(applied), clock).1 == x.(pc := Cleaning(MarkCancelled, DoRollback, false, false))
  {
  }

  /** An undisturbed cancelling cleanup of a claimed scan. */
  lemma CancellingCleanup(db: Db, sid: Sid, x: Exec, clock: int)
    requires DbOk(db) && Taken(db, x) && Free(db, sid, x.scan) && x.pc == Cleaning(MarkCancelled, DoRollback, false, false)
    ensures var run := Drive(db, sid, x, CLEANUP, clock);
            && run.Some? && run.value.1.pc == Done(RaisedCancelled)
            && run.value.0.found == db.found && run.value.0.rows.Keys == db.rows.Keys
            && (x.scan in db.rows ==>
                  var was := db.rows[x.scan].status;
                  run.value.0.rows[x.scan].status == if was == Running then Cancelled else was)
  {
    assert {Running} <= AllowedFrom(Cancelled) && AllowedFrom(Cancelled) == {Pending, Running};
    CleanupPath(db, sid, x, clock);
  }

  lemma AppliedCommit(db: Db, sid: Sid, x: Exec)
    requires DbOk(db) && ExecOk(db, sid, x) && x.pc.CompleteCommit?
    ensures var after := Commit(db, sid);
            && x.scan in db.rows && after.rows.Keys == db.rows.Keys && after.rows[x.scan].status == Completed
            && after.found == db.found + NewFindings(sid, x)
  {
    StagedCompletion(db, sid, x);
    CommitOf(db, db, sid, x.scan, Open(db, sid).writes[x.scan].row, NewFindings(sid, x));
  }

  lemma StagedCompletion(db: Db, sid: Sid, x: Exec)
    requires ExecOk(db, sid, x) && x.pc.CompleteCommit?
    ensures var tx := Open(db, sid);
            && x.scan in db.rows && tx.writes.Keys == {x.scan} && tx.writes[x.scan].Put?
            && tx.writes[x.scan].row.status == Completed
            && tx == Tx(map[x.scan := tx.writes[x.scan]], NewFindings(sid, x))
  {
    assert Tidy(db, sid, x) && Prepared(db, sid, x);
  }

  /** What an interrupted statement of a claimed run leaves behind outside its own
      transaction: nothing, unless it was the final commit. */
  lemma InterruptedEffect(db: Db, sid: Sid, x: Exec, applied: bool, clock: int)
    requires DbOk(db) && ExecOk(db, sid, x) && Free(db, sid, x.scan)
    requires x.claimed && !x.pc.Cleaning? && Enabled(db, sid, x, Cancel(applied))
    ensures var after := Step(db, sid, x, Cancel(applied), clock).0;
            && DbOk(after) && Free(after, sid, x.scan) && Taken(after, x)
            && if applied && x.pc.CompleteCommit? then
                 && x.scan in db.rows && after.rows.Keys == db.rows.Keys && after.rows[x.scan].status == Completed
                 && after.found == db.found + NewFindings(sid, x)
               else after.rows == db.rows && after.found == db.found
  {
    StepKeepsDb(db, sid, x, Cancel(applied), clock);
    StepKeepsExec(db, sid, x, Cancel(applied), clock);
    CancelledStep(db, sid, x, applied, clock);
    CancelledLocks(db, sid, x, applied, clock);
    if applied && x.pc.CompleteCommit? {
      AppliedCommit(db, sid, x);
    }
  }

  lemma CancelledLocks(db: Db, sid: Sid, x: Exec, applied: bool, clock: int)
    requires Free(db, sid, x.scan) && x.claimed && !x.pc.Cleaning? && Enabled(db, sid, x, Cancel(applied))
    requires Owns(db, x)
    ensures var after := Step(db, sid, x, Cancel(applied), clock).0;
            && Free(after, sid, x.scan)
            && (applied && x.pc.CompleteCommit? ==> after == Commit(db, sid))
            && (!(applied && x.pc.CompleteCommit?) ==> after.rows == db.rows && after.found == db.found)
  {
    if applied {
      EffectLocks(db, sid, x, clock);
    }
  }

  lemma EffectLocks(db: Db, sid: Sid, x: Exec, clock: int)
    requires Free(db, sid, x.scan) && !x.pc.Cleaning? && !x.pc.OwnCommit? && CanTakeEffect(db, sid, x)
    ensures var after := Effect(db, sid, x, clock);
            && Free(after, sid, x.scan)
            && (x.pc.CompleteCommit? ==> after == Commit(db, sid))
            && (!x.pc.CompleteCommit? ==> after.rows == db.rows && after.found == db.found)
  {
  }

  // ---- A cleanup that is itself interrupted ----

  /** The events with a cancellation arriving after the first `k` of them. */
  function Inserted(events: seq<Event>, k: nat): seq<Event>
    requires k <= |events|
  {
    if k == 0 then [Cancel(false)] + events else [events[0]] + Inserted(events[1..], k - 1)
  }

  /** The awaits of a cleanup that is cancelled after the first `k` of them. */
  function Interrupted(k: nat): seq<Event>
    requires k <= 3
  {
    Inserted(CLEANUP, k)
  }

  /** Inside the shield a cancellation and a step that does not end the cleanup can
      change places. */
  lemma InterruptCommutes(db: Db, sid: Sid, x: Exec, rest: seq<Event>, clock: int)
    requires x.pc.Cleaning? && !x.pc.step.DoCommit? && Enabled(db, sid, x, Success)
    ensures Drive(db, sid, x, [Success] + ([Cancel(false)] + rest), clock)
         == Drive(db, sid, x, [Cancel(false)] + ([Success] + rest), clock)
  {
    var flagged := Interrupt(x);
    var (after, y) := Step(db, sid, x, Success, clock);
    DriveOne(db, sid, x, Success, [Cancel(false)] + rest, clock);
    DriveOne(after, sid, y, Cancel(false), rest, clock);
    DriveOne(db, sid, x, Cancel(false), [Success] + rest, clock);
    assert CanTakeEffect(db, sid, flagged);
    DriveOne(db, sid, flagged, Success, rest, clock);
  }

  /** One step further in, the cancellation still may come first. */
  lemma InterruptEarlier(db: Db, sid: Sid, x: Exec, rest: seq<Event>, k: nat, clock: int)
    requires k <= |rest| && x.pc.Cleaning? && !x.pc.step.DoCommit? && Enabled(db, sid, x, Success)
    requires var (after, y) := Step(db, sid, x, Success, clock);
             Drive(after, sid, y, Inserted(rest, k), clock) == Drive(after, sid, y, [Cancel(false)] + rest, clock)
    ensures Drive(db, sid, x, Inserted([Success] + rest, k + 1), clock)
         == Drive(db, sid, x, [Cancel(false)] + ([Success] + rest), clock)
  {
    assert ([Success] + rest)[1..] == rest;
    DriveOne(db, sid, x, Success, Inserted(rest, k), clock);
    DriveOne(db, sid, x, Success, [Cancel(false)] + rest, clock);
    InterruptCommutes(db, sid, x, rest, clock);
  }

  /** The awaits of a cleanup before its last. */
  function Left(step: CleanupStep): nat {
    match step
    case DoRollback => 3
    case DoContext => 2
    case DoUpdate => 1
    case DoCommit(_) => 0
  }

  lemma CleanupGoesOn(db: Db, sid: Sid, x: Exec, clock: int)
    requires Free(db, sid, x.scan) && x.pc.Cleaning? && Left(x.pc.step) > 0
    requires ValidRequest(Goal(x.pc.kind), Reason(x.pc.kind), None)
    ensures Enabled(db, sid, x, Success)
    ensures var (after, y) := Step(db, sid, x, Success, clock);
            && y.pc.Cleaning? && Left(y.pc.step) == Left(x.pc.step) - 1
            && y.scan == x.scan && y.pc.kind == x.pc.kind && Free(after, sid, x.scan)
  {
  }

  /** So it does not matter where it arrives. */
  lemma {:induction false} InterruptFirst(db: Db, sid: Sid, x: Exec, events: seq<Event>, k: nat, clock: int)
    requires Free(db, sid, x.scan) && x.pc.Cleaning? && k <= Left(x.pc.step) && k <= |events|
    requires ValidRequest(Goal(x.pc.kind), Reason(x.pc.kind), None) && forall e | e in events :: e == Success
    ensures Drive(db, sid, x, Inserted(events, k), clock) == Drive(db, sid, x, [Cancel(false)] + events, clock)
    decreases k
  {
    if k > 0 {
      CleanupGoesOn(db, sid, x, clock);
      var (after, y) := Step(db, sid, x, Success, clock);
      assert forall e | e in events[1..] :: e in events;
      InterruptFirst(after, sid, y, events[1..], k - 1, clock);
      InterruptEarlier(db, sid, x, events[1..], k - 1, clock);
      assert events[0] in events && events == [Success] + events[1..];
    }
  }

  /** A cancellation during a cleanup never leaves the scan running: outside the try
      block the cleanup finishes and the cancellation is raised after it; inside it,
      the cancelling cleanup follows and finds the row settled. */
  lemma InterruptedCleanupSettlesScan(db: Db, sid: Sid, x: Exec, k: nat, clock: int)
    requires k <= 3 && DbOk(db) && ExecOk(db, sid, x) && Free(db, sid, x.scan)
    requires x.pc.Cleaning? && x.pc.step.DoRollback? && !x.pc.interrupted
    requires ValidRequest(Goal(x.pc.kind), Reason(x.pc.kind), None)
    ensures var events := if x.pc.guarded && x.pc.kind.FailWith? then Interrupted(k) + CLEANUP else Interrupted(k);
            var run := Drive(db, sid, x, events, clock);
            && run.Some? && run.value.1.pc == Done(RaisedCancelled)
            && SettledAs(db, x, x.pc.kind, run.value.0, clock)
  {
    InterruptFirst(db, sid, x, CLEANUP, k, clock);
    DriveOne(db, sid, x, Cancel(false), CLEANUP, clock);
    FlaggedCleanup(db, sid, Interrupt(x), clock);
    if x.pc.guarded && x.pc.kind.FailWith? {
      var (after, y) := Drive(db, sid, Interrupt(x), CLEANUP, clock).value;
      DriveConcat(db, sid, x, Interrupted(k), CLEANUP, clock);
      StepsKeepDb(db, sid, Interrupt(x), CLEANUP, clock);
      SecondCleanup(db, sid, x, after, y, clock);
    }
  }

  /** The cancelling cleanup that follows a failing one finds nothing to cancel. */
  lemma SecondCleanup(db: Db, sid: Sid, x: Exec, after: Db, y: Exec, clock: int)
    requires DbOk(after) && Free(after, sid, x.scan) && y.pc == Cleaning(MarkCancelled, DoRollback, false, false)
    requires y.scan == x.scan && y.tenant == x.tenant && x.pc.Cleaning? && x.pc.kind.FailWith?
    requires ValidRequest(Failed, Reason(x.pc.kind), None) && SettledAs(db, x, x.pc.kind, after, clock)
    ensures var run := Drive(after, sid, y, CLEANUP, clock);
            && run.Some? && run.value.1.pc == Done(RaisedCancelled)
            && SettledAs(db, x, x.pc.kind, run.value.0, clock)
  {
    assert AllowedFrom(Cancelled) <= AllowedFrom(Failed) && Failed !in AllowedFrom(Cancelled);
    assert !CanMove(after, y, Cancelled);
    CleanupPath(after, sid, y, clock);
  }

  lemma {:induction false} DriveConcat(db: Db, sid: Sid, x: Exec, events: seq<Event>, more: seq<Event>, clock: int)
    requires Drive(db, sid, x, events, clock).Some?
    ensures var (after, y) := Drive(db, sid, x, events, clock).value;
            Drive(db, sid, x, events + more, clock) == Drive(after, sid, y, more, clock)
    decreases |events|
  {
    if events == [] {
      assert events + more == more;
    } else {
      assert (events + more)[1..] == events[1..] + more;
      var (after, y) := Step(db, sid, x, events[0], clock);
      DriveConcat(after, sid, y, events[1..], more, clock);
    }
  }

  lemma {:induction false} StepsKeepDb(db: Db, sid: Sid, x: Exec, events: seq<Event>, clock: int)
    requires DbOk(db) && ExecOk(db, sid, x) && Drive(db, sid, x, events, clock).Some?
    ensures var (after, y) := Drive(db, sid, x, events, clock).value; DbOk(after) && ExecOk(after, sid, y)
    decreases |events|
  {
    if events != [] {
      StepKeepsDb(db, sid, x, events[0], clock);
      StepKeepsExec(db, sid, x, events[0], clock);
      var (after, y) := Step(db, sid, x, events[0], clock);
      StepsKeepDb(after, sid, y, events[1..], clock);
    }
  }

  /** The cleanup of `CleanupPath`, with a cancellation remembered. */
  lemma FlaggedCleanup(db: Db, sid: Sid, x: Exec, clock: int)
    requires DbOk(db) && Free(db, sid, x.scan) && x.claimed
    requires x.pc.Cleaning? && x.pc.step.DoRollback? && x.pc.interrupted
    requires ValidRequest(Goal(x.pc.kind), Reason(x.pc.kind), None)
    ensures var run := Drive(db, sid, x, CLEANUP, clock);
            && run.Some?
            && (if x.pc.guarded && x.pc.kind.FailWith? then
                  && run.value.1.pc == Cleaning(MarkCancelled, DoRollback, false, false)
                  && run.value.1.scan == x.scan && run.value.1.tenant == x.tenant && run.value.1.claimed
                else run.value.1.pc == Done(RaisedCancelled))
            && Free(run.value.0, sid, x.scan) && SettledAs(db, x, x.pc.kind, run.value.0, clock)
  {
    var d1 := Rollback(db, sid);
    var x1 := x.(context := NoContext, pc := x.pc.(step := DoContext));
    var x2 := x1.(context := TenantContext(x.tenant), pc := x.pc.(step := DoUpdate));
    DriveOne(db, sid, x, Success, [Success, Success, Success], clock);
    assert [Success] + [Success, Success, Success] == CLEANUP;
    DriveOne(d1, sid, x1, Success, [Success, Success], clock);
    assert [Success] + [Success, Success] == [Success, Success, Success];
    assert Free(d1, sid, x.scan);
    FlaggedMark(d1, sid, x2, clock);
  }

  lemma FlaggedMark(db: Db, sid: Sid, x: Exec, clock: int)
    requires FindingsAnchored(db) && Free(db, sid, x.scan) && sid !in db.open && x.claimed
    requires x.pc.Cleaning? && x.pc.step.DoUpdate? && x.pc.interrupted
    requires ValidRequest(Goal(x.pc.kind), Reason(x.pc.kind), None)
    ensures var run := Drive(db, sid, x, [Success, Success], clock);
            && run.Some?
            && (if x.pc.guarded && x.pc.kind.FailWith? then
                  && run.value.1.pc == Cleaning(MarkCancelled, DoRollback, false, false)
                  && run.value.1.scan == x.scan && run.value.1.tenant == x.tenant && run.value.1.claimed
                else run.value.1.pc == Done(RaisedCancelled))
            && Free(run.value.0, sid, x.scan) && SettledAs(db, x, x.pc.kind, run.value.0, clock)
  {
    var kind := x.pc.kind;
    var matched := CanMove(db, x, Goal(kind));
    var d1 := StageMove(db, sid, x, Goal(kind), Reason(kind), None, clock);
    var x1 := x.(pc := x.pc.(step := DoCommit(matched)));
    DriveOne(db, sid, x, Success, [Success], clock);
    assert [Success] + [Success] == [Success, Success];
    DriveOne(d1, sid, x1, Success, [], clock);
    assert [Success] + [] == [Success];
    if matched {
      CommitOf(db, d1, sid, x.scan, Moved(db.rows[x.scan], Goal(kind), Reason(kind), None, clock), {});
    } else {
      CommitNothing(db, d1, sid);
    }
  }

  // ---- What can be left running ----

  /** The step ends the executor while the row it has claimed is still running. */
  predicate Abandons(db: Db, sid: Sid, x: Exec, event: Event, clock: int)
    requires Enabled(db, sid, x, event)
  {
    var (after, y) := Step(db, sid, x, event, clock);
    && y.pc.Done? && x.scan in after.rows && after.rows[x.scan].status == Running
    && (x.claimed || (x.pc == OwnCommit(true) && Applies(event)))
  }

  /** A claim is abandoned by exactly two kinds of steps: the commit of the
      executor's own claim was applied but not confirmed, or a cleanup outside the
      try block raised before its commit was applied. */
  lemma AbandonedIff(db: Db, sid: Sid, x: Exec, event: Event, clock: int)
    requires DbOk(db) && ExecOk(db, sid, x) && Enabled(db, sid, x, event)
    ensures Abandons(db, sid, x, event, clock) <==>
            || (x.pc == OwnCommit(true) && (event == Cancel(true) || event == Fault(true)))
            || (&& x.pc.Cleaning? && !x.pc.guarded && event.Fault?
                && !(x.pc.step.DoCommit? && event.applied)
                && x.scan in db.rows && db.rows[x.scan].status == Running)
  {
    if x.pc.OwnCommit? {
      AbandonedOwnCommit(db, sid, x, event, clock);
    } else if x.pc.Cleaning? {
      AbandonedCleanup(db, sid, x, event, clock);
    } else {
      AbandonedNowhereElse(db, sid, x, event, clock);
    }
  }

  lemma AbandonedOwnCommit(db: Db, sid: Sid, x: Exec, event: Event, clock: int)
    requires DbOk(db) && ExecOk(db, sid, x) && Enabled(db, sid, x, event) && x.pc.OwnCommit?
    ensures Abandons(db, sid, x, event, clock) <==> x.pc.matched && (event == Cancel(true) || event == Fault(true))
  {
    CommitOwnRow(db, sid, x.scan);
  }

  lemma AbandonedCleanup(db: Db, sid: Sid, x: Exec, event: Event, clock: int)
    requires DbOk(db) && ExecOk(db, sid, x) && Enabled(db, sid, x, event) && x.pc.Cleaning?
    ensures Abandons(db, sid, x, event, clock) <==>
            && !x.pc.guarded && event.Fault? && !(x.pc.step.DoCommit? && event.applied)
            && x.scan in db.rows && db.rows[x.scan].status == Running
  {
    if event.Fault? {
      CleanupFault(db, sid, x, event.applied, clock);
    } else {
      CleanupEnds(db, sid, x, event, clock);
    }
  }

  lemma CleanupEnds(db: Db, sid: Sid, x: Exec, event: Event, clock: int)
    requires DbOk(db) && ExecOk(db, sid, x) && Enabled(db, sid, x, event) && x.pc.Cleaning? && !event.Fault?
    ensures !Abandons(db, sid, x, event, clock)
  {
    if event.Success? && x.pc.step.DoCommit? {
      CleanupCommitSettles(db, sid, x);
      CleanupCommitEnds(db, sid, x, clock);
    }
  }

  lemma CleanupCommitEnds(db: Db, sid: Sid, x: Exec, clock: int)
    requires x.pc.Cleaning? && x.pc.step.DoCommit? && Enabled(db, sid, x, Success)
    ensures Step(db, sid, x, Success, clock).0.rows == Commit(db, sid).rows
  {
  }

  lemma CleanupFault(db: Db, sid: Sid, x: Exec, applied: bool, clock: int)
    requires ExecOk(db, sid, x) && Enabled(db, sid, x, Fault(applied)) && x.pc.Cleaning?
    ensures Abandons(db, sid, x, Fault(applied), clock) <==>
            && !x.pc.guarded && !(x.pc.step.DoCommit? && applied)
            && x.scan in db.rows && db.rows[x.scan].status == Running
  {
    var y := Step(db, sid, x, Fault(applied), clock).1;
    assert x.claimed && (y.pc.Done? <==> !x.pc.guarded);
    if applied && x.pc.step.DoCommit? {
      CleanupCommitSettles(db, sid, x);
      assert Step(db, sid, x, Fault(applied), clock).0.rows == Commit(db, sid).rows;
    } else {
      FaultKeepsRows(db, sid, x, Fault(applied), clock);
    }
  }

  lemma CleanupCommitSettles(db: Db, sid: Sid, x: Exec)
    requires ExecOk(db, sid, x) && x.pc.Cleaning? && x.pc.step.DoCommit?
    ensures x.scan in Commit(db, sid).rows ==> Commit(db, sid).rows[x.scan].status != Running
  {
    CommitOwnRow(db, sid, x.scan);
  }

  lemma FaultKeepsRows(db: Db, sid: Sid, x: Exec, event: Event, clock: int)
    requires Enabled(db, sid, x, event) && x.pc.Cleaning? && event.Fault? && !(event.applied && x.pc.step.DoCommit?)
    ensures Step(db, sid, x, event, clock).0.rows == db.rows
  {
  }

  lemma AbandonedNowhereElse(db: Db, sid: Sid, x: Exec, event: Event, clock: int)
    requires DbOk(db) && ExecOk(db, sid, x) && Enabled(db, sid, x, event) && !x.pc.OwnCommit? && !x.pc.Cleaning?
    ensures !Abandons(db, sid, x, event, clock)
  {
    StepKeepsExec(db, sid, x, event, clock);
  }

  /** "completed" is returned only by the step that committed the status and every
      finding of this run together. */
  lemma CompletedMeansCommitted(db: Db, sid: Sid, x: Exec, event: Event, clock: int)
    requires DbOk(db) && ExecOk(db, sid, x) && Enabled(db, sid, x, event)
    requires Step(db, sid, x, event, clock).1.pc == Done(ReturnedCompleted)
    ensures var after := Step(db, sid, x, event, clock).0;
            && x.scan in after.rows && after.rows[x.scan].status == Completed
            && x.scan in db.rows && db.rows[x.scan].status == Running
            && after.found == db.found + NewFindings(sid, x)
  {
    OnlyCompletion(db, x, event);
    AppliedCommit(db, sid, x);
    assert Prepared(db, sid, x);
  }

  lemma OnlyCompletion(db: Db, x: Exec, event: Event)
    requires !x.pc.Done? && (event.Success? ==> !x.pc.Graph?)
    requires Resume(db, x, event).pc == Done(ReturnedCompleted)
    ensures x.pc.CompleteCommit? && event.Success?
  {
  }
}
