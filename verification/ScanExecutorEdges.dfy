/** The short paths through execute_scan: nothing to load, nothing to claim, a run
    that lost its row, and the claim of an executor that was given none
    (app/modules/scans/executor.py). */
module ScanExecutorEdges {
  import opened Wrappers
  import opened ScanTable
  import opened ScanLocks
  import opened ScanExecutor
  import opened ScanExecutorPaths

  lemma One(db: Db, sid: Sid, x: Exec, clock: int)
    requires Enabled(db, sid, x, Success)
    ensures Drive(db, sid, x, [Success], clock) == Some(Step(db, sid, x, Success, clock))
  {
    var events: seq<Event> := [Success];
    var none: seq<Event> := [];
    assert events[1..] == none;
    var (after, y) := Step(db, sid, x, Success, clock);
    assert Drive(after, sid, y, none, clock) == Some((after, y));
  }

  /** The tenant context ends with each transaction: a commit and a rollback leave none,
      only setting it brings it back, and no other statement touches it. */
  lemma ContextFollowsTransactions(db: Db, sid: Sid, x: Exec, clock: int)
    requires Enabled(db, sid, x, Success)
    ensures var ends := x.pc.OwnCommit? || x.pc.CompleteCommit? || x.pc.LostRollback?
                        || (x.pc.Cleaning? && (x.pc.step.DoRollback? || x.pc.step.DoCommit?));
            var sets := x.pc.FirstContext? || x.pc.OwnContext? || x.pc.RunContext? || x.pc.PersistContext?
                        || (x.pc.Cleaning? && x.pc.step.DoContext?);
            Step(db, sid, x, Success, clock).1.context
            == if ends then NoContext else if sets then TenantContext(x.tenant) else x.context
  {
  }

  /** A scan that is not there, or not the tenant's: an executor that was given the claim
      comes back with "cancelled", any other with "skipped", and no row changes. */
  lemma VanishedScan(db: Db, sid: Sid, x: Exec, clock: int)
    requires DbOk(db) && Free(db, sid, x.scan) && x.pc.Load? && sid !in db.open
    requires x.scan !in db.rows || db.rows[x.scan].tenant != x.tenant
    ensures x.claimed ==>
              Step(db, sid, x, Success, clock).1.pc == Cleaning(FailWith("asset_missing"), DoRollback, true, false)
    ensures var run := Drive(db, sid, x, [Success] + if x.claimed then CLEANUP else [], clock);
            && run.Some? && run.value.0.rows == db.rows && run.value.0.found == db.found
            && run.value.1.pc == Done(if x.claimed then ReturnedCancelled else ReturnedSkipped)
  {
    if x.claimed {
      assert Running in AllowedFrom(Failed);
      DriveOne(db, sid, x, Success, CLEANUP, clock);
      CleanupPath(db, sid, BeginCleanup(x, FailWith("asset_missing"), true), clock);
    } else {
      assert [Success] + [] == [Success];
      One(db, sid, x, clock);
    }
  }

  /** A run whose row has ended meanwhile stores neither its report nor its findings. */
  lemma LostRun(db: Db, sid: Sid, x: Exec, clock: int)
    requires DbOk(db) && Free(db, sid, x.scan) && x.pc.CompleteUpdate?
    requires x.scan !in db.rows || db.rows[x.scan].status != Running
    ensures var run := Drive(db, sid, x, [Success] + [Success], clock);
            && run.Some? && run.value.1.pc == Done(ReturnedCancelled)
            && run.value.0.rows == db.rows && run.value.0.found == db.found && sid !in run.value.0.open
  {
    assert AllowedFrom(Completed) == {Running};
    DriveOne(db, sid, x, Success, [Success], clock);
    One(db, sid, x.(pc := LostRollback), clock);
  }

  /** An executor without a claim makes its own: the row moves to running, from now on,
      exactly if it was pending and dispatched; otherwise it is skipped. */
  lemma OwnClaim(db: Db, sid: Sid, x: Exec, clock: int)
    requires DbOk(db) && Free(db, sid, x.scan) && sid !in db.open && x.pc.OwnContext? && Visible(db, x)
    ensures var run := Drive(db, sid, x, [Success] + ([Success] + [Success]), clock);
            var row := db.rows[x.scan];
            && run.Some? && run.value.0.found == db.found
            && if row.status == Pending && row.dispatchedAt.Some? then
                 && run.value.1.pc == RunContext && run.value.1.claimed
                 && run.value.0.rows == db.rows[x.scan := row.(status := Running, startedAt := Some(clock))]
               else run.value.1.pc == Done(ReturnedSkipped) && run.value.0.rows == db.rows
  {
    assert AllowedFrom(Running) == {Pending};
    var x1 := x.(context := TenantContext(x.tenant), pc := OwnUpdate);
    DriveOne(db, sid, x, Success, [Success] + [Success], clock);
    OwnClaimFromUpdate(db, sid, x1, clock);
  }

  lemma OwnClaimFromUpdate(db: Db, sid: Sid, x: Exec, clock: int)
    requires DbOk(db) && Free(db, sid, x.scan) && sid !in db.open && x.pc.OwnUpdate? && Visible(db, x)
    ensures var run := Drive(db, sid, x, [Success] + [Success], clock);
            var row := db.rows[x.scan];
            && run.Some? && run.value.0.found == db.found
            && if row.status == Pending && row.dispatchedAt.Some? then
                 && run.value.1.pc == RunContext && run.value.1.claimed
                 && run.value.0.rows == db.rows[x.scan := row.(status := Running, startedAt := Some(clock))]
               else run.value.1.pc == Done(ReturnedSkipped) && run.value.0.rows == db.rows
  {
    assert AllowedFrom(Running) == {Pending};
    var row, matched := db.rows[x.scan], CanMove(db, x, Running);
    var d1 := StageMove(db, sid, x, Running, None, None, clock);
    var x1 := x.(pc := OwnCommit(matched));
    DriveOne(db, sid, x, Success, [Success], clock);
    One(d1, sid, x1, clock);
    if matched {
      CommitOf(db, d1, sid, x.scan, row.(status := Running, startedAt := Some(clock)), {});
    } else {
      CommitNothing(db, d1, sid);
    }
  }
}
