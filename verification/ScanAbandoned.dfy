/** Runs of the protocol that leave a scan running with nobody to finish it: an
    executor that claims its scan itself is cancelled while that commit is in
    flight, or the cleanup of a cancelled executor raises. The worker always passes
    a claimed scan (app/worker/tasks.py), and the reaper fails the row later. */
module ScanAbandoned {
  import opened Wrappers
  import opened ScanTable
  import opened ScanLocks
  import opened ScanExecutor
  import opened ScanExecutorPaths
  import opened ScanSystem
  import opened ScanRuns

  lemma {:induction false} RunConcat(s: State, actions: seq<Action>, more: seq<Action>)
    requires Run(s, actions).Some?
    ensures Run(s, actions + more) == Run(Run(s, actions).value, more)
    decreases |actions|
  {
    if actions == [] {
      assert actions + more == more;
    } else {
      assert (actions + more)[1..] == actions[1..] + more;
      RunConcat(Apply(s, actions[0]), actions[1..], more);
    }
  }

  function Executes(sid: Sid, events: seq<Event>, clock: int): seq<Action> {
    if events == [] then [] else [Execute(sid, events[0], clock)] + Executes(sid, events[1..], clock)
  }

  /** A path of one executor is a run of the system. */
  lemma {:induction false} DriveIsRun(s: State, sid: Sid, events: seq<Event>, clock: int)
    requires sid in s.execs && Drive(s.db, sid, s.execs[sid], events, clock).Some?
    ensures var (db, x) := Drive(s.db, sid, s.execs[sid], events, clock).value;
            Run(s, Executes(sid, events, clock)) == Some(s.(db := db, execs := s.execs[sid := x]))
    decreases |events|
  {
    if events == [] {
      assert s.execs[sid := s.execs[sid]] == s.execs;
    } else {
      var a := Execute(sid, events[0], clock);
      var next := Apply(s, a);
      DriveIsRun(next, sid, events[1..], clock);
      RunOne(s, a, Executes(sid, events[1..], clock));
      var x := Drive(s.db, sid, s.execs[sid], events, clock).value.1;
      assert next.execs[sid := x] == s.execs[sid := x];
    }
  }

  const QUIET: multiset<ScanId> := multiset{}

  function Alone(id: ScanId, row: Scan): Db {
    Db(map[id := row], {}, map[], QUIET, {id})
  }

  function Created(tenant: Tenant): Scan {
    Scan(tenant, "scan", Pending, None, None, None, None, None)
  }

  function Resting(limits: map<Tenant, nat>, now: int, db: Db): State {
    State(now, limits, db, map[], map[])
  }

  lemma CreateRun(limits: map<Tenant, nat>, now: int, id: ScanId, tenant: Tenant)
    requires tenant in limits
    ensures var s := Resting(limits, now, Db(map[], {}, map[], QUIET, {}));
            Run(s, [CreateScan(1, id, tenant, "scan"), CommitJob(1)]) == Some(Resting(limits, now, Alone(id, Created(tenant))))
  {
    var s := Resting(limits, now, Db(map[], {}, map[], QUIET, {}));
    var a, b := CreateScan(1, id, tenant, "scan"), CommitJob(1);
    var s1 := Apply(s, a);
    RunTwo(s, a, b);
    CommitPut(s.db, 1, id, Created(tenant));
    assert s1.jobs - {1} == map[];
  }

  /** Committing the only open transaction, which puts one row. */
  lemma CommitPut(db: Db, sid: Sid, id: ScanId, row: Scan)
    requires db.open == map[] && db.found == {} && db.rows.Keys <= {id} && db.born <= {id}
    requires id in db.rows ==> !(db.rows[id].status == Pending && row.status == Running)
    ensures Commit(Stage(db, sid, id, Put(row)), sid) == Db(map[id := row], {}, map[], db.claims, {id})
  {
    var staged := Stage(db, sid, id, Put(row));
    assert Open(staged, sid).writes == map[id := Put(row)];
    assert Claimed(db.rows, Open(staged, sid).writes) == {};
    assert Overlay(db.rows, Open(staged, sid).writes) == map[id := row];
    assert staged.open - {sid} == map[];
  }

  lemma DispatchRun(limits: map<Tenant, nat>, now: int, id: ScanId, tenant: Tenant)
    requires tenant in limits && limits[tenant] >= 1
    ensures var s := Resting(limits, now, Alone(id, Created(tenant)));
            Run(s, DispatchRequest(2, id) + [CommitJob(2)])
            == Some(Resting(limits, now, Alone(id, Created(tenant).(dispatchedAt := Some(now)))))
  {
    var s := Resting(limits, now, Alone(id, Created(tenant)));
    var staged := DispatchStaged(s, 2, id);
    var checked := staged.(jobs := staged.jobs[2 := staged.jobs[2].(phase := QuotaChecked)]);
    DispatchReachesCount(s, 2, id);
    CountPasses(s, id, tenant);
    RunOne(staged, DispatchCount(2), []);
    assert [DispatchCount(2)] + [] == [DispatchCount(2)];
    RunConcat(s, DispatchRequest(2, id), [CommitJob(2)]);
    CommitPut(s.db, 2, id, Created(tenant).(dispatchedAt := Some(now)));
    RunOne(checked, CommitJob(2), []);
    assert [CommitJob(2)] + [] == [CommitJob(2)];
    assert checked.jobs - {2} == map[];
  }

  lemma CountPasses(s: State, id: ScanId, tenant: Tenant)
    requires tenant in s.limits && s.limits[tenant] >= 1 && s == Resting(s.limits, s.now, Alone(id, Created(tenant)))
    ensures var staged := DispatchStaged(s, 2, id);
            && ScanSystem.Enabled(staged, DispatchCount(2))
            && Apply(staged, DispatchCount(2)) == staged.(jobs := staged.jobs[2 := staged.jobs[2].(phase := QuotaChecked)])
  {
    assert Since(s.db.rows, tenant, DayStart(s.now)) == {};
    OwnDispatchCounts(s.db.rows, id, s.now);
  }

  const OWN_CLAIM: seq<Event> := [Success, Success, Success, Success, Cancel(true)]

  /** Up to the statement that claims the row. */
  lemma OwnClaimStarts(db: Db, sid: Sid, x: Exec, events: seq<Event>, clock: int)
    requires x == Start(x.scan, x.tenant, false) && Visible(db, x)
    ensures Drive(db, sid, x, [Success] + ([Success] + ([Success] + events)), clock)
         == Drive(db, sid, x.(context := TenantContext(x.tenant), pc := OwnUpdate), events, clock)
  {
    var x1 := x.(context := TenantContext(x.tenant), pc := Load);
    var x2 := x1.(pc := OwnContext);
    DriveOne(db, sid, x, Success, [Success] + ([Success] + events), clock);
    DriveOne(db, sid, x1, Success, [Success] + events, clock);
    DriveOne(db, sid, x2, Success, events, clock);
  }

  /** The claim itself, cancelled in its commit. */
  lemma OwnClaimEnds(id: ScanId, row: Scan, sid: Sid, x: Exec, clock: int)
    requires row.status == Pending && row.dispatchedAt.Some? && x.scan == id && x.tenant == row.tenant
    requires x.pc.OwnUpdate? && !x.claimed
    ensures var run := Drive(Alone(id, row), sid, x, [Success] + ([Cancel(true)] + []), clock);
            && run.Some? && run.value.1.pc == Done(RaisedCancelled) && !run.value.1.claimed
            && run.value.0.rows == map[id := Moved(row, Running, None, None, clock)]
  {
    var db, moved := Alone(id, row), Moved(row, Running, None, None, clock);
    var staged := Stage(db, sid, id, Put(moved));
    assert Pending in AllowedFrom(Running) && CanMove(db, x, Running);
    DriveOne(db, sid, x, Success, [Cancel(true)] + [], clock);
    DriveOne(staged, sid, x.(pc := OwnCommit(true)), Cancel(true), [], clock);
    assert Overlay(db.rows, map[id := Put(moved)]) == map[id := moved];
  }

  /** The executor's own claim, cancelled in its commit. */
  lemma OwnClaimPath(id: ScanId, row: Scan, sid: Sid, clock: int)
    requires row.status == Pending && row.dispatchedAt.Some?
    ensures var run := Drive(Alone(id, row), sid, Start(id, row.tenant, false), OWN_CLAIM, clock);
            && run.Some?
            && run.value.1.pc == Done(RaisedCancelled) && !run.value.1.claimed
            && run.value.0.rows == map[id := Moved(row, Running, None, None, clock)]
  {
    var x := Start(id, row.tenant, false);
    var rest := [Success] + ([Cancel(true)] + []);
    assert OWN_CLAIM == [Success] + ([Success] + ([Success] + rest));
    OwnClaimStarts(Alone(id, row), sid, x, rest, clock);
    OwnClaimEnds(id, row, sid, x.(context := TenantContext(x.tenant), pc := OwnUpdate), clock);
  }

  function AbandoningRun(id: ScanId, tenant: Tenant, clock: int): seq<Action> {
    [CreateScan(1, id, tenant, "scan"), CommitJob(1)]
    + ((DispatchRequest(2, id) + [CommitJob(2)])
       + ([StartUnclaimed(3, id, tenant)] + Executes(3, OWN_CLAIM, clock)))
  }

  /** From a fresh deployment: the scan is running and its executor is gone without
      knowing that it had claimed it. */
  lemma OwnClaimCanBeAbandoned(limits: map<Tenant, nat>, now: int, id: ScanId, tenant: Tenant, clock: int)
    requires tenant in limits && limits[tenant] >= 1
    ensures var s := Resting(limits, now, Db(map[], {}, map[], QUIET, {}));
            var run := Run(s, AbandoningRun(id, tenant, clock));
            && Initial(s) && run.Some?
            && id in run.value.db.rows && run.value.db.rows[id].status == Running
            && 3 in run.value.execs && run.value.execs[3].pc == Done(RaisedCancelled) && !run.value.execs[3].claimed
  {
    var s := Resting(limits, now, Db(map[], {}, map[], QUIET, {}));
    var row := Created(tenant).(dispatchedAt := Some(now));
    var made, queued := Resting(limits, now, Alone(id, Created(tenant))), Resting(limits, now, Alone(id, row));
    CreateRun(limits, now, id, tenant);
    DispatchRun(limits, now, id, tenant);
    OwnClaimPath(id, row, 3, clock);
    var started := Apply(queued, StartUnclaimed(3, id, tenant));
    var own := [StartUnclaimed(3, id, tenant)] + Executes(3, OWN_CLAIM, clock);
    DriveIsRun(started, 3, OWN_CLAIM, clock);
    RunOne(queued, StartUnclaimed(3, id, tenant), Executes(3, OWN_CLAIM, clock));
    RunConcat(made, DispatchRequest(2, id) + [CommitJob(2)], own);
    RunConcat(s, [CreateScan(1, id, tenant, "scan"), CommitJob(1)], (DispatchRequest(2, id) + [CommitJob(2)]) + own);
  }

  // ---- A cleanup that raises ----

  const FAILED_CLEANUP: seq<Event> := [Cancel(false), Fault(false)]

  /** A claimed executor is cancelled and the first statement of its cleanup raises. */
  lemma FailedCleanupPath(db: Db, sid: Sid, id: ScanId, tenant: Tenant, clock: int)
    ensures var run := Drive(db, sid, Start(id, tenant, true), FAILED_CLEANUP, clock);
            && run.Some? && run.value.1.pc == Done(RaisedError) && run.value.1.claimed && run.value.0.rows == db.rows
  {
    var x0 := Start(id, tenant, true);
    var x1 := BeginCleanup(x0, MarkCancelled, false);
    DriveOne(db, sid, x0, Cancel(false), [Fault(false)], clock);
    DriveOne(db, sid, x1, Fault(false), [], clock);
    assert FAILED_CLEANUP == [Cancel(false)] + [Fault(false)] && [Fault(false)] + [] == [Fault(false)];
  }

  /** A worker claims the only scan, hands it on, and its executor's cleanup raises. */
  function FailingRun(id: ScanId, clock: int): seq<Action> {
    [ClaimScan(3, Some(id)), CommitJob(3)] + ([StartClaimed(3, 4)] + Executes(4, FAILED_CLEANUP, clock))
  }

  lemma FailingTail(s: State, id: ScanId, row: Scan, clock: int)
    requires row.status == Pending && row.dispatchedAt.Some? && s == Resting(s.limits, s.now, Alone(id, row))
    ensures var run := Run(s, FailingRun(id, clock));
            && run.Some? && id in run.value.db.rows && run.value.db.rows[id].status == Running
            && 4 in run.value.execs && run.value.execs[4].pc == Done(RaisedError) && run.value.execs[4].claimed
  {
    assert LockedFor(s.db, 3) == {} && ReadySet(s.db.rows) == {id};
    assert Oldest(s.db.rows, {}, id);
    ClaimCommits(s, 3, id);
    var claimed := Run(s, [ClaimScan(3, Some(id)), CommitJob(3)]).value;
    RunTwo(s, ClaimScan(3, Some(id)), CommitJob(3));
    FailingEnd(claimed, id, row.tenant, clock);
    RunConcat(s, [ClaimScan(3, Some(id)), CommitJob(3)], [StartClaimed(3, 4)] + Executes(4, FAILED_CLEANUP, clock));
  }

  lemma FailingEnd(s: State, id: ScanId, tenant: Tenant, clock: int)
    requires 3 in s.jobs && s.jobs[3] == Ringing(id, tenant) && Unused(s, 4)
    requires id in s.db.rows && s.db.rows[id].status == Running
    ensures var run := Run(s, [StartClaimed(3, 4)] + Executes(4, FAILED_CLEANUP, clock));
            && run.Some? && id in run.value.db.rows && run.value.db.rows[id].status == Running
            && 4 in run.value.execs && run.value.execs[4].pc == Done(RaisedError) && run.value.execs[4].claimed
  {
    var started := Apply(s, StartClaimed(3, 4));
    FailedCleanupPath(started.db, 4, id, tenant, clock);
    DriveIsRun(started, 4, FAILED_CLEANUP, clock);
    RunOne(s, StartClaimed(3, 4), Executes(4, FAILED_CLEANUP, clock));
  }

  /** From a fresh deployment: the scan is running, and its executor has raised. */
  lemma CleanupCanFail(limits: map<Tenant, nat>, now: int, id: ScanId, tenant: Tenant, clock: int)
    requires tenant in limits && limits[tenant] >= 1
    ensures var s := Resting(limits, now, Db(map[], {}, map[], QUIET, {}));
            var actions := [CreateScan(1, id, tenant, "scan"), CommitJob(1)]
                           + ((DispatchRequest(2, id) + [CommitJob(2)]) + FailingRun(id, clock));
            var run := Run(s, actions);
            && Initial(s) && run.Some? && id in run.value.db.rows && run.value.db.rows[id].status == Running
            && 4 in run.value.execs && run.value.execs[4].pc == Done(RaisedError) && run.value.execs[4].claimed
  {
    var s := Resting(limits, now, Db(map[], {}, map[], QUIET, {}));
    var row := Created(tenant).(dispatchedAt := Some(now));
    var made, queued := Resting(limits, now, Alone(id, Created(tenant))), Resting(limits, now, Alone(id, row));
    CreateRun(limits, now, id, tenant);
    DispatchRun(limits, now, id, tenant);
    FailingTail(queued, id, row, clock);
    RunConcat(made, DispatchRequest(2, id) + [CommitJob(2)], FailingRun(id, clock));
    RunConcat(s, [CreateScan(1, id, tenant, "scan"), CommitJob(1)], (DispatchRequest(2, id) + [CommitJob(2)]) + FailingRun(id, clock));
  }
}
