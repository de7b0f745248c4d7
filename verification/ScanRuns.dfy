/** What holds over every run of the scan protocol. */
module ScanRuns {
  import opened Wrappers
  import opened ScanTable
  import opened ScanLocks
  import opened ScanExecutor
  import opened ScanSystem

  /** A run from `s`; None if some action is not enabled where it happens. */
  function Run(s: State, actions: seq<Action>): Option<State>
    decreases |actions|
  {
    if actions == [] then Some(s)
    else if ScanSystem.Enabled(s, actions[0]) then Run(Apply(s, actions[0]), actions[1..])
    else None
  }

  /** A fresh deployment: any quotas, no rows, no sessions. */
  ghost predicate Initial(s: State) {
    s.db == Db(map[], {}, map[], multiset{}, {}) && s.jobs == map[] && s.execs == map[]
  }

  lemma {:induction false} RunKeeps(s: State, actions: seq<Action>)
    requires Inv(s) && Run(s, actions).Some?
    ensures Inv(Run(s, actions).value)
    decreases |actions|
  {
    if actions != [] {
      ActionKeeps(s, actions[0]);
      RunKeeps(Apply(s, actions[0]), actions[1..]);
    }
  }

  lemma Reachable(s: State, actions: seq<Action>)
    requires Initial(s) && Run(s, actions).Some?
    ensures Inv(Run(s, actions).value)
  {
    assert forall tenant, day :: Occupying(s.db.rows, tenant, day) == {};
    RunKeeps(s, actions);
  }

  /** Findings an executor wrote are committed only beside a completed scan, in
      every interleaving of executors, cancellations, reaping, deletes and crashes. */
  lemma FindingsOnlyForCompletedScans(s: State, actions: seq<Action>)
    requires Initial(s) && Run(s, actions).Some?
    ensures var db := Run(s, actions).value.db;
            forall f | f in db.found && f.author.Some? ::
              f.scan in db.rows && db.rows[f.scan].status == Completed
  {
    Reachable(s, actions);
  }

  /** The daily quota holds for every tenant and every UTC day, at every moment. */
  lemma QuotaNeverExceeded(s: State, actions: seq<Action>, tenant: Tenant, day: int)
    requires Initial(s) && Run(s, actions).Some? && tenant in s.limits
    ensures |Occupying(Run(s, actions).value.db.rows, tenant, day)| <= s.limits[tenant]
  {
    Reachable(s, actions);
    LimitsAreFixed(s, actions);
  }

  lemma {:induction false} LimitsAreFixed(s: State, actions: seq<Action>)
    requires Run(s, actions).Some?
    ensures Run(s, actions).value.limits == s.limits
    decreases |actions|
  {
    if actions != [] {
      LimitsAreFixed(Apply(s, actions[0]), actions[1..]);
    }
  }

  /** No scan is ever claimed twice. */
  lemma ClaimedAtMostOnce(s: State, actions: seq<Action>, id: ScanId)
    requires Initial(s) && Run(s, actions).Some?
    ensures Run(s, actions).value.db.claims[id] <= 1
  {
    Reachable(s, actions);
  }

  /** Every statement of every executor runs with its own tenant's context. */
  lemma StatementsRunInContext(s: State, actions: seq<Action>, sid: Sid)
    requires Initial(s) && Run(s, actions).Some?
    ensures var last := Run(s, actions).value;
            sid in last.execs && RunsStatement(last.execs[sid].pc) ==>
              last.execs[sid].context == TenantContext(last.execs[sid].tenant)
  {
    Reachable(s, actions);
  }

  /** A claimed executor that came to an end, other than by a database error in
      its own cleanup, leaves no running row behind, and its result is true of
      the row from then on. */
  lemma ResultsAreTruthful(s: State, actions: seq<Action>, sid: Sid)
    requires Initial(s) && Run(s, actions).Some?
    requires var last := Run(s, actions).value;
             sid in last.execs && last.execs[sid].pc.Done? && last.execs[sid].claimed
    ensures var last := Run(s, actions).value;
            var x := last.execs[sid];
            x.pc.outcome != RaisedError && x.pc.outcome != ReturnedSkipped && x.scan in last.db.rows ==>
              && last.db.rows[x.scan].status in TERMINAL
              && (x.pc.outcome == ReturnedCompleted ==> last.db.rows[x.scan].status == Completed)
              && (x.pc.outcome == ReturnedFailed ==> last.db.rows[x.scan].status == Failed)
  {
    Reachable(s, actions);
  }

  // ---- Terminal rows ----

  lemma ActionEvolves(s: State, a: Action)
    requires Inv(s) && ScanSystem.Enabled(s, a)
    ensures Evolves(s.db, Apply(s, a).db)
  {
    match a
    case CommitJob(sid) => CommitJobEvolves(s, sid);
    case Execute(sid, event, clock) => ExecFrame(s.db, sid, s.execs[sid], event, clock);
    case _ => OtherEvolves(s, a);
  }

  lemma CommitJobEvolves(s: State, sid: Sid)
    requires Inv(s) && ScanSystem.Enabled(s, CommitJob(sid))
    ensures Evolves(s.db, Apply(s, CommitJob(sid)).db)
  {
    CommitShape(s, sid);
    CommitEvolves(s.db, sid);
  }

  lemma OtherEvolves(s: State, a: Action)
    requires Inv(s) && ScanSystem.Enabled(s, a) && !a.CommitJob? && !a.Execute?
    ensures Evolves(s.db, Apply(s, a).db)
  {
    SameRowsEvolve(s.db);
    RowsStay(s, a);
  }

  /** Only a commit changes rows, claims or the scans ever born. */
  lemma RowsStay(s: State, a: Action)
    requires ScanSystem.Enabled(s, a) && !a.CommitJob? && !a.Execute?
    ensures var db := Apply(s, a).db; db.rows == s.db.rows && db.claims == s.db.claims && db.born == s.db.born
  {
    if StartsJob(a) {
      StartShape(s, a);
    }
  }

  ghost predicate SameOutcome(row: Scan, later: Scan) {
    && later.status == row.status && later.dispatchedAt == row.dispatchedAt
    && later.startedAt == row.startedAt && later.completedAt == row.completedAt
    && later.failureReason == row.failureReason && later.rawOutput == row.rawOutput
  }

  lemma TerminalStep(db: Db, after: Db, id: ScanId)
    requires Evolves(db, after)
    requires id in db.born && (id in db.rows ==> db.rows[id].status in TERMINAL)
    ensures id in after.born
    ensures id in after.rows ==>
              && id in db.rows && SameOutcome(db.rows[id], after.rows[id])
              && after.rows[id].status in TERMINAL
  {
    if id in after.rows {
      assert Legal(db.rows[id], after.rows[id]);
    }
  }

  /** Once terminal, a row keeps its outcome until it is deleted, and a deleted
      row never returns. */
  lemma {:induction false} TerminalRowsAreFrozen(s: State, actions: seq<Action>, id: ScanId)
    requires Inv(s) && Run(s, actions).Some?
    requires id in s.db.born && (id in s.db.rows ==> s.db.rows[id].status in TERMINAL)
    ensures var rows := Run(s, actions).value.db.rows;
            id in rows ==> id in s.db.rows && SameOutcome(s.db.rows[id], rows[id])
    decreases |actions|
  {
    if actions != [] {
      ActionEvolves(s, actions[0]);
      ActionKeeps(s, actions[0]);
      TerminalStep(s.db, Apply(s, actions[0]).db, id);
      TerminalRowsAreFrozen(Apply(s, actions[0]), actions[1..], id);
    }
  }

  // ---- One executor per claim ----

  ghost predicate Owner(s: State, sid: Sid, scan: ScanId) {
    || (sid in s.jobs && s.jobs[sid].Ringing? && s.jobs[sid].scan == scan)
    || (sid in s.execs && s.execs[sid].claimed && s.execs[sid].scan == scan)
  }

  ghost predicate OneOwner(s: State) {
    forall a, b, scan | Owner(s, a, scan) && Owner(s, b, scan) :: a == b
  }

  /** A session becomes an owner by committing the claim of a pending row, or by
      taking over from the worker that did. */
  lemma OwnersComeFromClaims(s: State, a: Action, sid: Sid, scan: ScanId)
    requires Inv(s) && ScanSystem.Enabled(s, a) && Owner(Apply(s, a), sid, scan)
    ensures || Owner(s, sid, scan)
            || (a.StartClaimed? && sid == a.sid && Owner(s, a.job, scan))
            || (scan !in s.db.claims && ((a.CommitJob? || a.Execute?) && a.sid == sid))
  {
    if a.CommitJob? {
      OwnersFromCommit(s, a, sid, scan);
    } else if a.Execute? {
      OwnersFromStep(s, a, sid, scan);
    } else if StartsJob(a) {
      OwnersAtStart(s, a, sid, scan);
    } else {
      OwnersStay(s, a, sid, scan);
    }
  }

  lemma OwnersFromStep(s: State, a: Action, sid: Sid, scan: ScanId)
    requires Inv(s) && ScanSystem.Enabled(s, a) && a.Execute? && Owner(Apply(s, a), sid, scan)
    ensures Owner(s, sid, scan) || (sid == a.sid && scan !in s.db.claims)
  {
    if sid == a.sid {
      ClaimInStep(s.db, sid, s.execs[sid], a.event, a.clock);
    }
  }

  lemma OwnersAtStart(s: State, a: Action, sid: Sid, scan: ScanId)
    requires ScanSystem.Enabled(s, a) && StartsJob(a) && Owner(Apply(s, a), sid, scan)
    ensures Owner(s, sid, scan)
  {
    StartShape(s, a);
  }

  lemma OwnersStay(s: State, a: Action, sid: Sid, scan: ScanId)
    requires ScanSystem.Enabled(s, a) && !StartsJob(a) && !a.CommitJob? && !a.Execute? && Owner(Apply(s, a), sid, scan)
    ensures Owner(s, sid, scan) || (a.StartClaimed? && sid == a.sid && Owner(s, a.job, scan))
  {
  }

  lemma OwnersFromCommit(s: State, a: Action, sid: Sid, scan: ScanId)
    requires Inv(s) && ScanSystem.Enabled(s, a) && a.CommitJob? && Owner(Apply(s, a), sid, scan)
    ensures Owner(s, sid, scan) || (sid == a.sid && scan !in s.db.claims)
  {
    var actor := a.sid;
    CommitShape(s, actor);
    assert JobOk(s.db, s.limits, actor, s.jobs[actor]);
    var next := Apply(s, CommitJob(actor));
    Elsewhere(s.jobs, next.jobs, actor);
    if sid == actor && sid in next.jobs {
      assert scan in Claimed(s.db.rows, Open(s.db, sid).writes);
    }
  }

  lemma ClaimInStep(db: Db, sid: Sid, x: Exec, event: ScanExecutor.Event, clock: int)
    requires DbOk(db) && ExecOk(db, sid, x) && ScanExecutor.Enabled(db, sid, x, event)
    ensures var y := Step(db, sid, x, event, clock).1;
            y.scan == x.scan && (y.claimed && !x.claimed ==> x.scan !in db.claims)
  {
    if x.pc == OwnCommit(true) {
      assert x.scan in Claimed(db.rows, Open(db, sid).writes);
    }
  }

  lemma OwnersAreClaimed(s: State, sid: Sid, scan: ScanId)
    requires Inv(s) && Owner(s, sid, scan)
    ensures scan in s.db.claims
  {
    if sid in s.jobs {
      assert JobOk(s.db, s.limits, sid, s.jobs[sid]);
    }
  }

  lemma ActionKeepsOneOwner(s: State, a: Action)
    requires Inv(s) && OneOwner(s) && ScanSystem.Enabled(s, a)
    ensures OneOwner(Apply(s, a))
  {
    var next := Apply(s, a);
    forall x, y, scan | Owner(next, x, scan) && Owner(next, y, scan)
      ensures x == y
    {
      OwnersComeFromClaims(s, a, x, scan);
      OwnersComeFromClaims(s, a, y, scan);
      if scan in s.db.claims {
        TakeOver(s, a, x, y, scan);
      } else {
        assert !Owner(s, x, scan) by { if Owner(s, x, scan) { OwnersAreClaimed(s, x, scan); } }
        assert !Owner(s, y, scan) by { if Owner(s, y, scan) { OwnersAreClaimed(s, y, scan); } }
        if a.StartClaimed? && Owner(s, a.job, scan) {
          OwnersAreClaimed(s, a.job, scan);
        }
      }
    }
  }

  lemma TakeOver(s: State, a: Action, x: Sid, y: Sid, scan: ScanId)
    requires Inv(s) && OneOwner(s) && ScanSystem.Enabled(s, a)
    requires Owner(Apply(s, a), x, scan) && Owner(Apply(s, a), y, scan)
    requires Owner(s, x, scan) || (a.StartClaimed? && x == a.sid && Owner(s, a.job, scan))
    requires Owner(s, y, scan) || (a.StartClaimed? && y == a.sid && Owner(s, a.job, scan))
    ensures x == y
  {
    if a.StartClaimed? {
      assert !Owner(Apply(s, a), a.job, scan);
    }
  }

  lemma {:induction false} RunKeepsOneOwner(s: State, actions: seq<Action>)
    requires Inv(s) && OneOwner(s) && Run(s, actions).Some?
    ensures OneOwner(Run(s, actions).value)
    decreases |actions|
  {
    if actions != [] {
      ActionKeeps(s, actions[0]);
      ActionKeepsOneOwner(s, actions[0]);
      RunKeepsOneOwner(Apply(s, actions[0]), actions[1..]);
    }
  }

  /** Two executors never run the same claimed scan. */
  lemma ExecutorsHaveDistinctScans(s: State, actions: seq<Action>, a: Sid, b: Sid)
    requires Initial(s) && Run(s, actions).Some?
    requires var execs := Run(s, actions).value.execs;
             a in execs && b in execs && execs[a].claimed && execs[b].claimed && execs[a].scan == execs[b].scan
    ensures a == b
  {
    Reachable(s, []);
    RunKeepsOneOwner(s, actions);
    var last := Run(s, actions).value;
    assert Owner(last, a, last.execs[a].scan) && Owner(last, b, last.execs[a].scan);
  }

  /** Once the watcher has seen a cancellation, the scan can publish nothing. */
  lemma CancelledScansPublishNothing(s: State, actions: seq<Action>, id: ScanId)
    requires Inv(s) && Run(s, actions).Some?
    requires id in s.db.rows && s.db.rows[id].status == Cancelled
    ensures forall f | f in Run(s, actions).value.db.found :: f.scan == id ==> f.author.None?
  {
    TerminalRowsAreFrozen(s, actions, id);
    RunKeeps(s, actions);
  }

  lemma CommitMakesNothingReady(db: Db, sid: Sid)
    requires DbOk(db) && LeavesDispatch(db, sid)
    ensures ReadySet(Commit(db, sid).rows) <= ReadySet(db.rows)
  {
    var writes := Open(db, sid).writes;
    forall id | id in ReadySet(Commit(db, sid).rows)
      ensures id in ReadySet(db.rows)
    {
      if id in writes {
        assert Based(db, id, writes[id]);
      }
    }
  }

  lemma ExecMakesNothingReady(s: State, sid: Sid, event: ScanExecutor.Event, clock: int)
    requires Inv(s) && ScanSystem.Enabled(s, Execute(sid, event, clock))
    ensures ReadySet(Step(s.db, sid, s.execs[sid], event, clock).0.rows) <= ReadySet(s.db.rows)
  {
    EffectIsCommitOrPrivate(s.db, sid, s.execs[sid], clock);
    CommitMakesNothingReady(s.db, sid);
  }

  /** Only the commit of a dispatch puts a scan in the queue; everything else,
      executors and crashes included, can only take scans out of it. */
  lemma OnlyDispatchMakesReady(s: State, a: Action)
    requires Inv(s) && ScanSystem.Enabled(s, a)
    requires !(a.CommitJob? && s.jobs[a.sid].Dispatching?)
    ensures ReadySet(Apply(s, a).db.rows) <= ReadySet(s.db.rows)
  {
    if StartsJob(a) {
      StartShape(s, a);
    } else {
      match a
      case CommitJob(sid) =>
        assert JobOk(s.db, s.limits, sid, s.jobs[sid]);
        CommitShape(s, sid);
        CommitMakesNothingReady(s.db, sid);
      case Execute(sid, event, clock) => ExecMakesNothingReady(s, sid, event, clock);
      case _ =>
    }
  }

  // ---- Requests that nobody disturbs do what they promise ----

  lemma RunOne(s: State, a: Action, rest: seq<Action>)
    requires ScanSystem.Enabled(s, a)
    ensures Run(s, [a] + rest) == Run(Apply(s, a), rest)
  {
    assert ([a] + rest)[1..] == rest;
  }

  lemma RunTwo(s: State, a: Action, b: Action)
    requires ScanSystem.Enabled(s, a) && ScanSystem.Enabled(Apply(s, a), b)
    ensures Run(s, [a, b]) == Some(Apply(Apply(s, a), b))
  {
    RunOne(s, a, [b]);
    RunOne(Apply(s, a), b, []);
    assert [a] + [b] == [a, b] && [b] + [] == [b];
  }

  /** A worker that claims a scan moves exactly that row, once, and rings for it. */
  lemma ClaimCommits(s: State, sid: Sid, id: ScanId)
    requires ClaimedOnce(s.db) && ScanSystem.Enabled(s, ClaimScan(sid, Some(id)))
    ensures var run := Run(s, [ClaimScan(sid, Some(id)), CommitJob(sid)]);
            && run.Some?
            && run.value.db.rows == s.db.rows[id := s.db.rows[id].(status := Running, startedAt := Some(s.now))]
            && run.value.db.claims[id] == 1
            && run.value.jobs == s.jobs[sid := Ringing(id, s.db.rows[id].tenant)]
  {
    var mid := Apply(s, ClaimScan(sid, Some(id)));
    ClaimRings(s, sid, id);
    RunTwo(s, ClaimScan(sid, Some(id)), CommitJob(sid));
    ClaimCommitted(s.db, mid.db, sid, id, s.now);
  }

  lemma ClaimRings(s: State, sid: Sid, id: ScanId)
    requires ScanSystem.Enabled(s, ClaimScan(sid, Some(id)))
    ensures var mid := Apply(s, ClaimScan(sid, Some(id)));
            && mid.db == Stage(s.db, sid, id, Put(Moved(s.db.rows[id], Running, None, None, s.now)))
            && ScanSystem.Enabled(mid, CommitJob(sid))
            && var end := Apply(mid, CommitJob(sid));
            end.db == Commit(mid.db, sid) && end.jobs == s.jobs[sid := Ringing(id, s.db.rows[id].tenant)]
  {
  }

  lemma ClaimCommitted(db: Db, staged: Db, sid: Sid, id: ScanId, now: int)
    requires ClaimedOnce(db) && id in ReadySet(db.rows) && sid !in db.open
    requires staged == Stage(db, sid, id, Put(Moved(db.rows[id], Running, None, None, now)))
    ensures Commit(staged, sid).rows == db.rows[id := Moved(db.rows[id], Running, None, None, now)]
    ensures Commit(staged, sid).claims[id] == 1
  {
    UnclaimedWhilePending(db, id);
    CommitOneRow(staged, sid, id, Moved(db.rows[id], Running, None, None, now));
  }

  lemma UnclaimedWhilePending(db: Db, id: ScanId)
    requires ClaimedOnce(db) && id in db.rows && db.rows[id].status == Pending
    ensures db.claims[id] == 0
  {
  }

  lemma CommitOneRow(db: Db, sid: Sid, id: ScanId, row: Scan)
    requires id in db.rows && Open(db, sid).writes == map[id := Put(row)]
    ensures Commit(db, sid).rows == db.rows[id := row]
    ensures db.rows[id].status == Pending && row.status == Running ==>
              Commit(db, sid).claims == db.claims + multiset{id}
  {
    if db.rows[id].status == Pending && row.status == Running {
      assert Claimed(db.rows, Open(db, sid).writes) == {id};
    }
  }

  /** The dispatch transaction up to its quota decision. */
  function DispatchRequest(sid: Sid, id: ScanId): seq<Action> {
    [DispatchBegin(sid, id), DispatchLock(sid), DispatchUpdate(sid), DispatchCount(sid)]
  }

  ghost predicate Dispatchable(s: State, sid: Sid, id: ScanId) {
    && Unused(s, sid) && CanDispatch(s.db, id) && Free(s.db, sid, id)
    && s.db.rows[id].tenant in s.limits
    && forall other | other in s.jobs :: !HoldsTenant(s.jobs[other], s.db.rows[id].tenant)
  }

  /** An undisturbed dispatch is accepted exactly when today's count leaves room. */
  lemma DispatchAcceptedIffQuotaLeft(s: State, sid: Sid, id: ScanId)
    requires Dispatchable(s, sid, id)
    ensures var run := Run(s, DispatchRequest(sid, id));
            var row := s.db.rows[id];
            && run.Some? && run.value.db.rows == s.db.rows
            && if |Since(s.db.rows, row.tenant, DayStart(s.now))| < s.limits[row.tenant]
               then && ScanSystem.Enabled(run.value, CommitJob(sid))
                    && Apply(run.value, CommitJob(sid)).db.rows == s.db.rows[id := row.(dispatchedAt := Some(s.now))]
               else sid !in run.value.jobs && sid !in run.value.db.open
  {
    var staged := DispatchStaged(s, sid, id);
    DispatchReachesCount(s, sid, id);
    RunOne(staged, DispatchCount(sid), []);
    assert [DispatchCount(sid)] + [] == [DispatchCount(sid)];
    CountDecides(s, sid, id);
  }

  /** The counting step lets the dispatch pass exactly if the day leaves room. */
  lemma CountDecides(s: State, sid: Sid, id: ScanId)
    requires Dispatchable(s, sid, id)
    ensures var row, staged := s.db.rows[id], DispatchStaged(s, sid, id);
            && ScanSystem.Enabled(staged, DispatchCount(sid))
            && var after := Apply(staged, DispatchCount(sid));
            && after.db.rows == s.db.rows
            && if |Since(s.db.rows, row.tenant, DayStart(s.now))| < s.limits[row.tenant]
               then && ScanSystem.Enabled(after, CommitJob(sid))
                    && Apply(after, CommitJob(sid)).db.rows == s.db.rows[id := row.(dispatchedAt := Some(s.now))]
               else sid !in after.jobs && sid !in after.db.open
  {
    var row, staged := s.db.rows[id], DispatchStaged(s, sid, id);
    OwnDispatchCounts(s.db.rows, id, s.now);
    assert Open(staged.db, sid).writes == map[id := Put(row.(dispatchedAt := Some(s.now)))];
    CommitOneRow(staged.db, sid, id, row.(dispatchedAt := Some(s.now)));
  }

  function DispatchStaged(s: State, sid: Sid, id: ScanId): State
    requires id in s.db.rows
  {
    var row := s.db.rows[id];
    Begin(s, sid, Stage(s.db, sid, id, Put(row.(dispatchedAt := Some(s.now)))),
          Dispatching(id, row.tenant, s.now, RowUpdated))
  }

  lemma RunThree(s: State, a: Action, b: Action, c: Action, d: Action, s1: State, s2: State, s3: State)
    requires ScanSystem.Enabled(s, a) && Apply(s, a) == s1
    requires ScanSystem.Enabled(s1, b) && Apply(s1, b) == s2
    requires ScanSystem.Enabled(s2, c) && Apply(s2, c) == s3
    ensures Run(s, [a, b, c, d]) == Run(s3, [d])
  {
    RunOne(s, a, [b, c, d]);
    assert [a] + [b, c, d] == [a, b, c, d];
    RunOne(s1, b, [c, d]);
    assert [b] + [c, d] == [b, c, d];
    RunOne(s2, c, [d]);
    assert [c] + [d] == [c, d];
  }

  lemma DispatchReachesCount(s: State, sid: Sid, id: ScanId)
    requires Dispatchable(s, sid, id)
    ensures Run(s, DispatchRequest(sid, id)) == Run(DispatchStaged(s, sid, id), [DispatchCount(sid)])
  {
    var begun := Dispatching(id, s.db.rows[id].tenant, s.now, TxBegun);
    var s1 := Begin(s, sid, s.db, begun);
    var s2 := s1.(jobs := s1.jobs[sid := begun.(phase := TenantLocked)]);
    var s3 := Apply(s2, DispatchUpdate(sid));
    assert s3.jobs == DispatchStaged(s, sid, id).jobs;
    RunThree(s, DispatchBegin(sid, id), DispatchLock(sid), DispatchUpdate(sid), DispatchCount(sid), s1, s2, s3);
  }

  /** The count a dispatch compares includes its own row exactly once. */
  lemma OwnDispatchCounts(rows: Table, id: ScanId, now: int)
    requires id in rows && rows[id].status == Pending && rows[id].dispatchedAt.None?
    ensures var stamped := rows[id].(dispatchedAt := Some(now));
            |Since(Overlay(rows, map[id := Put(stamped)]), rows[id].tenant, DayStart(now))|
              == |Since(rows, rows[id].tenant, DayStart(now))| + 1
  {
    var tenant, stamped := rows[id].tenant, rows[id].(dispatchedAt := Some(now));
    assert Overlay(rows, map[id := Put(stamped)]) == rows[id := stamped];
    assert Since(rows[id := stamped], tenant, DayStart(now)) == Since(rows, tenant, DayStart(now)) + {id};
  }
}
