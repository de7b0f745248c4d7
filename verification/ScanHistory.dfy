/** What the time stamps of a row say over every run: which scans count for the daily
    quota, and when the reaper may take one (app/modules/scans/service.py, state.py). */
module ScanHistory {
  import opened Wrappers
  import opened ScanTable
  import opened ScanLocks
  import opened ScanExecutor
  import opened ScanSystem
  import opened ScanRuns

  // ---- The quota, by what happened to the scans ----

  /** The scan has been claimed, or still waits for it. */
  predicate Used(db: Db, id: ScanId) {
    id in db.claims || (id in db.rows && db.rows[id].status == Pending)
  }

  /** The tenant's scans dispatched in a stretch of time that were claimed or wait. */
  function UsedBetween(db: Db, tenant: Tenant, first: int, end: int): set<ScanId> {
    set id | id in db.rows && db.rows[id].tenant == tenant && db.rows[id].dispatchedAt.Some?
             && first <= db.rows[id].dispatchedAt.value < end && Used(db, id)
  }

  function UsedSince(db: Db, tenant: Tenant, first: int): set<ScanId> {
    set id | id in db.rows && db.rows[id].tenant == tenant && db.rows[id].dispatchedAt.Some?
             && first <= db.rows[id].dispatchedAt.value && Used(db, id)
  }

  /** A dispatched scan is refunded exactly if it ended without ever being claimed. */
  lemma RefundedIffUnused(db: Db, id: ScanId)
    requires DbOk(db) && id in db.rows
    ensures Refunded(db.rows[id]) <==> !Used(db, id)
  {
    assert RowOk(db.rows[id]);
  }

  lemma DayOf(t: int, day: int)
    ensures DayStart(t) == 86400 * day <==> 86400 * day <= t < 86400 * (day + 1)
  {
  }

  lemma OccupyingIsUsed(db: Db, tenant: Tenant, day: int)
    requires DbOk(db)
    ensures Occupying(db.rows, tenant, 86400 * day) == UsedBetween(db, tenant, 86400 * day, 86400 * (day + 1))
  {
    forall id | id in db.rows && db.rows[id].dispatchedAt.Some?
      ensures id in Occupying(db.rows, tenant, 86400 * day) <==> id in UsedBetween(db, tenant, 86400 * day, 86400 * (day + 1))
    {
      RefundedIffUnused(db, id);
      DayOf(db.rows[id].dispatchedAt.value, day);
    }
  }

  lemma SinceIsUsed(db: Db, tenant: Tenant, first: int)
    requires DbOk(db)
    ensures Since(db.rows, tenant, first) == UsedSince(db, tenant, first)
  {
    forall id | id in db.rows ensures Refunded(db.rows[id]) <==> !Used(db, id) {
      RefundedIffUnused(db, id);
    }
  }

  /** In every run: of a tenant's scans dispatched on one UTC day, no more than its
      limit were claimed or wait to be. */
  lemma DailyUseIsLimited(s: State, actions: seq<Action>, tenant: Tenant, day: int)
    requires Initial(s) && Run(s, actions).Some? && tenant in s.limits
    ensures |UsedBetween(Run(s, actions).value.db, tenant, 86400 * day, 86400 * (day + 1))| <= s.limits[tenant]
  {
    Reachable(s, actions);
    QuotaNeverExceeded(s, actions, tenant, 86400 * day);
    OccupyingIsUsed(Run(s, actions).value.db, tenant, day);
  }

  /** In every run: a claimed scan counts for the day of its dispatch for good, whatever
      became of it; one that ended unclaimed counts for no day. */
  lemma ClaimedScansCount(s: State, actions: seq<Action>, id: ScanId)
    requires Initial(s) && Run(s, actions).Some? && id in Run(s, actions).value.db.rows
    ensures var db := Run(s, actions).value.db;
            var row := db.rows[id];
            && (id in db.claims ==>
                  row.dispatchedAt.Some? && id in Occupying(db.rows, row.tenant, DayStart(row.dispatchedAt.value)))
            && (id !in db.claims && row.status in {Failed, Cancelled} ==>
                  forall tenant, day :: id !in Occupying(db.rows, tenant, day))
  {
    Reachable(s, actions);
    RefundedIffUnused(Run(s, actions).value.db, id);
    assert RowOk(Run(s, actions).value.db.rows[id]);
  }

  /** The dispatch is accepted exactly if fewer of the tenant's scans than its limit
      were dispatched since midnight and claimed or wait; it stamps the row, and a
      rejected one changes nothing. */
  ghost predicate AcceptsIfUseLeft(t: State, sid: Sid, id: ScanId)
    requires Dispatchable(t, sid, id)
  {
    var run, row := Run(t, DispatchRequest(sid, id)), t.db.rows[id];
    && run.Some? && run.value.db.rows == t.db.rows
    && if |UsedSince(t.db, row.tenant, t.now - t.now % 86400)| < t.limits[row.tenant]
       then && ScanSystem.Enabled(run.value, CommitJob(sid))
            && Apply(run.value, CommitJob(sid)).db.rows == t.db.rows[id := row.(dispatchedAt := Some(t.now))]
       else sid !in run.value.jobs && sid !in run.value.db.open
  }

  /** After every run: an undisturbed dispatch is accepted exactly if fewer scans of the
      tenant than its limit were dispatched since midnight and claimed or wait. */
  lemma AcceptedIffUseLeft(s: State, actions: seq<Action>, sid: Sid, id: ScanId)
    requires Initial(s) && Run(s, actions).Some? && Dispatchable(Run(s, actions).value, sid, id)
    ensures AcceptsIfUseLeft(Run(s, actions).value, sid, id)
  {
    var t := Run(s, actions).value;
    assert DbOk(t.db) by {
      Reachable(s, actions);
    }
    AcceptedIffUseLeftNow(t, sid, id);
  }

  lemma AcceptedIffUseLeftNow(t: State, sid: Sid, id: ScanId)
    requires DbOk(t.db) && Dispatchable(t, sid, id)
    ensures AcceptsIfUseLeft(t, sid, id)
  {
    DispatchAcceptedIffQuotaLeft(t, sid, id);
    SinceIsUsed(t.db, t.db.rows[id].tenant, DayStart(t.now));
  }

  // ---- The reaper ----

  /** A running row keeps the moment of its claim. */
  lemma {:induction false} StartStays(s: State, actions: seq<Action>, id: ScanId, start: int)
    requires Inv(s) && Run(s, actions).Some? && id in s.db.born
    requires id in s.db.rows && s.db.rows[id].status == Running ==> s.db.rows[id].startedAt == Some(start)
    requires id in s.db.rows ==> s.db.rows[id].status != Pending
    ensures var rows := Run(s, actions).value.db.rows;
            id in rows && rows[id].status == Running ==> rows[id].startedAt == Some(start)
    decreases |actions|
  {
    if actions != [] {
      var next := Apply(s, actions[0]);
      ActionEvolves(s, actions[0]);
      ActionKeeps(s, actions[0]);
      assert id in next.db.rows ==> id in s.db.rows && Legal(s.db.rows[id], next.db.rows[id]);
      StartStays(next, actions[1..], id, start);
    }
  }

  /** In every run a scan that a worker has claimed is not reaped before it has run for
      as long as the reaper waits. */
  lemma YoungScansAreSpared(s: State, sid: Sid, id: ScanId, actions: seq<Action>, reaper: Sid, ids: set<ScanId>, olderThan: int)
    requires Inv(s) && ScanSystem.Enabled(s, ClaimScan(sid, Some(id)))
    requires var claimed := Run(s, [ClaimScan(sid, Some(id)), CommitJob(sid)]);
             && claimed.Some? && Run(claimed.value, actions).Some?
             && ScanSystem.Enabled(Run(claimed.value, actions).value, ReapScans(reaper, ids, olderThan)) && id in ids
    ensures var claimed := Run(s, [ClaimScan(sid, Some(id)), CommitJob(sid)]).value;
            Run(claimed, actions).value.now >= s.now + olderThan
  {
    var claimed := Run(s, [ClaimScan(sid, Some(id)), CommitJob(sid)]).value;
    ClaimCommits(s, sid, id);
    RunKeeps(s, [ClaimScan(sid, Some(id)), CommitJob(sid)]);
    StartStays(claimed, actions, id, s.now);
  }
}
