/** What each request comes to when it is committed: one row or the rows of one
    statement, field by field, and nothing else (app/modules/scans/service.py,
    app/modules/scans/state.py). */
module ScanRequests {
  import opened Wrappers
  import opened ScanTable
  import opened ScanLocks
  import opened ScanSystem
  import opened ScanRuns

  /** The request has begun and is committed. */
  ghost function Committed(s: State, sid: Sid, a: Action): Option<State> {
    Run(s, [a, CommitJob(sid)])
  }

  lemma BeginsAndCommits(s: State, sid: Sid, a: Action, db: Db)
    requires ScanSystem.Enabled(s, a) && Apply(s, a) == Begin(s, sid, db, Writing)
    ensures Committed(s, sid, a).Some? && Committed(s, sid, a).value.db == Commit(db, sid)
    ensures Committed(s, sid, a).value.jobs == s.jobs - {sid}
  {
    RunTwo(s, a, CommitJob(sid));
  }

  lemma CommitOne(db: Db, sid: Sid, id: ScanId, w: Write)
    requires sid !in db.open
    ensures var after := Commit(Stage(db, sid, id, w), sid);
            && after.rows == (if w.Put? then db.rows[id := w.row] else db.rows - {id})
            && after.found == set f | f in db.found && f.scan in after.rows
  {
    var staged := Stage(db, sid, id, w);
    assert Open(staged, sid).writes == map[id := w] && Open(staged, sid).adds == {};
  }

  lemma CommitMany(db: Db, sid: Sid, writes: map<ScanId, Write>)
    requires sid !in db.open && writes.Keys <= db.rows.Keys && forall id | id in writes :: writes[id].Put?
    ensures var after := Commit(StageAll(db, sid, writes), sid);
            && after.rows == (map id | id in db.rows :: if id in writes then writes[id].row else db.rows[id])
            && after.found == set f | f in db.found && f.scan in db.rows
  {
    var staged := StageAll(db, sid, writes);
    assert Open(staged, sid).writes == writes && Open(staged, sid).adds == {};
  }

  lemma AllAnchored(db: Db)
    requires FindingsAnchored(db)
    ensures (set f | f in db.found && f.scan in db.rows) == db.found
  {
  }

  /** A new scan is pending, with no time stamp and no outcome. */
  lemma CreateCommits(s: State, sid: Sid, id: ScanId, tenant: Tenant, name: string)
    requires DbOk(s.db) && ScanSystem.Enabled(s, CreateScan(sid, id, tenant, name))
    ensures var run := Committed(s, sid, CreateScan(sid, id, tenant, name));
            && run.Some? && run.value.db.found == s.db.found && id !in s.db.rows
            && run.value.db.rows == s.db.rows[id := Scan(tenant, name, Pending, None, None, None, None, None)]
  {
    var w := Put(Scan(tenant, name, Pending, None, None, None, None, None));
    BeginsAndCommits(s, sid, CreateScan(sid, id, tenant, name), Stage(s.db, sid, id, w));
    CommitOne(s.db, sid, id, w);
    AllAnchored(s.db);
  }

  /** A scan can be cancelled exactly while it is pending or running. */
  lemma CancelCommits(s: State, sid: Sid, id: ScanId, clock: int)
    requires DbOk(s.db) && Unused(s, sid) && id in s.db.rows && Free(s.db, sid, id)
    ensures ScanSystem.Enabled(s, CancelScan(sid, id, clock)) <==> s.db.rows[id].status in {Pending, Running}
    ensures s.db.rows[id].status in {Pending, Running} ==>
              var run := Committed(s, sid, CancelScan(sid, id, clock));
              && run.Some? && run.value.db.found == s.db.found
              && run.value.db.rows == s.db.rows[id := s.db.rows[id].(status := Cancelled, completedAt := Some(clock))]
  {
    assert Pending in AllowedFrom(Cancelled) && AllowedFrom(Cancelled) == {Pending, Running};
    if s.db.rows[id].status in {Pending, Running} {
      var w := Put(s.db.rows[id].(status := Cancelled, completedAt := Some(clock)));
      BeginsAndCommits(s, sid, CancelScan(sid, id, clock), Stage(s.db, sid, id, w));
      CommitOne(s.db, sid, id, w);
      AllAnchored(s.db);
    }
  }

  lemma RenameCommits(s: State, sid: Sid, id: ScanId, name: string)
    requires DbOk(s.db) && ScanSystem.Enabled(s, RenameScan(sid, id, name))
    ensures var run := Committed(s, sid, RenameScan(sid, id, name));
            && run.Some? && run.value.db.found == s.db.found
            && run.value.db.rows == s.db.rows[id := s.db.rows[id].(name := name)]
  {
    var w := Put(s.db.rows[id].(name := name));
    BeginsAndCommits(s, sid, RenameScan(sid, id, name), Stage(s.db, sid, id, w));
    CommitOne(s.db, sid, id, w);
    AllAnchored(s.db);
  }

  /** A deleted scan takes its findings with it, and no others. */
  lemma DeleteCommits(s: State, sid: Sid, id: ScanId)
    requires DbOk(s.db) && ScanSystem.Enabled(s, DeleteScan(sid, id))
    ensures var run := Committed(s, sid, DeleteScan(sid, id));
            && run.Some? && run.value.db.rows == s.db.rows - {id}
            && run.value.db.found == set f | f in s.db.found && f.scan != id
  {
    BeginsAndCommits(s, sid, DeleteScan(sid, id), Stage(s.db, sid, id, Gone));
    CommitOne(s.db, sid, id, Gone);
    assert forall f | f in s.db.found :: f.scan in s.db.rows - {id} <==> f.scan != id;
  }

  /** A reaper fails rows that have been running for the given time, with its reason. */
  lemma ReapCommits(s: State, sid: Sid, ids: set<ScanId>, olderThan: int)
    requires DbOk(s.db) && ScanSystem.Enabled(s, ReapScans(sid, ids, olderThan))
    ensures forall id | id in ids ::
              && id in s.db.rows && s.db.rows[id].status == Running && s.db.rows[id].startedAt.Some?
              && s.db.rows[id].startedAt.value + olderThan <= s.now
    ensures var run := Committed(s, sid, ReapScans(sid, ids, olderThan));
            && run.Some? && run.value.db.found == s.db.found
            && run.value.db.rows == map id | id in s.db.rows ::
                 if id in ids
                 then s.db.rows[id].(status := Failed, failureReason := Some("worker_lost"), completedAt := Some(s.now))
                 else s.db.rows[id]
  {
    var writes := map id | id in ids :: Put(Reaped(s.db.rows[id], s.now));
    BeginsAndCommits(s, sid, ReapScans(sid, ids, olderThan), StageAll(s.db, sid, writes));
    CommitMany(s.db, sid, writes);
    AllAnchored(s.db);
  }

  /** A finding recorded or deleted by hand touches no scan and no other finding. */
  lemma FindingsByHand(s: State, sid: Sid, scan: ScanId, key: string, finding: Finding)
    ensures ScanSystem.Enabled(s, AddFinding(sid, scan, key)) ==>
              Apply(s, AddFinding(sid, scan, key)) == s.(db := s.db.(found := s.db.found + {Finding(scan, key, None)}))
    ensures ScanSystem.Enabled(s, DropFinding(sid, finding)) ==>
              var after := Apply(s, DropFinding(sid, finding));
              after.db.rows == s.db.rows && after.db.found == (set f | f in s.db.found && f != finding) && after.jobs == s.jobs
  {
  }

  /** A worker that dies, or a request that gives up, leaves no trace in the database. */
  lemma NothingIsLeftBehind(s: State, sid: Sid)
    ensures ScanSystem.Enabled(s, KillWorker(sid)) ==>
              var after := Apply(s, KillWorker(sid));
              after.db.rows == s.db.rows && after.db.found == s.db.found && sid !in after.db.open && sid !in after.execs
    ensures ScanSystem.Enabled(s, AbortJob(sid)) ==>
              var after := Apply(s, AbortJob(sid));
              after.db.rows == s.db.rows && after.db.found == s.db.found && sid !in after.db.open && sid !in after.jobs
  {
  }
}
