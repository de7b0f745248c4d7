/** The whole scan protocol: API requests, claiming workers, executors and the
    reaper over one database, one atomic step at a time
    (app/modules/scans/service.py, state.py, executor.py and app/worker/tasks.py). */
module ScanSystem {
  import opened Wrappers
  import opened ScanTable
  import opened ScanLocks
  import opened ScanExecutor

  const DAY := 86400

  /** Midnight UTC of the day an instant belongs to. */
  function DayStart(t: int): int { t - t % DAY }

  datatype Phase = TxBegun | TenantLocked | RowUpdated | QuotaChecked

  /** A session that is not an executor. `Dispatching` remembers when its
      transaction began, which is what now() keeps returning inside it. */
  datatype Job =
    | Writing
    | Claiming(got: Option<ScanId>)
    | Ringing(scan: ScanId, tenant: Tenant)
    | Dispatching(scan: ScanId, tenant: Tenant, txNow: int, phase: Phase)

  datatype State = State(
    now: int,
    limits: map<Tenant, nat>,
    db: Db,
    jobs: map<Sid, Job>,
    execs: map<Sid, Exec>)

  datatype Action =
    | Tick(until: int)
    | CreateScan(sid: Sid, id: ScanId, tenant: Tenant, name: string)
    | RenameScan(sid: Sid, id: ScanId, name: string)
    | CancelScan(sid: Sid, id: ScanId, clock: int)
    | DeleteScan(sid: Sid, id: ScanId)
    | ReapScans(sid: Sid, ids: set<ScanId>, olderThan: int)
    | ClaimScan(sid: Sid, got: Option<ScanId>)
    | DispatchBegin(sid: Sid, id: ScanId)
    | DispatchLock(sid: Sid)
    | DispatchUpdate(sid: Sid)
    | DispatchCount(sid: Sid)
    | CommitJob(sid: Sid)
    | AbortJob(sid: Sid)
    | StartClaimed(job: Sid, sid: Sid)
    | StartUnclaimed(sid: Sid, scan: ScanId, tenant: Tenant)
    | Execute(sid: Sid, event: Event, clock: int)
    | KillWorker(sid: Sid)
    | AddFinding(sid: Sid, scan: ScanId, key: string)
    | DropFinding(sid: Sid, finding: Finding)

  predicate Unused(s: State, sid: Sid) {
    sid !in s.db.open && sid !in s.jobs && sid !in s.execs
  }

  predicate CommitReady(job: Job) {
    job.Writing? || job.Claiming? || (job.Dispatching? && job.phase.QuotaChecked?)
  }

  predicate HoldsTenant(job: Job, tenant: Tenant) {
    job.Dispatching? && job.tenant == tenant && !job.phase.TxBegun?
  }

  predicate Refunded(row: Scan) {
    row.status in {Failed, Cancelled} && row.startedAt.None?
  }

  /** The quota query: rows dispatched since `lo`, refunds left out. */
  function Since(rows: Table, tenant: Tenant, lo: int): set<ScanId> {
    set id | id in rows && rows[id].tenant == tenant && rows[id].dispatchedAt.Some?
             && lo <= rows[id].dispatchedAt.value && !Refunded(rows[id])
  }

  function Occupying(rows: Table, tenant: Tenant, day: int): set<ScanId> {
    set id | id in rows && rows[id].tenant == tenant && rows[id].dispatchedAt.Some?
             && DayStart(rows[id].dispatchedAt.value) == day && !Refunded(rows[id])
  }

  predicate CanDispatch(db: Db, id: ScanId) {
    id in db.rows && db.rows[id].status == Pending && db.rows[id].dispatchedAt.None?
  }

  predicate Enabled(s: State, a: Action) {
    match a
    case Tick(until) => s.now <= until
    case CreateScan(sid, id, tenant, _) =>
      Unused(s, sid) && id !in s.db.born && Free(s.db, sid, id) && tenant in s.limits
    case RenameScan(sid, id, _) => Unused(s, sid) && id in s.db.rows && Free(s.db, sid, id)
    case CancelScan(sid, id, _) =>
      Unused(s, sid) && id in s.db.rows && Free(s.db, sid, id) && Matches(s.db.rows[id], Cancelled)
    case DeleteScan(sid, id) =>
      Unused(s, sid) && id in s.db.rows && Free(s.db, sid, id) && Unreferenced(s.db, sid, id)
    case ReapScans(sid, ids, olderThan) =>
      Unused(s, sid) && forall id | id in ids ::
        id in s.db.rows && Free(s.db, sid, id) && Stale(s.db.rows[id], s.now, olderThan)
    case ClaimScan(sid, got) =>
      Unused(s, sid) &&
      if got.Some? then Oldest(s.db.rows, LockedFor(s.db, sid), got.value)
      else ReadySet(s.db.rows) <= LockedFor(s.db, sid)
    case DispatchBegin(sid, id) => Unused(s, sid) && id in s.db.rows
    case DispatchLock(sid) =>
      sid in s.jobs && s.jobs[sid].Dispatching? && s.jobs[sid].phase.TxBegun? && s.jobs[sid].tenant in s.limits
      && forall other | other in s.jobs && other != sid :: !HoldsTenant(s.jobs[other], s.jobs[sid].tenant)
    case DispatchUpdate(sid) =>
      sid in s.jobs && s.jobs[sid].Dispatching? && s.jobs[sid].phase.TenantLocked?
      && Free(s.db, sid, s.jobs[sid].scan)
    case DispatchCount(sid) => sid in s.jobs && s.jobs[sid].Dispatching? && s.jobs[sid].phase.RowUpdated?
    case CommitJob(sid) => sid in s.jobs && CommitReady(s.jobs[sid])
    case AbortJob(sid) => sid in s.jobs
    case StartClaimed(job, sid) => job in s.jobs && s.jobs[job].Ringing? && Unused(s, sid)
    case StartUnclaimed(sid, _, _) => Unused(s, sid)
    case Execute(sid, event, _) => sid in s.execs && ScanExecutor.Enabled(s.db, sid, s.execs[sid], event)
    case KillWorker(sid) => sid in s.execs
    case AddFinding(sid, scan, _) => Unused(s, sid) && scan in s.db.rows && NotBeingDeletedByAny(s.db, scan)
    case DropFinding(sid, _) => Unused(s, sid)
  }

  predicate NotBeingDeletedByAny(db: Db, id: ScanId) {
    forall other | other in db.open :: id in db.open[other].writes ==> db.open[other].writes[id].Put?
  }

  function Begin(s: State, sid: Sid, db: Db, job: Job): State {
    s.(db := db, jobs := s.jobs[sid := job])
  }

  function Leave(s: State, sid: Sid): State {
    s.(db := Rollback(s.db, sid), jobs := s.jobs - {sid})
  }

  function Apply(s: State, a: Action): State
    requires Enabled(s, a)
  {
    match a
    case Tick(until) => s.(now := until)
    case CreateScan(sid, id, tenant, name) =>
      var row := Scan(tenant, name, Pending, None, None, None, None, None);
      Begin(s, sid, Stage(s.db, sid, id, Put(row)), Writing)
    case RenameScan(sid, id, name) =>
      Begin(s, sid, Stage(s.db, sid, id, Put(s.db.rows[id].(name := name))), Writing)
    case CancelScan(sid, id, clock) =>
      Begin(s, sid, Stage(s.db, sid, id, Put(Moved(s.db.rows[id], Cancelled, None, None, clock))), Writing)
    case DeleteScan(sid, id) => Begin(s, sid, Stage(s.db, sid, id, Gone), Writing)
    case ReapScans(sid, ids, _) =>
      Begin(s, sid, StageAll(s.db, sid, map id | id in ids :: Put(Reaped(s.db.rows[id], s.now))), Writing)
    case ClaimScan(sid, got) =>
      if got.None? then Begin(s, sid, s.db, Claiming(None))
      else Begin(s, sid,
                 Stage(s.db, sid, got.value, Put(Moved(s.db.rows[got.value], Running, None, None, s.now))),
                 Claiming(got))
    case DispatchBegin(sid, id) =>
      Begin(s, sid, s.db, Dispatching(id, s.db.rows[id].tenant, s.now, TxBegun))
    case DispatchLock(sid) => s.(jobs := s.jobs[sid := s.jobs[sid].(phase := TenantLocked)])
    case DispatchUpdate(sid) =>
      var job := s.jobs[sid];
      if CanDispatch(s.db, job.scan) then
        Begin(s, sid,
              Stage(s.db, sid, job.scan, Put(s.db.rows[job.scan].(dispatchedAt := Some(job.txNow)))),
              job.(phase := RowUpdated))
      else Leave(s, sid)
    case DispatchCount(sid) =>
      var job := s.jobs[sid];
      if OverQuota(s.db, s.limits, sid, job) then Leave(s, sid) else s.(jobs := s.jobs[sid := job.(phase := QuotaChecked)])
    case CommitJob(sid) =>
      var job := s.jobs[sid];
      var db := Commit(s.db, sid);
      if job.Claiming? && job.got.Some? && job.got.value in s.db.rows
      then Begin(s, sid, db, Ringing(job.got.value, s.db.rows[job.got.value].tenant))
      else s.(db := db, jobs := s.jobs - {sid})
    case AbortJob(sid) => Leave(s, sid)
    case StartClaimed(job, sid) =>
      var ringing := s.jobs[job];
      s.(jobs := s.jobs - {job}, execs := s.execs[sid := Start(ringing.scan, ringing.tenant, true)])
    case StartUnclaimed(sid, scan, tenant) => s.(execs := s.execs[sid := Start(scan, tenant, false)])
    case Execute(sid, event, clock) =>
      var (db, x) := Step(s.db, sid, s.execs[sid], event, clock);
      s.(db := db, execs := s.execs[sid := x])
    case KillWorker(sid) => s.(db := Rollback(s.db, sid), execs := s.execs - {sid})
    case AddFinding(_, scan, key) => s.(db := s.db.(found := s.db.found + {Finding(scan, key, None)}))
    case DropFinding(_, finding) => s.(db := s.db.(found := s.db.found - {finding}))
  }

  /** What the quota statement compares: committed rows plus its own write. */
  predicate OverQuota(db: Db, limits: map<Tenant, nat>, sid: Sid, job: Job)
    requires job.Dispatching?
  {
    var rows := Overlay(db.rows, Open(db, sid).writes);
    job.tenant !in limits || |Since(rows, job.tenant, DayStart(job.txNow))| > limits[job.tenant]
  }

  // ---- The invariant ----

  ghost predicate Dispatches(db: Db, sid: Sid, job: Job)
    requires job.Dispatching?
  {
    && job.scan in db.rows && CanDispatch(db, job.scan) && db.rows[job.scan].tenant == job.tenant
    && Open(db, sid).writes == map[job.scan := Put(db.rows[job.scan].(dispatchedAt := Some(job.txNow)))]
  }

  /** Only a dispatch stamps dispatched_at. */
  ghost predicate LeavesDispatch(db: Db, sid: Sid) {
    forall id | id in Open(db, sid).writes && id in db.rows ::
      Open(db, sid).writes[id].Put? ==> Open(db, sid).writes[id].row.dispatchedAt == db.rows[id].dispatchedAt
  }

  ghost predicate JobOk(db: Db, limits: map<Tenant, nat>, sid: Sid, job: Job) {
    && Open(db, sid).adds == {}
    && match job
    case Writing => LeavesDispatch(db, sid)
    case Claiming(got) =>
      LeavesDispatch(db, sid) &&
      if got.Some? then
        Claimed(db.rows, Open(db, sid).writes) == {got.value}
      else Open(db, sid).writes == map[]
    case Ringing(scan, tenant) =>
      && sid !in db.open && scan in db.claims && scan in db.born
      && (scan in db.rows ==> db.rows[scan].tenant == tenant)
    case Dispatching(scan, tenant, txNow, phase) =>
      && scan in db.born
      && (scan in db.rows ==> db.rows[scan].tenant == tenant)
      && (if phase.RowUpdated? || phase.QuotaChecked? then Dispatches(db, sid, job) else sid !in db.open)
      && (!phase.TxBegun? ==> tenant in limits)
      && (phase.QuotaChecked? ==> !OverQuota(db, limits, sid, job))
  }

  ghost predicate SessionsOk(s: State) {
    && s.jobs.Keys !! s.execs.Keys
    && s.db.open.Keys <= s.jobs.Keys + s.execs.Keys
    && (forall sid | sid in s.jobs :: JobOk(s.db, s.limits, sid, s.jobs[sid]))
    && (forall sid | sid in s.execs ::
          ExecOk(s.db, sid, s.execs[sid]) && LeavesDispatch(s.db, sid))
  }

  ghost predicate TenantExclusive(s: State) {
    forall a, b | a in s.jobs && b in s.jobs && a != b && s.jobs[b].Dispatching? ::
      HoldsTenant(s.jobs[b], s.jobs[b].tenant) ==> !HoldsTenant(s.jobs[a], s.jobs[b].tenant)
  }

  ghost predicate WithinQuota(s: State) {
    forall tenant, day | tenant in s.limits :: |Occupying(s.db.rows, tenant, day)| <= s.limits[tenant]
  }

  ghost predicate Inv(s: State) {
    DbOk(s.db) && SessionsOk(s) && TenantExclusive(s) && WithinQuota(s)
  }

  // ---- What one session's step leaves alone ----

  /** The database after a step of session `actor`, as every other session sees it. */
  ghost predicate Frame(db: Db, after: Db, actor: Sid) {
    && Evolves(db, after)
    && forall other | other != actor ::
         && (other in db.open <==> other in after.open)
         && Open(after, other) == Open(db, other)
         && forall id | id in Open(db, other).writes ::
              && (id in db.rows <==> id in after.rows)
              && (id in db.rows ==> after.rows[id] == db.rows[id])
  }

  /** Nothing new is counted for the tenant. */
  ghost predicate NothingNew(rows: Table, after: Table, tenant: Tenant) {
    forall id | id in after && after[id].tenant == tenant && after[id].dispatchedAt.Some? && !Refunded(after[id]) ::
      && id in rows && rows[id].tenant == tenant
      && rows[id].dispatchedAt == after[id].dispatchedAt && !Refunded(rows[id])
  }

  lemma SubsetSize<T>(a: set<T>, b: set<T>)
    requires a <= b
    ensures |a| <= |b|
  {
    if a != {} {
      var x :| x in a;
      SubsetSize(a - {x}, b - {x});
    }
  }

  lemma NothingNewKeepsSize(rows: Table, after: Table, writes: map<ScanId, Write>, tenant: Tenant, day: int)
    requires NothingNew(rows, after, tenant)
    ensures |Occupying(after, tenant, day)| <= |Occupying(rows, tenant, day)|
    ensures |Since(Overlay(after, writes), tenant, day)| <= |Since(Overlay(rows, writes), tenant, day)|
  {
    SubsetSize(Occupying(after, tenant, day), Occupying(rows, tenant, day));
    SubsetSize(Since(Overlay(after, writes), tenant, day), Since(Overlay(rows, writes), tenant, day));
  }

  lemma CommitFrame(db: Db, sid: Sid)
    requires DbOk(db)
    ensures Frame(db, Commit(db, sid), sid)
  {
    CommitEvolves(db, sid);
  }

  /** A commit that stamps no dispatch counts nothing new for anybody. */
  lemma CommitCountsNothing(db: Db, sid: Sid, tenant: Tenant)
    requires DbOk(db) && LeavesDispatch(db, sid)
    ensures NothingNew(db.rows, Commit(db, sid).rows, tenant)
  {
    var writes := Open(db, sid).writes;
    forall id | id in writes && id in Commit(db, sid).rows
      ensures Based(db, id, writes[id])
    {
    }
  }

  lemma DispatchCountsForOneTenant(db: Db, sid: Sid, job: Job, tenant: Tenant)
    requires DbOk(db) && job.Dispatching? && Dispatches(db, sid, job) && tenant != job.tenant
    ensures NothingNew(db.rows, Commit(db, sid).rows, tenant)
  {
  }

  /** Every other session keeps its invariant through a framed step, as long as
      the step counts nothing new for a tenant another dispatch has locked. */
  lemma OthersKeep(s: State, after: Db, actor: Sid)
    requires Inv(s) && Frame(s.db, after, actor)
    requires forall sid | sid in s.jobs && sid != actor && s.jobs[sid].Dispatching? && !s.jobs[sid].phase.TxBegun? ::
               NothingNew(s.db.rows, after.rows, s.jobs[sid].tenant)
    ensures forall sid | sid in s.jobs && sid != actor :: JobOk(after, s.limits, sid, s.jobs[sid])
    ensures forall sid | sid in s.execs && sid != actor ::
              ExecOk(after, sid, s.execs[sid]) && LeavesDispatch(after, sid)
  {
    forall sid | sid in s.execs && sid != actor
      ensures ExecOk(after, sid, s.execs[sid]) && LeavesDispatch(after, sid)
    {
      OthersKeepExec(s.db, after, sid, s.execs[sid]);
      assert LeavesDispatch(s.db, sid);
    }
    forall sid | sid in s.jobs && sid != actor
      ensures JobOk(after, s.limits, sid, s.jobs[sid])
    {
      OtherJobKeeps(s, after, actor, sid);
    }
  }

  lemma OtherJobKeeps(s: State, after: Db, actor: Sid, sid: Sid)
    requires Inv(s) && Frame(s.db, after, actor) && sid in s.jobs && sid != actor
    requires s.jobs[sid].Dispatching? && !s.jobs[sid].phase.TxBegun? ==>
               NothingNew(s.db.rows, after.rows, s.jobs[sid].tenant)
    ensures JobOk(after, s.limits, sid, s.jobs[sid])
  {
    var job, writes := s.jobs[sid], Open(s.db, sid).writes;
    assert JobOk(s.db, s.limits, sid, job);
    match job
    case Writing =>
    case Claiming(got) =>
      assert Claimed(after.rows, writes) == Claimed(s.db.rows, writes);
    case Ringing(scan, tenant) =>
    case Dispatching(scan, tenant, txNow, phase) =>
      if phase.QuotaChecked? {
        NothingNewKeepsSize(s.db.rows, after.rows, writes, tenant, DayStart(txNow));
      }
  }

  /** A statement that only touches the session's own transaction. */
  ghost predicate Private(db: Db, after: Db, actor: Sid) {
    && after.rows == db.rows && after.claims == db.claims && after.born == db.born
    && after.open - {actor} == db.open - {actor}
  }

  lemma PrivateFrame(db: Db, after: Db, actor: Sid)
    requires RowsOk(db) && Private(db, after, actor)
    ensures Frame(db, after, actor)
  {
    SameRowsEvolve(db);
    forall other | other != actor
      ensures (other in db.open <==> other in after.open) && Open(after, other) == Open(db, other)
    {
      assert other in db.open <==> other in db.open - {actor};
      assert other in after.open <==> other in after.open - {actor};
      assert other in db.open ==> (db.open - {actor})[other] == (after.open - {actor})[other];
    }
  }

  predicate Commits(pc: Pc) {
    pc.OwnCommit? || pc.CompleteCommit? || (pc.Cleaning? && pc.step.DoCommit?)
  }

  lemma EffectIsCommitOrPrivate(db: Db, sid: Sid, x: Exec, clock: int)
    ensures Commits(x.pc) ==> Effect(db, sid, x, clock) == Commit(db, sid)
    ensures !Commits(x.pc) ==> Private(db, Effect(db, sid, x, clock), sid)
  {
  }

  lemma FrameThenRollback(db: Db, after: Db, actor: Sid)
    requires Frame(db, after, actor)
    ensures Frame(db, Rollback(after, actor), actor)
  {
  }

  lemma ExecFrame(db: Db, sid: Sid, x: Exec, event: ScanExecutor.Event, clock: int)
    requires DbOk(db) && ScanExecutor.Enabled(db, sid, x, event)
    ensures Frame(db, Step(db, sid, x, event, clock).0, sid)
  {
    var moved := if Applies(event) then Effect(db, sid, x, clock) else db;
    EffectIsCommitOrPrivate(db, sid, x, clock);
    if moved == Commit(db, sid) {
      CommitFrame(db, sid);
    } else {
      PrivateFrame(db, moved, sid);
    }
    FrameThenRollback(db, moved, sid);
  }

  /** An executor never stamps a dispatch, so its commits count nothing new. */
  lemma ExecCountsNothing(db: Db, sid: Sid, x: Exec, event: ScanExecutor.Event, clock: int, tenant: Tenant)
    requires DbOk(db) && LeavesDispatch(db, sid) && ScanExecutor.Enabled(db, sid, x, event)
    ensures NothingNew(db.rows, Step(db, sid, x, event, clock).0.rows, tenant)
  {
    EffectIsCommitOrPrivate(db, sid, x, clock);
    CommitCountsNothing(db, sid, tenant);
  }

  lemma EffectLeavesDispatch(db: Db, sid: Sid, x: Exec, clock: int)
    requires LeavesDispatch(db, sid)
    ensures LeavesDispatch(Effect(db, sid, x, clock), sid)
  {
    EffectIsCommitOrPrivate(db, sid, x, clock);
  }

  lemma ExecLeavesDispatch(db: Db, sid: Sid, x: Exec, event: ScanExecutor.Event, clock: int)
    requires LeavesDispatch(db, sid) && ScanExecutor.Enabled(db, sid, x, event)
    ensures LeavesDispatch(Step(db, sid, x, event, clock).0, sid)
  {
    EffectLeavesDispatch(db, sid, x, clock);
  }

  // ---- Every action keeps the invariant ----

  lemma ExecuteKeeps(s: State, sid: Sid, event: ScanExecutor.Event, clock: int)
    requires Inv(s) && Enabled(s, Execute(sid, event, clock))
    ensures Inv(Apply(s, Execute(sid, event, clock)))
  {
    var x := s.execs[sid];
    var next := Step(s.db, sid, x, event, clock);
    assert DbOk(next.0) by { StepKeepsDb(s.db, sid, x, event, clock); }
    assert ExecOk(next.0, sid, next.1) by { StepKeepsExec(s.db, sid, x, event, clock); }
    assert LeavesDispatch(next.0, sid) by { ExecLeavesDispatch(s.db, sid, x, event, clock); }
    assert Frame(s.db, next.0, sid) by { ExecFrame(s.db, sid, x, event, clock); }
    forall tenant ensures NothingNew(s.db.rows, next.0.rows, tenant) {
      ExecCountsNothing(s.db, sid, x, event, clock, tenant);
    }
    ReplaceExec(s, sid, next.0, next.1);
  }

  lemma ReplaceExec(s: State, sid: Sid, db: Db, y: Exec)
    requires Inv(s) && sid in s.execs && DbOk(db) && ExecOk(db, sid, y) && LeavesDispatch(db, sid)
    requires Frame(s.db, db, sid) && forall tenant :: NothingNew(s.db.rows, db.rows, tenant)
    ensures Inv(s.(db := db, execs := s.execs[sid := y]))
  {
    var next := s.(db := db, execs := s.execs[sid := y]);
    OthersKeep(s, db, sid);
    SwapOne(s.execs, sid, y);
    assert sid !in s.jobs;
    assert WithinQuota(next) by {
      QuotaKept(s, db);
    }
    Assemble(s, next, sid);
  }

  lemma SwapOne<T>(sessions: map<Sid, T>, sid: Sid, y: T)
    ensures sessions[sid := y] - {sid} == sessions - {sid}
  {
  }

  lemma QuotaKept(s: State, after: Db)
    requires WithinQuota(s) && forall tenant :: NothingNew(s.db.rows, after.rows, tenant)
    ensures WithinQuota(s.(db := after))
  {
    forall tenant, day | tenant in s.limits
      ensures |Occupying(after.rows, tenant, day)| <= s.limits[tenant]
    {
      NothingNewKeepsSize(s.db.rows, after.rows, map[], tenant, day);
    }
  }

  predicate StartsJob(a: Action) {
    a.CreateScan? || a.RenameScan? || a.CancelScan? || a.DeleteScan? || a.ReapScans? || a.ClaimScan? || a.DispatchBegin?
  }

  /** A request or claim stages rows it has locked, each by a legal move. */
  lemma StartKeepsDb(s: State, a: Action)
    requires Inv(s) && Enabled(s, a) && StartsJob(a)
    ensures DbOk(Apply(s, a).db)
  {
    match a
    case CreateScan(sid, id, tenant, name) =>
      StageKeeps(s.db, sid, id, Put(Scan(tenant, name, Pending, None, None, None, None, None)));
    case RenameScan(sid, id, name) =>
      StageKeeps(s.db, sid, id, Put(s.db.rows[id].(name := name)));
    case CancelScan(sid, id, clock) =>
      assert s.db.rows[id].status in AllowedFrom(Cancelled);
      MovedIsLegal(s.db.rows[id], Cancelled, None, None, clock);
      StageKeeps(s.db, sid, id, Put(Moved(s.db.rows[id], Cancelled, None, None, clock)));
    case DeleteScan(sid, id) =>
      StageKeeps(s.db, sid, id, Gone);
    case ReapScans(sid, ids, olderThan) =>
      forall id | id in ids ensures Legal(s.db.rows[id], Reaped(s.db.rows[id], s.now)) {
        ReapedIsLegal(s.db.rows[id], s.now, olderThan);
      }
      StageAllKeeps(s.db, sid, map id | id in ids :: Put(Reaped(s.db.rows[id], s.now)));
    case ClaimScan(sid, got) =>
      if got.Some? {
        ClaimKeepsDb(s, sid, got.value);
      }
    case DispatchBegin(_, _) =>
  }

  lemma ClaimKeepsDb(s: State, sid: Sid, id: ScanId)
    requires Inv(s) && Enabled(s, ClaimScan(sid, Some(id)))
    ensures DbOk(Apply(s, ClaimScan(sid, Some(id))).db)
  {
    var row := s.db.rows[id];
    assert Pending in AllowedFrom(Running);
    MovedIsLegal(row, Running, None, None, s.now);
    assert Free(s.db, sid, id);
    StageKeeps(s.db, sid, id, Put(Moved(row, Running, None, None, s.now)));
  }

  /** The state after a step of `actor` keeps the invariant when the actor's own
      session and everything it may have disturbed do. */
  lemma Assemble(s: State, next: State, actor: Sid)
    requires Inv(s) && next.limits == s.limits && DbOk(next.db) && Frame(s.db, next.db, actor)
    requires next.jobs - {actor} == s.jobs - {actor} && next.execs - {actor} == s.execs - {actor}
    requires actor in next.jobs ==> actor !in next.execs && JobOk(next.db, next.limits, actor, next.jobs[actor])
    requires actor in next.execs ==> ExecOk(next.db, actor, next.execs[actor]) && LeavesDispatch(next.db, actor)
    requires actor in next.db.open ==> actor in next.jobs || actor in next.execs
    requires forall sid | sid in s.jobs && sid != actor :: JobOk(next.db, next.limits, sid, s.jobs[sid])
    requires forall sid | sid in s.execs && sid != actor ::
               ExecOk(next.db, sid, s.execs[sid]) && LeavesDispatch(next.db, sid)
    requires actor in next.jobs && next.jobs[actor].Dispatching? && HoldsTenant(next.jobs[actor], next.jobs[actor].tenant) ==>
               forall sid | sid in s.jobs && sid != actor :: !HoldsTenant(s.jobs[sid], next.jobs[actor].tenant)
    requires WithinQuota(next)
    ensures Inv(next)
  {
    Elsewhere(s.jobs, next.jobs, actor);
    Elsewhere(s.execs, next.execs, actor);
    forall sid | sid in next.db.open ensures sid in next.jobs.Keys + next.execs.Keys {
      assert sid != actor ==> sid in s.db.open;
    }
  }

  lemma Elsewhere<T>(before: map<Sid, T>, after: map<Sid, T>, actor: Sid)
    requires after - {actor} == before - {actor}
    ensures forall sid | sid != actor :: (sid in after <==> sid in before) && (sid in after ==> after[sid] == before[sid])
  {
    forall sid | sid != actor
      ensures (sid in after <==> sid in before) && (sid in after ==> after[sid] == before[sid])
    {
      assert sid in after <==> sid in after - {actor};
      assert sid in before <==> sid in before - {actor};
      assert sid in after ==> after[sid] == (after - {actor})[sid] == (before - {actor})[sid];
    }
  }

  lemma StartedJobOk(s: State, a: Action)
    requires Inv(s) && Enabled(s, a) && StartsJob(a)
    ensures var next := Apply(s, a); JobOk(next.db, next.limits, a.sid, next.jobs[a.sid])
  {
    match a
    case ClaimScan(sid, got) => if got.Some? { ClaimedJobOk(s, sid, got.value); }
    case CreateScan(_, _, _, _) => CreatedJobOk(s, a);
    case ReapScans(sid, ids, olderThan) => ReapedJobOk(s, sid, ids, olderThan);
    case DispatchBegin(_, _) =>
    case _ => WrittenJobOk(s, a);
  }

  lemma ClaimedJobOk(s: State, sid: Sid, id: ScanId)
    requires Inv(s) && Enabled(s, ClaimScan(sid, Some(id)))
    ensures JobOk(Apply(s, ClaimScan(sid, Some(id))).db, s.limits, sid, Claiming(Some(id)))
  {
    var row := Moved(s.db.rows[id], Running, None, None, s.now);
    var staged := Stage(s.db, sid, id, Put(row));
    assert Open(staged, sid) == Tx(map[id := Put(row)], {});
    assert Claimed(s.db.rows, map[id := Put(row)]) == {id};
  }

  lemma CreatedJobOk(s: State, a: Action)
    requires Inv(s) && Enabled(s, a) && a.CreateScan?
    ensures JobOk(Apply(s, a).db, s.limits, a.sid, Writing)
  {
    assert a.id !in s.db.rows;
  }

  lemma WrittenJobOk(s: State, a: Action)
    requires Enabled(s, a) && (a.RenameScan? || a.CancelScan? || a.DeleteScan?)
    ensures JobOk(Apply(s, a).db, s.limits, a.sid, Writing)
  {
  }

  lemma ReapedJobOk(s: State, sid: Sid, ids: set<ScanId>, olderThan: int)
    requires Enabled(s, ReapScans(sid, ids, olderThan))
    ensures JobOk(Apply(s, ReapScans(sid, ids, olderThan)).db, s.limits, sid, Writing)
  {
  }

  lemma StartKeeps(s: State, a: Action)
    requires Inv(s) && Enabled(s, a) && StartsJob(a)
    ensures Inv(Apply(s, a))
  {
    var next := Apply(s, a);
    assert DbOk(next.db) by { StartKeepsDb(s, a); }
    assert JobOk(next.db, next.limits, a.sid, next.jobs[a.sid]) by { StartedJobOk(s, a); }
    StartShape(s, a);
    ReplaceJob(s, a.sid, next.db, next.jobs[a.sid]);
  }

  lemma StartShape(s: State, a: Action)
    requires Enabled(s, a) && StartsJob(a)
    ensures var next := Apply(s, a);
            && next == s.(db := next.db, jobs := s.jobs[a.sid := next.jobs[a.sid]])
            && a.sid !in s.execs && Private(s.db, next.db, a.sid)
            && (next.jobs[a.sid].Dispatching? ==> next.jobs[a.sid].phase.TxBegun?)
  {
  }

  /** A step of one job that stays inside its own transaction. */
  lemma ReplaceJob(s: State, sid: Sid, db: Db, job: Job)
    requires Inv(s) && sid !in s.execs && DbOk(db) && Private(s.db, db, sid) && JobOk(db, s.limits, sid, job)
    requires job.Dispatching? && HoldsTenant(job, job.tenant) ==>
               forall other | other in s.jobs && other != sid :: !HoldsTenant(s.jobs[other], job.tenant)
    ensures Inv(s.(db := db, jobs := s.jobs[sid := job]))
  {
    PrivateFrame(s.db, db, sid);
    OthersKeep(s, db, sid);
    QuotaKept(s, db);
    Assemble(s, s.(db := db, jobs := s.jobs[sid := job]), sid);
  }

  /** A session that ends without committing. */
  lemma DropSession(s: State, sid: Sid)
    requires Inv(s)
    ensures Inv(s.(db := Rollback(s.db, sid), jobs := s.jobs - {sid}, execs := s.execs - {sid}))
  {
    var next := s.(db := Rollback(s.db, sid), jobs := s.jobs - {sid}, execs := s.execs - {sid});
    RollbackKeeps(s.db, sid);
    PrivateFrame(s.db, next.db, sid);
    OthersKeep(s, next.db, sid);
    QuotaKept(s, next.db);
    Assemble(s, next, sid);
  }

  lemma LeaveKeeps(s: State, sid: Sid)
    requires Inv(s) && sid in s.jobs
    ensures Inv(Leave(s, sid))
  {
    DropSession(s, sid);
    assert s.execs - {sid} == s.execs;
  }

  lemma DispatchKeeps(s: State, a: Action)
    requires Inv(s) && Enabled(s, a) && (a.DispatchLock? || a.DispatchUpdate? || a.DispatchCount?)
    ensures Inv(Apply(s, a))
  {
    var sid := a.sid;
    var job := s.jobs[sid];
    assert JobOk(s.db, s.limits, sid, job);
    match a
    case DispatchLock(_) =>
      ReplaceJob(s, sid, s.db, job.(phase := TenantLocked));
    case DispatchUpdate(_) =>
      if CanDispatch(s.db, job.scan) {
        DispatchUpdateKeeps(s, sid, job);
      } else {
        LeaveKeeps(s, sid);
      }
    case DispatchCount(_) =>
      if OverQuota(s.db, s.limits, sid, job) {
        LeaveKeeps(s, sid);
      } else {
        ReplaceJob(s, sid, s.db, job.(phase := QuotaChecked));
      }
  }

  lemma DispatchUpdateKeeps(s: State, sid: Sid, job: Job)
    requires Inv(s) && Enabled(s, DispatchUpdate(sid)) && job == s.jobs[sid] && CanDispatch(s.db, job.scan)
    ensures Inv(Apply(s, DispatchUpdate(sid)))
  {
    assert JobOk(s.db, s.limits, sid, job);
    var row := s.db.rows[job.scan].(dispatchedAt := Some(job.txNow));
    StageKeeps(s.db, sid, job.scan, Put(row));
    ReplaceJob(s, sid, Stage(s.db, sid, job.scan, Put(row)), job.(phase := RowUpdated));
  }

  /** A dispatch that passed its count stays within the quota when it commits:
      its own day was counted, and no other day gains a row. */
  lemma DispatchCommitKeepsQuota(s: State, sid: Sid)
    requires Inv(s) && Enabled(s, CommitJob(sid)) && s.jobs[sid].Dispatching?
    ensures WithinQuota(s.(db := Commit(s.db, sid)))
  {
    var job, rows := s.jobs[sid], Commit(s.db, sid).rows;
    assert JobOk(s.db, s.limits, sid, job) && !OverQuota(s.db, s.limits, sid, job);
    var today := DayStart(job.txNow);
    forall tenant, day | tenant in s.limits
      ensures |Occupying(rows, tenant, day)| <= s.limits[tenant]
    {
      if tenant == job.tenant && day == today {
        SubsetSize(Occupying(rows, tenant, day), Since(rows, tenant, today));
      } else if tenant == job.tenant {
        assert job.scan !in Occupying(rows, tenant, day);
        SubsetSize(Occupying(rows, tenant, day), Occupying(s.db.rows, tenant, day));
      } else {
        DispatchCountsForOneTenant(s.db, sid, job, tenant);
        NothingNewKeepsSize(s.db.rows, rows, map[], tenant, day);
      }
    }
  }

  lemma CommittedJobOk(s: State, sid: Sid)
    requires Inv(s) && Enabled(s, CommitJob(sid))
    ensures var next := Apply(s, CommitJob(sid));
            sid in next.jobs ==> JobOk(next.db, next.limits, sid, next.jobs[sid])
  {
    var job := s.jobs[sid];
    assert JobOk(s.db, s.limits, sid, job);
    CommitEvolves(s.db, sid);
    if job.Claiming? && job.got.Some? {
      assert job.got.value in Claimed(s.db.rows, Open(s.db, sid).writes);
    }
  }

  lemma CommitJobKeeps(s: State, sid: Sid)
    requires Inv(s) && Enabled(s, CommitJob(sid))
    ensures Inv(Apply(s, CommitJob(sid)))
  {
    var db, next := Commit(s.db, sid), Apply(s, CommitJob(sid));
    CommittedJobOk(s, sid);
    CommitShape(s, sid);
    OthersKeepCommit(s, sid);
    assert DbOk(db) by { CommitJobKeepsDb(s, sid); }
    assert Frame(s.db, db, sid) by { CommitFrame(s.db, sid); }
    assert WithinQuota(s.(db := db)) by { CommitKeepsQuota(s, sid); }
    assert next.db == db && next.limits == s.limits;
    assert WithinQuota(next);
    Assemble(s, next, sid);
  }

  lemma CommitJobKeepsDb(s: State, sid: Sid)
    requires Inv(s) && Enabled(s, CommitJob(sid))
    ensures DbOk(Commit(s.db, sid))
  {
    assert JobOk(s.db, s.limits, sid, s.jobs[sid]);
    CommitKeeps(s.db, sid);
  }

  lemma CommitShape(s: State, sid: Sid)
    requires Enabled(s, CommitJob(sid))
    ensures var next := Apply(s, CommitJob(sid));
            && next == s.(db := Commit(s.db, sid), jobs := next.jobs)
            && next.jobs - {sid} == s.jobs - {sid}
            && (sid in next.jobs ==> next.jobs[sid].Ringing?)
            && sid !in next.db.open
  {
  }

  lemma OthersKeepCommit(s: State, sid: Sid)
    requires Inv(s) && Enabled(s, CommitJob(sid))
    ensures forall other | other in s.jobs && other != sid ::
              JobOk(Commit(s.db, sid), s.limits, other, s.jobs[other])
    ensures forall other | other in s.execs && other != sid ::
              ExecOk(Commit(s.db, sid), other, s.execs[other]) && LeavesDispatch(Commit(s.db, sid), other)
  {
    CommitFrame(s.db, sid);
    forall other | other in s.jobs && other != sid && s.jobs[other].Dispatching? && !s.jobs[other].phase.TxBegun?
      ensures NothingNew(s.db.rows, Commit(s.db, sid).rows, s.jobs[other].tenant)
    {
      CommitCountsOnlyLocked(s, sid, s.jobs[other].tenant, other);
    }
    OthersKeep(s, Commit(s.db, sid), sid);
  }

  lemma CommitKeepsQuota(s: State, sid: Sid)
    requires Inv(s) && Enabled(s, CommitJob(sid))
    ensures WithinQuota(s.(db := Commit(s.db, sid)))
  {
    assert JobOk(s.db, s.limits, sid, s.jobs[sid]);
    if s.jobs[sid].Dispatching? {
      DispatchCommitKeepsQuota(s, sid);
    } else {
      forall tenant ensures NothingNew(s.db.rows, Commit(s.db, sid).rows, tenant) {
        CommitCountsNothing(s.db, sid, tenant);
      }
      QuotaKept(s, Commit(s.db, sid));
    }
  }

  lemma CommitCountsOnlyLocked(s: State, sid: Sid, tenant: Tenant, other: Sid)
    requires Inv(s) && Enabled(s, CommitJob(sid)) && other in s.jobs && other != sid && HoldsTenant(s.jobs[other], tenant)
    ensures NothingNew(s.db.rows, Commit(s.db, sid).rows, tenant)
  {
    var job := s.jobs[sid];
    assert JobOk(s.db, s.limits, sid, job);
    if job.Dispatching? {
      DispatchCountsForOneTenant(s.db, sid, job, tenant);
    } else {
      CommitCountsNothing(s.db, sid, tenant);
    }
  }

  lemma StartExecKeeps(s: State, sid: Sid, scan: ScanId, tenant: Tenant, claimed: bool)
    requires Inv(s) && Unused(s, sid)
    requires claimed ==> Taken(s.db, Start(scan, tenant, true))
    ensures Inv(s.(execs := s.execs[sid := Start(scan, tenant, claimed)]))
  {
    var next := s.(execs := s.execs[sid := Start(scan, tenant, claimed)]);
    PrivateFrame(s.db, s.db, sid);
    OthersKeep(s, s.db, sid);
    Assemble(s, next, sid);
  }

  /** Findings written through the API touch no row and no transaction. */
  lemma ApiFindingKeeps(s: State, sid: Sid, found: set<Finding>)
    requires Inv(s) && Unused(s, sid)
    requires forall f | f in found :: f in s.db.found || (f.author.None? && f.scan in s.db.rows)
    ensures Inv(s.(db := s.db.(found := found)))
  {
    var next := s.(db := s.db.(found := found));
    PrivateFrame(s.db, next.db, sid);
    OthersKeep(s, next.db, sid);
    QuotaKept(s, next.db);
    Assemble(s, next, sid);
  }

  /** Every action keeps the invariant. */
  lemma ActionKeeps(s: State, a: Action)
    requires Inv(s) && Enabled(s, a)
    ensures Inv(Apply(s, a))
  {
    if StartsJob(a) {
      StartKeeps(s, a);
    } else {
      match a
      case Tick(until) => TickKeeps(s, until);
      case DispatchLock(_) => DispatchKeeps(s, a);
      case DispatchUpdate(_) => DispatchKeeps(s, a);
      case DispatchCount(_) => DispatchKeeps(s, a);
      case CommitJob(sid) => CommitJobKeeps(s, sid);
      case AbortJob(sid) => LeaveKeeps(s, sid);
      case StartClaimed(job, sid) => StartClaimedKeeps(s, job, sid);
      case StartUnclaimed(sid, scan, tenant) => StartExecKeeps(s, sid, scan, tenant, false);
      case Execute(sid, event, clock) => ExecuteKeeps(s, sid, event, clock);
      case KillWorker(sid) => KillKeeps(s, sid);
      case AddFinding(_, scan, key) => ApiFindingKeeps(s, a.sid, s.db.found + {Finding(scan, key, None)});
      case DropFinding(_, finding) => ApiFindingKeeps(s, a.sid, s.db.found - {finding});
    }
  }

  lemma KillKeeps(s: State, sid: Sid)
    requires Inv(s) && sid in s.execs
    ensures Inv(s.(db := Rollback(s.db, sid), execs := s.execs - {sid}))
  {
    DropSession(s, sid);
    assert s.jobs - {sid} == s.jobs;
  }

  lemma TickKeeps(s: State, until: int)
    requires Inv(s)
    ensures Inv(s.(now := until))
  {
  }

  lemma StartClaimedKeeps(s: State, job: Sid, sid: Sid)
    requires Inv(s) && Enabled(s, StartClaimed(job, sid))
    ensures Inv(Apply(s, StartClaimed(job, sid)))
  {
    var ringing := s.jobs[job];
    var mid := s.(jobs := s.jobs - {job});
    assert JobOk(s.db, s.limits, job, ringing);
    assert Inv(mid) by {
      RingerLeaves(s, job);
    }
    StartExecKeeps(mid, sid, ringing.scan, ringing.tenant, true);
  }

  lemma RingerLeaves(s: State, job: Sid)
    requires Inv(s) && job in s.jobs && s.jobs[job].Ringing?
    ensures Inv(s.(jobs := s.jobs - {job}))
  {
    assert JobOk(s.db, s.limits, job, s.jobs[job]);
    DropSession(s, job);
    assert Rollback(s.db, job) == s.db && s.execs - {job} == s.execs;
  }
}
