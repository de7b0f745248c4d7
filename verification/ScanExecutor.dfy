/** execute_scan as a small-step program over an open transaction
    (app/modules/scans/executor.py). Every await is one step; a step may succeed,
    raise, or be interrupted by a cancellation, with or without having reached
    the database. */
module ScanExecutor {
  import opened Wrappers
  import opened ScanTable
  import opened ScanLocks

  /** The transaction-local row-level-security setting. */
  datatype Context = NoContext | TenantContext(tenant: Tenant)

  datatype Cleanup = FailWith(reason: string) | MarkCancelled

  datatype CleanupStep = DoRollback | DoContext | DoUpdate | DoCommit(matched: bool)

  datatype Outcome =
    | ReturnedCompleted | ReturnedFailed | ReturnedCancelled | ReturnedSkipped
    | RaisedCancelled | RaisedError

  /** Where the executor is suspended. `Cleaning` is the shielded cleanup:
      `guarded` when it runs inside the try block, `interrupted` once a
      cancellation arrived meanwhile. */
  datatype Pc =
    | FirstContext | Load | OwnContext | OwnUpdate | OwnCommit(matched: bool) | RunContext
    | Graph | PersistContext | PersistRead | PersistFlush
    | CompleteUpdate | CompleteCommit | LostRollback
    | Cleaning(kind: Cleanup, step: CleanupStep, guarded: bool, interrupted: bool)
    | Done(outcome: Outcome)

  datatype Exec = Exec(
    scan: ScanId,
    tenant: Tenant,
    claimed: bool,
    pc: Pc,
    context: Context,
    drafts: set<string>,
    seen: set<string>,
    raw: string)

  datatype Event =
    | Success
    | Fault(applied: bool)
    | Cancel(applied: bool)
    | GraphError(reason: string)
    | GraphResult(drafts: set<string>, raw: string)

  const INTERNAL_ERROR := "internal_error"

  function Start(scan: ScanId, tenant: Tenant, claimed: bool): Exec {
    Exec(scan, tenant, claimed, FirstContext, NoContext, {}, {}, "")
  }

  /** The tenant predicate and the row-level policy hide other tenants' rows. */
  predicate Visible(db: Db, x: Exec) {
    x.scan in db.rows && db.rows[x.scan].tenant == x.tenant
  }

  predicate CanMove(db: Db, x: Exec, to: Status) {
    Visible(db, x) && Matches(db.rows[x.scan], to)
  }

  function Goal(kind: Cleanup): Status {
    if kind.FailWith? then Failed else Cancelled
  }

  function Reason(kind: Cleanup): Option<string> {
    if kind.FailWith? then Some(kind.reason) else None
  }

  /** The statements of the program that need the row-level-security setting. */
  predicate RunsStatement(pc: Pc) {
    pc.Load? || pc.OwnUpdate? || pc.PersistRead? || pc.PersistFlush? || pc.CompleteUpdate?
    || (pc.Cleaning? && pc.step.DoUpdate?)
  }

  function NewFindings(sid: Sid, x: Exec): set<Finding> {
    set key | key in x.drafts - x.seen :: Finding(x.scan, key, Some(sid))
  }

  function StageMove(db: Db, sid: Sid, x: Exec, to: Status, reason: Option<string>, raw: Option<string>, clock: int): Db {
    if CanMove(db, x, to)
    then Stage(db, sid, x.scan, Put(Moved(db.rows[x.scan], to, reason, raw, clock)))
    else db
  }

  /** What the statement at the program counter does to the database. */
  function Effect(db: Db, sid: Sid, x: Exec, clock: int): Db {
    match x.pc
    case OwnUpdate => StageMove(db, sid, x, Running, None, None, clock)
    case OwnCommit(_) => Commit(db, sid)
    case PersistFlush => Insert(db, sid, NewFindings(sid, x))
    case CompleteUpdate => StageMove(db, sid, x, Completed, None, Some(x.raw), clock)
    case CompleteCommit => Commit(db, sid)
    case LostRollback => Rollback(db, sid)
    case Cleaning(kind, step, _, _) => (
      match step
      case DoRollback => Rollback(db, sid)
      case DoContext => db
      case DoUpdate => StageMove(db, sid, x, Goal(kind), Reason(kind), None, clock)
      case DoCommit(_) => Commit(db, sid))
    case _ => db
  }

  /** An UPDATE waits for the row lock; an INSERT needs its foreign key, and
      waits for a concurrent DELETE of the referenced row. */
  predicate CanTakeEffect(db: Db, sid: Sid, x: Exec) {
    match x.pc
    case OwnUpdate => Free(db, sid, x.scan)
    case PersistFlush =>
      NewFindings(sid, x) != {} ==> x.scan in db.rows && NotBeingDeleted(db, sid, x.scan)
    case CompleteUpdate => Free(db, sid, x.scan)
    case Cleaning(kind, step, _, _) =>
      step.DoUpdate? ==> Free(db, sid, x.scan) && ValidRequest(Goal(kind), Reason(kind), None)
    case _ => true
  }

  function BeginCleanup(x: Exec, kind: Cleanup, guarded: bool): Exec {
    x.(pc := Cleaning(kind, DoRollback, guarded, false))
  }

  /** `except asyncio.CancelledError`: only a claimed scan is cancelled. */
  function OnCancelled(x: Exec): Exec {
    if x.claimed then BeginCleanup(x, MarkCancelled, false) else x.(pc := Done(RaisedCancelled))
  }

  /** `except Exception`: only a claimed scan is failed. */
  function OnError(x: Exec): Exec {
    if x.claimed then BeginCleanup(x, FailWith(INTERNAL_ERROR), false) else x.(pc := Done(RaisedError))
  }

  /** The cleanup finished: its result, or the cancellation it deferred. */
  function AfterCleanup(x: Exec, kind: Cleanup, matched: bool, guarded: bool, interrupted: bool): Exec {
    if kind.MarkCancelled? || (interrupted && !guarded) then x.(pc := Done(RaisedCancelled))
    else if interrupted then OnCancelled(x)
    else x.(pc := Done(if matched then ReturnedFailed else ReturnedCancelled))
  }

  /** Where the program continues when the awaited step succeeded; `db` is the
      database the step ran against. */
  function Continue(db: Db, x: Exec): Exec
    requires !x.pc.Graph? && !x.pc.Done?
  {
    match x.pc
    case FirstContext => x.(context := TenantContext(x.tenant), pc := Load)
    case Load =>
      if Visible(db, x) then x.(pc := if x.claimed then RunContext else OwnContext)
      else if x.claimed then BeginCleanup(x, FailWith("asset_missing"), true)
      else x.(pc := Done(ReturnedSkipped))
    case OwnContext => x.(context := TenantContext(x.tenant), pc := OwnUpdate)
    case OwnUpdate => x.(pc := OwnCommit(CanMove(db, x, Running)))
    case OwnCommit(matched) =>
      if matched then x.(context := NoContext, claimed := true, pc := RunContext)
      else x.(context := NoContext, pc := Done(ReturnedSkipped))
    case RunContext => x.(context := TenantContext(x.tenant), pc := Graph)
    case PersistContext => x.(context := TenantContext(x.tenant), pc := PersistRead)
    case PersistRead =>
      x.(seen := (set f | f in db.found && f.scan == x.scan :: f.key), pc := PersistFlush)
    case PersistFlush => x.(pc := CompleteUpdate)
    case CompleteUpdate => x.(pc := if CanMove(db, x, Completed) then CompleteCommit else LostRollback)
    case CompleteCommit => x.(context := NoContext, pc := Done(ReturnedCompleted))
    case LostRollback => x.(context := NoContext, pc := Done(ReturnedCancelled))
    case Cleaning(kind, step, guarded, interrupted) =>
      match step
      case DoRollback => x.(context := NoContext, pc := x.pc.(step := DoContext))
      case DoContext => x.(context := TenantContext(x.tenant), pc := x.pc.(step := DoUpdate))
      case DoUpdate => x.(pc := x.pc.(step := DoCommit(CanMove(db, x, Goal(kind)))))
      case DoCommit(matched) =>
        AfterCleanup(x.(context := NoContext), kind, matched, guarded, interrupted)
  }

  /** Where the program continues when the awaited step raised. The graph turns
      an exception of its nodes into an error state. */
  function Raise(x: Exec): Exec
    requires !x.pc.Done?
  {
    if x.pc.PersistContext? || x.pc.PersistRead? || x.pc.PersistFlush? then
      BeginCleanup(x, FailWith(INTERNAL_ERROR), true)
    else if x.pc.Cleaning? && !x.pc.guarded then x.(pc := Done(RaisedError))
    else OnError(x)
  }

  /** A cancellation interrupts an ordinary await and is remembered by a shielded one. */
  function Interrupt(x: Exec): Exec
    requires !x.pc.Done?
  {
    if x.pc.Cleaning? then x.(pc := x.pc.(interrupted := true)) else OnCancelled(x)
  }

  predicate Enabled(db: Db, sid: Sid, x: Exec, event: Event) {
    match event
    case Success => !x.pc.Done? && !x.pc.Graph? && CanTakeEffect(db, sid, x)
    case Fault(applied) => !x.pc.Done? && !x.pc.Graph? && (applied ==> CanTakeEffect(db, sid, x))
    case Cancel(applied) =>
      !x.pc.Done? && (applied ==> !x.pc.Graph? && !x.pc.Cleaning? && CanTakeEffect(db, sid, x))
    case GraphError(reason) => x.pc.Graph? && reason != ""
    case GraphResult(_, _) => x.pc.Graph?
  }

  function Resume(db: Db, x: Exec, event: Event): Exec
    requires !x.pc.Done? && (event.Success? ==> !x.pc.Graph?)
  {
    match event
    case Success => Continue(db, x)
    case Fault(_) => Raise(x)
    case Cancel(_) => Interrupt(x)
    case GraphError(reason) => BeginCleanup(x, FailWith(reason), true)
    case GraphResult(drafts, raw) => x.(drafts := drafts, raw := raw, pc := PersistContext)
  }

  predicate Applies(event: Event) {
    event.Success? || (event.Fault? && event.applied) || (event.Cancel? && event.applied)
  }

  /** One step: the statement's effect, then the control flow. Leaving
      execute_scan closes the session, which discards an open transaction. */
  function Step(db: Db, sid: Sid, x: Exec, event: Event, clock: int): (next: (Db, Exec))
    requires Enabled(db, sid, x, event)
  {
    var moved := if Applies(event) then Effect(db, sid, x, clock) else db;
    var resumed := Resume(db, x, event);
    (if resumed.pc.Done? then Rollback(moved, sid) else moved, resumed)
  }

  // ---- What every executor keeps ----

  /** The scan has left the queue for good, if it still exists. */
  predicate Taken(db: Db, x: Exec) {
    x.scan in db.claims && x.scan in db.born && (x.scan in db.rows ==> db.rows[x.scan].tenant == x.tenant)
  }

  predicate Settled(db: Db, x: Exec) {
    x.scan in db.rows ==> db.rows[x.scan].status in TERMINAL
  }

  predicate HoldsFindings(pc: Pc) {
    pc.CompleteUpdate? || pc.CompleteCommit? || pc.LostRollback? || (pc.Cleaning? && pc.step.DoRollback?)
  }

  predicate HoldsRow(pc: Pc) {
    || (pc.OwnCommit? && pc.matched)
    || pc.CompleteCommit?
    || (pc.Cleaning? && (pc.step.DoRollback? || (pc.step.DoCommit? && pc.step.matched)))
  }

  predicate StagedStatus(db: Db, sid: Sid, x: Exec, status: Status) {
    var writes := Open(db, sid).writes;
    x.scan in writes && writes[x.scan].Put? && writes[x.scan].row.status == status
    && writes[x.scan].row.tenant == x.tenant
  }

  predicate Tidy(db: Db, sid: Sid, x: Exec) {
    var tx := Open(db, sid);
    && tx.writes.Keys <= {x.scan}
    && (forall f | f in tx.adds :: f.scan == x.scan && f.author == Some(sid))
    && (tx.adds != {} ==> HoldsFindings(x.pc))
    && (tx.writes != map[] ==> HoldsRow(x.pc))
  }

  predicate Prepared(db: Db, sid: Sid, x: Exec) {
    && (x.pc.OwnCommit? && x.pc.matched ==>
          StagedStatus(db, sid, x, Running) && x.scan in Claimed(db.rows, Open(db, sid).writes))
    && (x.pc.CompleteCommit? ==>
          StagedStatus(db, sid, x, Completed)
          && x.scan in db.rows && db.rows[x.scan].status == Running
          && NewFindings(sid, x) == Open(db, sid).adds)
    && (x.pc.CompleteUpdate? ==> NewFindings(sid, x) == Open(db, sid).adds)
    && (x.pc.Cleaning? && x.pc.step.DoCommit? ==>
          if x.pc.step.matched then StagedStatus(db, sid, x, Goal(x.pc.kind)) else Settled(db, x))
    && (x.pc.LostRollback? ==> Settled(db, x))
  }

  predicate BeforeClaim(pc: Pc) {
    pc.OwnContext? || pc.OwnUpdate? || pc.OwnCommit?
  }

  predicate AfterClaim(pc: Pc) {
    || pc.RunContext? || pc.Graph? || pc.PersistContext? || pc.PersistRead? || pc.PersistFlush?
    || pc.CompleteUpdate? || pc.CompleteCommit? || pc.LostRollback? || pc.Cleaning?
  }

  predicate Owns(db: Db, x: Exec) {
    && (x.claimed ==> Taken(db, x))
    && (AfterClaim(x.pc) ==> x.claimed)
    && (BeforeClaim(x.pc) ==> !x.claimed)
  }

  /** Every statement runs with the claimed tenant's context. */
  predicate InContext(x: Exec) {
    RunsStatement(x.pc) ==> x.context == TenantContext(x.tenant)
  }

  /** What the result says about the row. */
  predicate Truthful(db: Db, x: Exec) {
    x.pc.Done? ==>
      && (x.pc.outcome in {ReturnedCompleted, ReturnedFailed, ReturnedCancelled} ==> x.claimed)
      && match x.pc.outcome
      case ReturnedCompleted => x.scan in db.rows ==> db.rows[x.scan].status == Completed
      case ReturnedFailed => x.scan in db.rows ==> db.rows[x.scan].status == Failed
      case ReturnedCancelled => Settled(db, x)
      case RaisedCancelled => x.claimed ==> Settled(db, x)
      case _ => true
  }

  predicate ExecOk(db: Db, sid: Sid, x: Exec) {
    Tidy(db, sid, x) && Prepared(db, sid, x) && Owns(db, x) && InContext(x) && Truthful(db, x)
    && (x.pc.Done? ==> sid !in db.open)
  }

  /** A step keeps the database invariant. */
  lemma StepKeepsDb(db: Db, sid: Sid, x: Exec, event: Event, clock: int)
    requires DbOk(db) && ExecOk(db, sid, x) && Enabled(db, sid, x, event)
    ensures DbOk(Step(db, sid, x, event, clock).0)
  {
    if Applies(event) {
      EffectKeepsDb(db, sid, x, clock);
    }
    RollbackKeeps(if Applies(event) then Effect(db, sid, x, clock) else db, sid);
  }

  lemma EffectKeepsDb(db: Db, sid: Sid, x: Exec, clock: int)
    requires DbOk(db) && ExecOk(db, sid, x) && CanTakeEffect(db, sid, x)
    ensures DbOk(Effect(db, sid, x, clock))
  {
    match x.pc
    case OwnUpdate => StageMoveKeeps(db, sid, x, Running, None, None, clock);
    case OwnCommit(_) => CommitKeeps(db, sid);
    case PersistFlush => InsertKeeps(db, sid, NewFindings(sid, x));
    case CompleteUpdate => StageMoveKeeps(db, sid, x, Completed, None, Some(x.raw), clock);
    case CompleteCommit => CommitKeeps(db, sid);
    case LostRollback => RollbackKeeps(db, sid);
    case Cleaning(kind, step, _, _) =>
      match step {
        case DoRollback => RollbackKeeps(db, sid);
        case DoContext =>
        case DoUpdate => StageMoveKeeps(db, sid, x, Goal(kind), Reason(kind), None, clock);
        case DoCommit(_) => CommitKeeps(db, sid);
      }
    case _ =>
  }

  lemma StageMoveKeeps(db: Db, sid: Sid, x: Exec, to: Status, reason: Option<string>, raw: Option<string>, clock: int)
    requires DbOk(db) && Free(db, sid, x.scan)
    requires CanMove(db, x, to) ==> ValidRequest(to, reason, raw)
    ensures DbOk(StageMove(db, sid, x, to, reason, raw, clock))
  {
    if CanMove(db, x, to) {
      var row := db.rows[x.scan];
      assert row.status in AllowedFrom(to);
      MovedIsLegal(row, to, reason, raw, clock);
      StageKeeps(db, sid, x.scan, Put(Moved(row, to, reason, raw, clock)));
    }
  }

  /** What the effect of a step may change, as the executor sees it. */
  predicate Evolves(db: Db, after: Db) {
    && Follows(db.rows, after.rows)
    && db.claims <= after.claims
    && db.born <= after.born
    && forall id | id in after.rows && id !in db.rows :: id !in db.born
  }

  lemma CommitEvolves(db: Db, sid: Sid)
    requires DbOk(db)
    ensures Evolves(db, Commit(db, sid))
  {
    CommitMovesLegally(db, sid);
    forall id | id in Commit(db, sid).rows && id !in db.rows
      ensures id !in db.born
    {
      assert Based(db, id, Open(db, sid).writes[id]);
    }
  }

  lemma SameRowsEvolve(db: Db)
    requires RowsOk(db)
    ensures forall after: Db | after.rows == db.rows && after.claims == db.claims && after.born == db.born :: Evolves(db, after)
  {
  }

  lemma EffectEvolves(db: Db, sid: Sid, x: Exec, clock: int)
    requires DbOk(db)
    ensures Evolves(db, Effect(db, sid, x, clock))
  {
    SameRowsEvolve(db);
    match x.pc
    case OwnCommit(_) => CommitEvolves(db, sid);
    case CompleteCommit => CommitEvolves(db, sid);
    case Cleaning(_, step, _, _) =>
      match step {
        case DoCommit(_) => CommitEvolves(db, sid);
        case _ =>
      }
    case _ =>
  }

  /** The transaction only ever touches the executor's own scan. */
  lemma EffectIsOwn(db: Db, sid: Sid, x: Exec, clock: int)
    requires Tidy(db, sid, x)
    ensures var tx := Open(Effect(db, sid, x, clock), sid);
            && tx.writes.Keys <= {x.scan}
            && forall f | f in tx.adds :: f.scan == x.scan && f.author == Some(sid)
  {
    match x.pc
    case OwnUpdate => StageMoveIsOwn(db, sid, x, Running, None, None, clock);
    case OwnCommit(_) => NothingStaged(db, sid);
    case PersistFlush => InsertIsOwn(db, sid, x);
    case CompleteUpdate => StageMoveIsOwn(db, sid, x, Completed, None, Some(x.raw), clock);
    case CompleteCommit => NothingStaged(db, sid);
    case LostRollback => NothingStaged(db, sid);
    case Cleaning(kind, step, _, _) =>
      match step {
        case DoRollback => NothingStaged(db, sid);
        case DoContext =>
        case DoUpdate => StageMoveIsOwn(db, sid, x, Goal(kind), Reason(kind), None, clock);
        case DoCommit(_) => NothingStaged(db, sid);
      }
    case _ =>
  }

  lemma NothingStaged(db: Db, sid: Sid)
    ensures Open(Commit(db, sid), sid) == Open(Rollback(db, sid), sid) == Tx(map[], {})
  {
  }

  lemma StageMoveIsOwn(db: Db, sid: Sid, x: Exec, to: Status, reason: Option<string>, raw: Option<string>, clock: int)
    ensures var (tx, was) := (Open(StageMove(db, sid, x, to, reason, raw, clock), sid), Open(db, sid));
            tx.writes.Keys <= was.writes.Keys + {x.scan} && tx.adds == was.adds
  {
  }

  lemma InsertIsOwn(db: Db, sid: Sid, x: Exec)
    ensures var (tx, was) := (Open(Insert(db, sid, NewFindings(sid, x)), sid), Open(db, sid));
            && tx.writes == was.writes
            && forall f | f in tx.adds :: f in was.adds || (f.scan == x.scan && f.author == Some(sid))
  {
  }

  /** An exception or a cancellation leads to a rollback or out of the program. */
  lemma AbnormalKeepsExec(db: Db, sid: Sid, x: Exec, event: Event, clock: int)
    requires DbOk(db) && ExecOk(db, sid, x) && Enabled(db, sid, x, event)
    requires event.Fault? || event.Cancel? || event.GraphError? || event.GraphResult?
    ensures var (after, y) := Step(db, sid, x, event, clock); ExecOk(after, sid, y)
  {
    if event.Fault? || event.Cancel? {
      InterruptedKeepsExec(db, sid, x, event, clock);
    }
  }

  lemma InterruptedKeepsExec(db: Db, sid: Sid, x: Exec, event: Event, clock: int)
    requires DbOk(db) && ExecOk(db, sid, x) && Enabled(db, sid, x, event) && (event.Fault? || event.Cancel?)
    ensures var (after, y) := Step(db, sid, x, event, clock); ExecOk(after, sid, y)
  {
    if Applies(event) {
      EffectIsOwn(db, sid, x, clock);
      EffectEvolves(db, sid, x, clock);
      LeavingKeepsExec(db, Effect(db, sid, x, clock), sid, x, Resume(db, x, event));
    } else {
      LeavingKeepsExec(db, db, sid, x, Resume(db, x, event));
    }
  }

  /** On the way out the executor owns at most what it did, and its transaction only
      its own scan. */
  lemma LeavingKeepsExec(db: Db, after: Db, sid: Sid, x: Exec, y: Exec)
    requires ExecOk(db, sid, x) && !x.pc.Done? && (y == Raise(x) || y == Interrupt(x))
    requires db == after || (Evolves(db, after) && !x.pc.Cleaning? && y == Interrupt(x)) || (Evolves(db, after) && y == Raise(x))
    requires var tx := Open(after, sid);
             tx.writes.Keys <= {x.scan} && forall f | f in tx.adds :: f.scan == x.scan && f.author == Some(sid)
    ensures ExecOk(if y.pc.Done? then Rollback(after, sid) else after, sid, y)
  {
    assert Taken(db, x) ==> Taken(after, x);
  }

  /** What a commit does to the one row an executor may have locked. */
  lemma CommitOwnRow(db: Db, sid: Sid, id: ScanId)
    requires Open(db, sid).writes.Keys <= {id}
    ensures var (writes, after) := (Open(db, sid).writes, Commit(db, sid));
            && sid !in after.open
            && db.claims <= after.claims && db.born <= after.born
            && (id in Claimed(db.rows, writes) ==> id in after.claims)
            && (id in writes && writes[id].Put? ==> id in after.rows && after.rows[id] == writes[id].row)
            && (id !in writes && id in db.rows ==> id in after.rows && after.rows[id] == db.rows[id])
            && (id !in writes && id !in db.rows ==> id !in after.rows)
  {
  }

  lemma CleanupStartKeepsExec(db: Db, sid: Sid, x: Exec, clock: int)
    requires ExecOk(db, sid, x) && Enabled(db, sid, x, Success)
    requires x.pc.Cleaning? && (x.pc.step.DoRollback? || x.pc.step.DoContext?)
    ensures var (after, y) := Step(db, sid, x, Success, clock); ExecOk(after, sid, y)
  {
  }

  lemma CleanupUpdateKeepsExec(db: Db, sid: Sid, x: Exec, clock: int)
    requires ClaimedOnce(db)
    requires ExecOk(db, sid, x) && Enabled(db, sid, x, Success)
    requires x.pc.Cleaning? && x.pc.step.DoUpdate?
    ensures var (after, y) := Step(db, sid, x, Success, clock); ExecOk(after, sid, y)
  {
    assert {Running} <= AllowedFrom(Goal(x.pc.kind));
    assert Visible(db, x) && !CanMove(db, x, Goal(x.pc.kind)) ==> Settled(db, x);
  }

  lemma CleanupCommitKeepsExec(db: Db, sid: Sid, x: Exec, clock: int)
    requires ExecOk(db, sid, x) && Enabled(db, sid, x, Success)
    requires x.pc.Cleaning? && x.pc.step.DoCommit?
    ensures var (after, y) := Step(db, sid, x, Success, clock); ExecOk(after, sid, y)
  {
    CommitOwnRow(db, sid, x.scan);
    NothingStaged(db, sid);
    var after := Commit(db, sid);
    var Cleaning(kind, DoCommit(matched), guarded, interrupted) := x.pc;
    assert Taken(after, x) && (if matched then x.scan in after.rows ==> after.rows[x.scan].status == Goal(kind) else Settled(after, x));
    SettledKeepsExec(after, sid, x.(context := NoContext), kind, matched, guarded, interrupted);
  }

  /** After the commit of a cleanup the executor is in order, whichever way it leaves it. */
  lemma SettledKeepsExec(db: Db, sid: Sid, x: Exec, kind: Cleanup, matched: bool, guarded: bool, interrupted: bool)
    requires Taken(db, x) && x.claimed && Open(db, sid) == Tx(map[], {})
    requires if matched then x.scan in db.rows ==> db.rows[x.scan].status == Goal(kind) else Settled(db, x)
    ensures var y := AfterCleanup(x, kind, matched, guarded, interrupted);
            ExecOk(if y.pc.Done? then Rollback(db, sid) else db, sid, y)
  {
    NothingStaged(db, sid);
    assert Settled(db, x);
  }

  lemma PlainKeepsExec(db: Db, sid: Sid, x: Exec, clock: int)
    requires ExecOk(db, sid, x) && Enabled(db, sid, x, Success)
    requires x.pc.FirstContext? || x.pc.Load? || x.pc.OwnContext? || x.pc.RunContext? || x.pc.PersistContext? || x.pc.PersistRead?
    ensures var (after, y) := Step(db, sid, x, Success, clock); ExecOk(after, sid, y)
  {
  }

  lemma StagingKeepsExec(db: Db, sid: Sid, x: Exec, clock: int)
    requires ClaimedOnce(db)
    requires ExecOk(db, sid, x) && Enabled(db, sid, x, Success)
    requires x.pc.OwnUpdate? || x.pc.PersistFlush? || x.pc.CompleteUpdate?
    ensures var (after, y) := Step(db, sid, x, Success, clock); ExecOk(after, sid, y)
  {
    assert Running in AllowedFrom(Completed);
    assert x.pc.PersistFlush? ==> Open(db, sid).adds == {};
  }

  lemma OwnCommitKeepsExec(db: Db, sid: Sid, x: Exec, clock: int)
    requires ExecOk(db, sid, x) && Enabled(db, sid, x, Success)
    requires x.pc.OwnCommit?
    ensures var (after, y) := Step(db, sid, x, Success, clock); ExecOk(after, sid, y)
  {
    CommitOwnRow(db, sid, x.scan);
    var after := Commit(db, sid);
    assert Open(after, sid) == Tx(map[], {});
    assert x.pc.matched ==> Taken(after, x);
  }

  lemma CompleteCommitKeepsExec(db: Db, sid: Sid, x: Exec, clock: int)
    requires ExecOk(db, sid, x) && Enabled(db, sid, x, Success)
    requires x.pc.CompleteCommit?
    ensures var (after, y) := Step(db, sid, x, Success, clock); ExecOk(after, sid, y)
  {
    CommitOwnRow(db, sid, x.scan);
    var after := Commit(db, sid);
    assert Taken(after, x) && after.rows[x.scan].status == Completed;
  }

  lemma LostRollbackKeepsExec(db: Db, sid: Sid, x: Exec, clock: int)
    requires ExecOk(db, sid, x) && Enabled(db, sid, x, Success)
    requires x.pc.LostRollback?
    ensures var (after, y) := Step(db, sid, x, Success, clock); ExecOk(after, sid, y)
  {
  }

  /** A step keeps the executor's own invariant. */
  lemma StepKeepsExec(db: Db, sid: Sid, x: Exec, event: Event, clock: int)
    requires DbOk(db) && ExecOk(db, sid, x) && Enabled(db, sid, x, event)
    ensures var (after, y) := Step(db, sid, x, event, clock); ExecOk(after, sid, y)
  {
    if !event.Success? {
      AbnormalKeepsExec(db, sid, x, event, clock);
    } else {
      match x.pc
      case Cleaning(_, step, _, _) =>
        match step {
          case DoUpdate => CleanupUpdateKeepsExec(db, sid, x, clock);
          case DoCommit(_) => CleanupCommitKeepsExec(db, sid, x, clock);
          case _ => CleanupStartKeepsExec(db, sid, x, clock);
        }
      case OwnUpdate => StagingKeepsExec(db, sid, x, clock);
      case PersistFlush => StagingKeepsExec(db, sid, x, clock);
      case CompleteUpdate => StagingKeepsExec(db, sid, x, clock);
      case OwnCommit(_) => OwnCommitKeepsExec(db, sid, x, clock);
      case CompleteCommit => CompleteCommitKeepsExec(db, sid, x, clock);
      case LostRollback => LostRollbackKeepsExec(db, sid, x, clock);
      case _ => PlainKeepsExec(db, sid, x, clock);
    }
  }

  /** Another session's step keeps it too, as long as rows move legally, the
      rows this session locked stay put and its transaction is untouched. */
  lemma OthersKeepExec(db: Db, after: Db, sid: Sid, x: Exec)
    requires DbOk(db) && ExecOk(db, sid, x)
    requires Evolves(db, after)
    requires forall id | id in Open(db, sid).writes && id in db.rows :: id in after.rows && after.rows[id] == db.rows[id]
    requires Open(after, sid) == Open(db, sid) && (sid in after.open <==> sid in db.open)
    ensures ExecOk(after, sid, x)
  {
  }
}
