/** PostgreSQL as the scan protocol sees it: committed rows and findings, and one
    open transaction per session whose row writes lock those rows until commit. */
module ScanLocks {
  import opened Wrappers
  import opened ScanTable

  type Sid = nat

  datatype Write = Put(row: Scan) | Gone

  /** A vulnerability row, reduced to its identity inside the scan. `author` is
      the executor session that wrote it, or None for an API request. */
  datatype Finding = Finding(scan: ScanId, key: string, author: Option<Sid>)

  datatype Tx = Tx(writes: map<ScanId, Write>, adds: set<Finding>)

  /** `claims` counts the committed pending-to-running moves of each scan and
      `born` holds every id ever committed; no statement reads either. */
  datatype Db = Db(
    rows: Table,
    found: set<Finding>,
    open: map<Sid, Tx>,
    claims: multiset<ScanId>,
    born: set<ScanId>)

  function Open(db: Db, sid: Sid): Tx {
    if sid in db.open then db.open[sid] else Tx(map[], {})
  }

  /** No other session holds the row lock. */
  predicate Free(db: Db, sid: Sid, id: ScanId) {
    forall other | other in db.open && other != sid :: id !in db.open[other].writes
  }

  /** Rows locked by sessions other than `sid`: what SKIP LOCKED skips. */
  function LockedFor(db: Db, sid: Sid): set<ScanId> {
    set other, id | other in db.open && other != sid && id in db.open[other].writes :: id
  }

  /** No other session has an uncommitted finding that references the row: its
      foreign key share lock would block a DELETE. */
  predicate Unreferenced(db: Db, sid: Sid, id: ScanId) {
    forall other | other in db.open && other != sid ::
      forall f | f in db.open[other].adds :: f.scan != id
  }

  /** No other session is deleting the row a finding would reference. */
  predicate NotBeingDeleted(db: Db, sid: Sid, id: ScanId) {
    forall other | other in db.open && other != sid ::
      id in db.open[other].writes ==> db.open[other].writes[id].Put?
  }

  function Stage(db: Db, sid: Sid, id: ScanId, w: Write): Db {
    var tx := Open(db, sid);
    db.(open := db.open[sid := tx.(writes := tx.writes[id := w])])
  }

  function StageAll(db: Db, sid: Sid, writes: map<ScanId, Write>): Db {
    var tx := Open(db, sid);
    db.(open := db.open[sid := tx.(writes := tx.writes + writes)])
  }

  function Insert(db: Db, sid: Sid, added: set<Finding>): Db {
    var tx := Open(db, sid);
    db.(open := db.open[sid := tx.(adds := tx.adds + added)])
  }

  function Rollback(db: Db, sid: Sid): Db {
    db.(open := db.open - {sid})
  }

  function Overlay(rows: Table, writes: map<ScanId, Write>): Table {
    map id | id in rows.Keys + writes.Keys && (id in writes ==> writes[id].Put?) ::
      if id in writes then writes[id].row else rows[id]
  }

  function Claimed(rows: Table, writes: map<ScanId, Write>): set<ScanId> {
    set id | id in writes && id in rows && writes[id].Put?
             && rows[id].status == Pending && writes[id].row.status == Running
  }

  /** COMMIT: row writes and findings land together; deleting a scan cascades to
      its findings. */
  function Commit(db: Db, sid: Sid): Db {
    var tx := Open(db, sid);
    var rows := Overlay(db.rows, tx.writes);
    db.(rows := rows,
        found := (set f | f in db.found + tx.adds && f.scan in rows),
        open := db.open - {sid},
        claims := db.claims + multiset(Claimed(db.rows, tx.writes)),
        born := db.born + rows.Keys)
  }

  /** A write is based on the committed row it locks. */
  predicate Based(db: Db, id: ScanId, w: Write) {
    match w
    case Gone => true
    case Put(row) =>
      if id in db.rows then Legal(db.rows[id], row)
      else RowOk(row) && row.status == Pending && row.dispatchedAt.None? && id !in db.born
  }

  predicate Exclusive(db: Db) {
    forall a, b | a in db.open && b in db.open && a != b ::
      db.open[a].writes.Keys !! db.open[b].writes.Keys
  }

  predicate AllBased(db: Db) {
    forall a | a in db.open :: forall id | id in db.open[a].writes :: Based(db, id, db.open[a].writes[id])
  }

  predicate References(db: Db) {
    forall a | a in db.open ::
      forall f | f in db.open[a].adds ::
        f.scan in db.rows && NotBeingDeleted(db, a, f.scan)
  }

  predicate RowsOk(db: Db) {
    forall id | id in db.rows :: RowOk(db.rows[id]) && id in db.born
  }

  predicate ClaimedOnce(db: Db) {
    forall id | id in db.claims ::
      db.claims[id] == 1 && id in db.born && (id in db.rows ==> db.rows[id].status != Pending)
  }

  /** The time stamps of a row tell whether it has ever been claimed. */
  predicate StartedIffClaimed(db: Db) {
    forall id | id in db.rows ::
      && (db.rows[id].startedAt.Some? <==> id in db.claims)
      && (id in db.claims ==> db.rows[id].dispatchedAt.Some?)
  }

  /** Executor findings are visible only beside a completed scan. */
  predicate FindingsAnchored(db: Db) {
    forall f | f in db.found ::
      f.scan in db.rows && (f.author.Some? ==> db.rows[f.scan].status == Completed)
  }

  predicate DbOk(db: Db) {
    Exclusive(db) && AllBased(db) && References(db) && RowsOk(db) && ClaimedOnce(db) && StartedIffClaimed(db) && FindingsAnchored(db)
  }

  /** What a transaction must satisfy before it may commit findings. */
  predicate Completes(db: Db, sid: Sid) {
    var tx := Open(db, sid);
    forall f | f in tx.adds && f.author.Some? ::
      f.scan in tx.writes && tx.writes[f.scan].Put? && tx.writes[f.scan].row.status == Completed
  }

  lemma StageKeeps(db: Db, sid: Sid, id: ScanId, w: Write)
    requires DbOk(db) && Free(db, sid, id) && Based(db, id, w)
    requires w.Gone? ==> Unreferenced(db, sid, id)
    ensures DbOk(Stage(db, sid, id, w))
  {
    var after := Stage(db, sid, id, w);
    forall a, f | a in after.open && f in after.open[a].adds
      ensures f.scan in after.rows && NotBeingDeleted(after, a, f.scan)
    {
      assert f in Open(db, a).adds;
    }
  }

  lemma StageAllKeeps(db: Db, sid: Sid, writes: map<ScanId, Write>)
    requires DbOk(db)
    requires forall id | id in writes :: Free(db, sid, id) && Based(db, id, writes[id]) && writes[id].Put?
    ensures DbOk(StageAll(db, sid, writes))
  {
    var after := StageAll(db, sid, writes);
    forall a, f | a in after.open && f in after.open[a].adds
      ensures f.scan in after.rows && NotBeingDeleted(after, a, f.scan)
    {
      assert f in Open(db, a).adds;
    }
  }

  lemma InsertKeeps(db: Db, sid: Sid, added: set<Finding>)
    requires DbOk(db)
    requires forall f | f in added :: f.scan in db.rows && NotBeingDeleted(db, sid, f.scan)
    ensures DbOk(Insert(db, sid, added))
  {
    var after := Insert(db, sid, added);
    forall a, f | a in after.open && f in after.open[a].adds
      ensures f.scan in after.rows && NotBeingDeleted(after, a, f.scan)
    {
      assert f in Open(db, a).adds || (a == sid && f in added);
    }
  }

  lemma RollbackKeeps(db: Db, sid: Sid)
    requires DbOk(db)
    ensures DbOk(Rollback(db, sid))
  {
  }

  /** A commit moves every row legally, leaves rows it did not lock alone, and
      never lets two sessions commit the same claim. */
  lemma CommitMovesLegally(db: Db, sid: Sid)
    requires DbOk(db)
    ensures Follows(db.rows, Commit(db, sid).rows)
    ensures forall id | id in db.rows && id !in Open(db, sid).writes ::
              id in Commit(db, sid).rows && Commit(db, sid).rows[id] == db.rows[id]
    ensures RowsOk(Commit(db, sid)) && ClaimedOnce(Commit(db, sid))
  {
    var after := Commit(db, sid);
    forall id | id in db.rows && id in after.rows
      ensures Legal(db.rows[id], after.rows[id])
    {
      if id in Open(db, sid).writes {
        assert Based(db, id, Open(db, sid).writes[id]);
      }
    }
    forall id | id in after.claims
      ensures after.claims[id] == 1 && id in after.born
      ensures id in after.rows ==> after.rows[id].status != Pending
    {
      if id in Open(db, sid).writes {
        assert Based(db, id, Open(db, sid).writes[id]);
      }
    }
    forall id | id in after.rows
      ensures RowOk(after.rows[id]) && id in after.born
    {
      if id in Open(db, sid).writes {
        assert Based(db, id, Open(db, sid).writes[id]);
      }
    }
  }

  /** Exactly the committed claims stamp a start. */
  lemma CommitStampsClaims(db: Db, sid: Sid)
    requires DbOk(db)
    ensures StartedIffClaimed(Commit(db, sid))
  {
    var after, writes := Commit(db, sid), Open(db, sid).writes;
    forall id | id in after.rows
      ensures after.rows[id].startedAt.Some? <==> id in after.claims
      ensures id in after.claims ==> after.rows[id].dispatchedAt.Some?
    {
      if id in writes {
        assert Based(db, id, writes[id]);
        assert id in after.claims <==> id in db.claims || id in Claimed(db.rows, writes);
      }
    }
  }

  lemma CommitKeeps(db: Db, sid: Sid)
    requires DbOk(db) && Completes(db, sid)
    ensures DbOk(Commit(db, sid))
  {
    var after, tx := Commit(db, sid), Open(db, sid);
    CommitMovesLegally(db, sid);
    CommitStampsClaims(db, sid);
    forall a, id | a in after.open && id in after.open[a].writes
      ensures Based(after, id, after.open[a].writes[id])
    {
      assert Based(db, id, db.open[a].writes[id]);
      assert id !in tx.writes;
    }
    forall a, f | a in after.open && f in after.open[a].adds
      ensures f.scan in after.rows && NotBeingDeleted(after, a, f.scan)
    {
      assert f in db.open[a].adds && NotBeingDeleted(db, a, f.scan);
    }
    forall f | f in after.found && f.author.Some?
      ensures after.rows[f.scan].status == Completed
    {
      if f in db.found && f.scan in tx.writes {
        assert Based(db, f.scan, tx.writes[f.scan]);
      }
    }
  }
}
