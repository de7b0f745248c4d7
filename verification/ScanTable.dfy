/** The scan rows and the conditional UPDATEs that change them
    (app/modules/scans/state.py). A row changes status only along the transition
    map; every other module changes rows through the functions of this one. */
module ScanTable {
  import opened Wrappers

  type ScanId = nat
  type Tenant = nat

  datatype Status = Pending | Running | Completed | Failed | Cancelled

  datatype Scan = Scan(
    tenant: Tenant,
    name: string,
    status: Status,
    dispatchedAt: Option<int>,
    startedAt: Option<int>,
    completedAt: Option<int>,
    failureReason: Option<string>,
    rawOutput: Option<string>)

  type Table = map<ScanId, Scan>

  const TERMINAL: set<Status> := {Completed, Failed, Cancelled}
  const MAX_REASON := 64

  /** The transition map: which statuses a status may move to. */
  function Targets(from: Status): set<Status> {
    match from
    case Pending => {Running, Cancelled, Failed}
    case Running => {Completed, Failed, Cancelled}
    case _ => {}
  }

  /** The reverse index, derived from the map and never maintained by hand. */
  function AllowedFrom(to: Status): set<Status> {
    set s | s in {Pending, Running, Completed, Failed, Cancelled} && to in Targets(s)
  }

  function ParseStatus(text: string): Option<Status> {
    if text == "pending" then Some(Pending)
    else if text == "running" then Some(Running)
    else if text == "completed" then Some(Completed)
    else if text == "failed" then Some(Failed)
    else if text == "cancelled" then Some(Cancelled)
    else None
  }

  lemma StatusNames(text: string)
    ensures ParseStatus(text) == Some(Pending) <==> text == "pending"
    ensures ParseStatus(text) == Some(Running) <==> text == "running"
    ensures ParseStatus(text) == Some(Completed) <==> text == "completed"
    ensures ParseStatus(text) == Some(Failed) <==> text == "failed"
    ensures ParseStatus(text) == Some(Cancelled) <==> text == "cancelled"
  {
    assert |"pending"| == 7 && |"completed"| == 9 && |"failed"| == 6 && |"running"| == 7 && "pending"[0] != "running"[0];
    assert |"cancelled"| == 9 && "cancelled"[1] != "completed"[1];
  }

  /** The argument checks that raise before any statement is sent. */
  predicate ValidRequest(to: Status, reason: Option<string>, raw: Option<string>) {
    && AllowedFrom(to) != {}
    && (to == Failed <==> reason.Some?)
    && (reason.Some? ==> 0 < |reason.value| <= MAX_REASON)
    && (raw.Some? ==> to in {Completed, Failed})
  }

  /** The WHERE clause of the conditional UPDATE. */
  predicate Matches(row: Scan, to: Status) {
    row.status in AllowedFrom(to) && (to == Running ==> row.dispatchedAt.Some?)
  }

  /** The SET clause of the conditional UPDATE. */
  function Moved(row: Scan, to: Status, reason: Option<string>, raw: Option<string>, clock: int): Scan {
    row.(
      status := to,
      rawOutput := if raw.Some? then raw else row.rawOutput,
      startedAt := if to == Running then Some(clock) else row.startedAt,
      completedAt := if to in TERMINAL then Some(clock) else row.completedAt,
      failureReason := if to == Failed then reason else row.failureReason)
  }

  predicate Ready(row: Scan) {
    row.status == Pending && row.dispatchedAt.Some?
  }

  /** ORDER BY dispatched_at, id. */
  predicate Before(rows: Table, a: ScanId, b: ScanId)
    requires a in rows && Ready(rows[a]) && b in rows && Ready(rows[b])
  {
    var da, db := rows[a].dispatchedAt.value, rows[b].dispatchedAt.value;
    da < db || (da == db && a <= b)
  }

  function ReadySet(rows: Table): set<ScanId> {
    set id | id in rows && Ready(rows[id])
  }

  /** The row the claim's subselect returns: the first ready row no other
      session has locked. */
  predicate Oldest(rows: Table, locked: set<ScanId>, id: ScanId) {
    && id in ReadySet(rows) - locked
    && forall other | other in ReadySet(rows) - locked :: Before(rows, id, other)
  }

  predicate Stale(row: Scan, now: int, olderThan: int) {
    row.status == Running && row.startedAt.Some? && row.startedAt.value <= now - olderThan
  }

  function Reaped(row: Scan, now: int): Scan {
    row.(status := Failed, failureReason := Some("worker_lost"), completedAt := Some(now))
  }

  /** What a row looks like between commits, whoever wrote it last. */
  predicate RowOk(row: Scan) {
    && (row.status == Pending ==> row.startedAt.None?)
    && (row.status in {Running, Completed} ==> row.startedAt.Some? && row.dispatchedAt.Some?)
    && (row.status in TERMINAL <==> row.completedAt.Some?)
    && (row.status == Failed <==> row.failureReason.Some?)
    && (row.rawOutput.Some? ==> row.status in {Completed, Failed})
  }

  /** A row may follow another in one commit: the status moves along the map,
      dispatch happens once and before the claim, the start is stamped by the
      claim, and the outcome columns move only with the status. */
  predicate Legal(row: Scan, next: Scan) {
    && next.tenant == row.tenant
    && (next.status == row.status || next.status in Targets(row.status))
    && (next.dispatchedAt == row.dispatchedAt
        || (row.status == Pending && next.status == Pending && row.dispatchedAt.None?))
    && (next.startedAt == row.startedAt || (row.status == Pending && next.status == Running))
    && (next.status == row.status ==>
          && next.completedAt == row.completedAt
          && next.failureReason == row.failureReason
          && next.rawOutput == row.rawOutput)
    && (row.status == Pending && next.status == Running ==> row.dispatchedAt.Some?)
    && RowOk(next)
  }

  /** The conditional UPDATE only makes legal moves. */
  lemma MovedIsLegal(row: Scan, to: Status, reason: Option<string>, raw: Option<string>, clock: int)
    requires RowOk(row) && ValidRequest(to, reason, raw) && Matches(row, to)
    ensures Legal(row, Moved(row, to, reason, raw, clock))
    ensures row.status !in TERMINAL
  {
    assert row.status in {Pending, Running};
  }

  lemma ReapedIsLegal(row: Scan, now: int, olderThan: int)
    requires RowOk(row) && Stale(row, now, olderThan)
    ensures Legal(row, Reaped(row, now))
  {
  }

  /** Rows follow one another by legal moves; deleted rows do not come back. */
  predicate Follows(rows: Table, next: Table) {
    forall id | id in rows && id in next :: Legal(rows[id], next[id])
  }

  /** Legality is transitive on what matters over a run: a terminal row keeps
      its status, times and outcome through any number of legal moves. */
  lemma {:induction false} TerminalIsFinal(history: seq<Scan>)
    requires |history| > 0 && history[0].status in TERMINAL
    requires forall i | 0 <= i < |history| - 1 :: Legal(history[i], history[i + 1])
    ensures forall i | 0 <= i < |history| ::
              && history[i].status == history[0].status
              && history[i].dispatchedAt == history[0].dispatchedAt
              && history[i].startedAt == history[0].startedAt
              && history[i].completedAt == history[0].completedAt
              && history[i].failureReason == history[0].failureReason
              && history[i].rawOutput == history[0].rawOutput
  {
    if |history| > 1 {
      TerminalIsFinal(history[..|history| - 1]);
      assert Legal(history[|history| - 2], history[|history| - 1]);
    }
  }

  /** A non-empty set of ready rows has exactly one oldest member. */
  lemma {:induction false} OldestExists(rows: Table, locked: set<ScanId>)
    requires ReadySet(rows) - locked != {}
    ensures exists id :: Oldest(rows, locked, id)
    decreases |ReadySet(rows) - locked|
  {
    var free := ReadySet(rows) - locked;
    var pick :| pick in free;
    if free == {pick} {
      assert Oldest(rows, locked, pick);
    } else {
      assert ReadySet(rows) - (locked + {pick}) == free - {pick};
      OldestExists(rows, locked + {pick});
      var rest :| Oldest(rows, locked + {pick}, rest);
      assert free == ReadySet(rows) - (locked + {pick}) + {pick};
      assert Before(rows, pick, pick);
      assert Oldest(rows, locked, if Before(rows, pick, rest) then pick else rest);
    }
  }

  /** What the order of the queue means for the row that is claimed. */
  lemma OldestWaitsLongest(rows: Table, locked: set<ScanId>, id: ScanId)
    requires Oldest(rows, locked, id)
    ensures id in rows && id !in locked && rows[id].status == Pending && rows[id].dispatchedAt.Some?
    ensures forall other | other in rows && other !in locked && rows[other].status == Pending && rows[other].dispatchedAt.Some? ::
              var mine, theirs := rows[id].dispatchedAt.value, rows[other].dispatchedAt.value;
              mine < theirs || (mine == theirs && id <= other)
  {
    forall other | other in rows && other !in locked && rows[other].status == Pending && rows[other].dispatchedAt.Some?
      ensures Before(rows, id, other)
    {
      assert other in ReadySet(rows) - locked;
    }
  }

  lemma OldestIsUnique(rows: Table, locked: set<ScanId>, a: ScanId, b: ScanId)
    requires Oldest(rows, locked, a) && Oldest(rows, locked, b)
    ensures a == b
  {
  }

  datatype TransitionError = UnknownStatus | Unreachable | ReasonMissing | ReasonMisplaced | ReasonTooLong | RawMisplaced

  lemma PendingIsUnreachable(to: Status)
    ensures AllowedFrom(to) == {} <==> to == Pending
  {
    assert to != Pending ==> Running in AllowedFrom(to) || Pending in AllowedFrom(to);
  }

  /** The first check that fails, if any does. */
  function RequestError(to: Status, reason: Option<string>, raw: Option<string>): (error: Option<TransitionError>)
    ensures error.None? <==> ValidRequest(to, reason, raw)
  {
    PendingIsUnreachable(to);
    if AllowedFrom(to) == {} then Some(Unreachable)
    else if to == Failed && (reason.None? || reason.value == "") then Some(ReasonMissing)
    else if to != Failed && reason.Some? then Some(ReasonMisplaced)
    else if reason.Some? && |reason.value| > MAX_REASON then Some(ReasonTooLong)
    else if raw.Some? && to !in {Completed, Failed} then Some(RawMisplaced)
    else None
  }

  /** Every status change of a row goes through this store. */
  class ScanStore {
    var rows: Table

    constructor (rows: Table)
      ensures this.rows == rows
    {
      this.rows := rows;
    }

    /** True iff the row existed in an allowed status and was moved; an invalid
        request raises and touches nothing; no other row changes. */
    method TransitionScan(id: ScanId, to: string, reason: Option<string>, raw: Option<string>, clock: int)
      returns (r: Result<bool, TransitionError>)
      modifies this
      ensures r.Ok? ==> ParseStatus(to).Some? && ValidRequest(ParseStatus(to).value, reason, raw)
      ensures r.Err? ==> rows == old(rows)
      ensures r == if ParseStatus(to).None? then Err(UnknownStatus)
                   else if ParseStatus(to) == Some(Pending) then Err(Unreachable)
                   else if ParseStatus(to) == Some(Failed) && (reason.None? || |reason.value| == 0) then Err(ReasonMissing)
                   else if ParseStatus(to) != Some(Failed) && reason.Some? then Err(ReasonMisplaced)
                   else if reason.Some? && |reason.value| > 64 then Err(ReasonTooLong)
                   else if raw.Some? && ParseStatus(to) !in {Some(Completed), Some(Failed)} then Err(RawMisplaced)
                   else Ok(&& id in old(rows)
                           && match old(rows)[id].status
                              case Pending => || ParseStatus(to) in {Some(Cancelled), Some(Failed)}
                                              || (ParseStatus(to) == Some(Running) && old(rows)[id].dispatchedAt.Some?)
                              case Running => ParseStatus(to) in {Some(Completed), Some(Failed), Some(Cancelled)}
                              case _ => false)
      ensures r.Ok? && !r.value ==> rows == old(rows)
      ensures r.Ok? && r.value ==>
                var was := old(rows)[id];
                && rows.Keys == old(rows).Keys
                && (forall other | other in rows && other != id :: rows[other] == old(rows)[other])
                && rows[id].(status := was.status, rawOutput := was.rawOutput, startedAt := was.startedAt,
                             completedAt := was.completedAt, failureReason := was.failureReason) == was
                && ParseStatus(to) == Some(rows[id].status)
                && rows[id].rawOutput == (if raw.Some? then raw else was.rawOutput)
                && rows[id].failureReason == (if ParseStatus(to) == Some(Failed) then reason else was.failureReason)
                && rows[id].startedAt == (if ParseStatus(to) == Some(Running) then Some(clock) else was.startedAt)
                && rows[id].completedAt == (if ParseStatus(to) != Some(Running) then Some(clock) else was.completedAt)
    {
      var target := ParseStatus(to);
      forall status ensures AllowedFrom(status) == {} <==> status == Pending {
        PendingIsUnreachable(status);
      }
      if target.None? {
        return Err(UnknownStatus);
      }
      var error := RequestError(target.value, reason, raw);
      if error.Some? {
        return Err(error.value);
      }
      if id in rows && Matches(rows[id], target.value) {
        rows := rows[id := Moved(rows[id], target.value, reason, raw, clock)];
        return Ok(true);
      }
      return Ok(false);
    }

    /** Claims the first ready row that no other session has locked. */
    method ClaimNext(locked: set<ScanId>, now: int) returns (claimed: Option<(ScanId, Tenant)>)
      modifies this
      ensures claimed.None? <==>
                forall id | id in old(rows) && old(rows)[id].status == Pending && old(rows)[id].dispatchedAt.Some? :: id in locked
      ensures claimed.None? ==> rows == old(rows)
      ensures claimed.Some? ==>
                var (id, tenant) := claimed.value;
                && id in old(rows) && id !in locked && old(rows)[id].status == Pending && old(rows)[id].dispatchedAt.Some?
                && (forall other | other in old(rows) && other !in locked
                                   && old(rows)[other].status == Pending && old(rows)[other].dispatchedAt.Some? ::
                      var mine, theirs := old(rows)[id].dispatchedAt.value, old(rows)[other].dispatchedAt.value;
                      mine < theirs || (mine == theirs && id <= other))
                && tenant == old(rows)[id].tenant
                && rows == old(rows)[id := old(rows)[id].(status := Running, startedAt := Some(now))]
                && Oldest(old(rows), locked, id) && ReadySet(rows) == ReadySet(old(rows)) - {id}
    {
      if ReadySet(rows) <= locked {
        return None;
      }
      assert exists id | id in ReadySet(rows) :: id in ReadySet(rows) - locked;
      OldestExists(rows, locked);
      var id :| id in ReadySet(rows) && Oldest(rows, locked, id);
      OldestWaitsLongest(rows, locked, id);
      var row := rows[id];
      rows := rows[id := Moved(row, Running, None, None, now)];
      return Some((id, row.tenant));
    }

    /** Fails every stale running row and nothing else; reports how many. */
    method ReapStale(now: int, olderThan: int) returns (r: Result<nat, string>)
      modifies this
      ensures r.Err? <==> olderThan <= 0
      ensures r.Err? ==> rows == old(rows)
      ensures r.Ok? ==>
                var lost := set id | id in old(rows) && old(rows)[id].status == Running && old(rows)[id].startedAt.Some?
                                     && old(rows)[id].startedAt.value + olderThan <= now;
                && r.value == |lost|
                && rows.Keys == old(rows).Keys
                && forall id | id in rows ::
                     rows[id] == if id in lost
                                 then old(rows)[id].(status := Failed, failureReason := Some("worker_lost"), completedAt := Some(now))
                                 else old(rows)[id]
    {
      if olderThan <= 0 {
        return Err("older_than_seconds must be positive");
      }
      var stale := set id | id in rows && Stale(rows[id], now, olderThan);
      assert stale == set id | id in rows && rows[id].status == Running && rows[id].startedAt.Some?
                               && rows[id].startedAt.value + olderThan <= now;
      rows := map id | id in rows :: if id in stale then Reaped(rows[id], now) else rows[id];
      return Ok(|stale|);
    }

    /** How many bells the pump rings: the ready rows, up to a limit. */
    method CountReady(limit: int) returns (r: Result<nat, string>)
      ensures r.Err? <==> limit <= 0
      ensures r.Ok? ==>
                var waiting := set id | id in rows && rows[id].status == Pending && rows[id].dispatchedAt.Some?;
                r.value == (if |waiting| < limit then |waiting| else limit) && waiting == ReadySet(rows)
    {
      if limit <= 0 {
        return Err("limit must be positive");
      }
      var count := |ReadySet(rows)|;
      assert ReadySet(rows) == set id | id in rows && rows[id].status == Pending && rows[id].dispatchedAt.Some?;
      return Ok(if count < limit then count else limit);
    }
  }
}
