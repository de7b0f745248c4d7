/** The pump and the bells it rings (app/worker/tasks.py): PostgreSQL is the
    queue, a bell only wakes a worker, and a lost bell costs nothing but time. */
module ScanPump {
  import opened Wrappers
  import opened ScanTable

  const PUMP_MAX_BELLS := 10

  // ---- First in, first out ----

  /** Pending, dispatched, and dispatched no later than the other, on equal times with
      the smaller id. */
  predicate WaitsFirst(rows: Table, a: ScanId, b: ScanId) {
    && a in rows && b in rows && rows[a].status == Pending && rows[b].status == Pending
    && rows[a].dispatchedAt.Some? && rows[b].dispatchedAt.Some?
    && rows[a].dispatchedAt.value <= rows[b].dispatchedAt.value
    && (rows[a].dispatchedAt == rows[b].dispatchedAt ==> a <= b)
  }

  /** `claimed` is the front of the queue of `rows`, in queue order. */
  ghost predicate FrontOfQueue(rows: Table, claimed: seq<ScanId>) {
    && (forall i | 0 <= i < |claimed| :: claimed[i] in ReadySet(rows))
    && (forall i, j | 0 <= i < j < |claimed| :: claimed[i] != claimed[j] && WaitsFirst(rows, claimed[i], claimed[j]))
    && forall i, id | 0 <= i < |claimed| && id in ReadySet(rows) && id !in claimed :: WaitsFirst(rows, claimed[i], id)
  }

  ghost predicate OnlyClaimed(rows: Table, after: Table, claimed: seq<ScanId>) {
    && after.Keys == rows.Keys
    && (forall id | id in rows && id !in claimed :: after[id] == rows[id])
    && (forall id | id in rows && id in claimed :: after[id].status == Running)
    && ReadySet(after) == ReadySet(rows) - set id | id in claimed
  }

  /** One bell: the worker it wakes claims the row that waits longest. */
  method Bell(store: ScanStore, now: int) returns (id: ScanId)
    requires ReadySet(store.rows) != {}
    modifies store
    ensures Oldest(old(store.rows), {}, id)
    ensures store.rows == old(store.rows)[id := Moved(old(store.rows)[id], Running, None, None, now)]
  {
    ghost var ready :| ready in ReadySet(store.rows);
    var got := store.ClaimNext({}, now);
    id := got.value.0;
  }

  /** One pump round: count the ready rows, ring that many bells, and let every
      bell wake a worker that claims once. */
  method PumpRound(store: ScanStore, now: int) returns (claimed: seq<ScanId>)
    modifies store
    ensures |claimed| == if |ReadySet(old(store.rows))| < 10 then |ReadySet(old(store.rows))| else 10
    ensures FrontOfQueue(old(store.rows), claimed)
    ensures OnlyClaimed(old(store.rows), store.rows, claimed)
  {
    ghost var rows := store.rows;
    var count := store.CountReady(PUMP_MAX_BELLS);
    claimed := [];
    for i := 0 to count.value
      invariant |claimed| == i
      invariant FrontOfQueue(rows, claimed)
      invariant OnlyClaimed(rows, store.rows, claimed)
      invariant |ReadySet(store.rows)| == |ReadySet(rows)| - i
    {
      ghost var before := store.rows;
      assert ReadySet(before) != {} by {
        assert |ReadySet(before)| > 0;
      }
      var id := Bell(store, now);
      QueueGrows(rows, before, store.rows, claimed, id, now);
      claimed := claimed + [id];
    }
  }

  lemma ClaimShrinksQueue(before: Table, after: Table, id: ScanId, now: int)
    requires Oldest(before, {}, id) && after == before[id := Moved(before[id], Running, None, None, now)]
    ensures ReadySet(after) == ReadySet(before) - {id} && |ReadySet(after)| == |ReadySet(before)| - 1
  {
  }

  lemma FrontGrows(rows: Table, before: Table, claimed: seq<ScanId>, id: ScanId)
    requires FrontOfQueue(rows, claimed) && OnlyClaimed(rows, before, claimed) && Oldest(before, {}, id)
    ensures id in ReadySet(rows) && id !in claimed && FrontOfQueue(rows, claimed + [id])
  {
    var longer := claimed + [id];
    assert ReadySet(before) - {} == ReadySet(before);
    assert id in ReadySet(rows) && id !in claimed;
    forall other | other in ReadySet(rows) && other !in longer
      ensures WaitsFirst(rows, id, other)
    {
      assert other !in claimed && other != id;
      assert other in ReadySet(before);
    }
  }

  /** Claiming the oldest row left extends the front of the queue by one. */
  lemma QueueGrows(rows: Table, before: Table, after: Table, claimed: seq<ScanId>, id: ScanId, now: int)
    requires FrontOfQueue(rows, claimed) && OnlyClaimed(rows, before, claimed)
    requires Oldest(before, {}, id) && after == before[id := Moved(before[id], Running, None, None, now)]
    ensures FrontOfQueue(rows, claimed + [id])
    ensures OnlyClaimed(rows, after, claimed + [id])
    ensures |ReadySet(after)| == |ReadySet(before)| - 1
  {
    ClaimShrinksQueue(before, after, id, now);
    FrontGrows(rows, before, claimed, id);
    assert forall c :: c in claimed + [id] <==> c in claimed || c == id;
  }
}
