/** The queue over runs of the whole protocol: bells of workers that claim and
    commit, or find nothing, or die in between, while everybody else cancels,
    deletes, claims, locks and crashes (app/worker/tasks.py, app/modules/scans/state.py). */
module ScanDrain {
  import opened Wrappers
  import opened ScanTable
  import opened ScanLocks
  import opened ScanExecutor
  import opened ScanSystem
  import opened ScanRuns
  import opened ScanPump

  /** The step commits a worker's claim. */
  predicate CommitsClaim(s: State, a: Action) {
    a.CommitJob? && a.sid in s.jobs && s.jobs[a.sid].Claiming? && s.jobs[a.sid].got.Some?
  }

  predicate CommitsDispatch(s: State, a: Action) {
    a.CommitJob? && a.sid in s.jobs && s.jobs[a.sid].Dispatching?
  }

  /** How many claims a run commits. */
  function Claims(s: State, actions: seq<Action>): nat
    requires Run(s, actions).Some?
    decreases |actions|
  {
    if actions == [] then 0
    else (if CommitsClaim(s, actions[0]) then 1 else 0) + Claims(Apply(s, actions[0]), actions[1..])
  }

  /** No dispatch commits during the run. */
  predicate NothingDispatched(s: State, actions: seq<Action>)
    requires Run(s, actions).Some?
    decreases |actions|
  {
    actions == [] || (!CommitsDispatch(s, actions[0]) && NothingDispatched(Apply(s, actions[0]), actions[1..]))
  }

  // ---- Every committed claim takes one scan off the queue ----

  lemma CommittedClaimShrinks(s: State, sid: Sid)
    requires Inv(s) && ScanSystem.Enabled(s, CommitJob(sid)) && CommitsClaim(s, CommitJob(sid))
    ensures var id := s.jobs[sid].got.value;
            && id in ReadySet(s.db.rows) && ReadySet(Apply(s, CommitJob(sid)).db.rows) <= ReadySet(s.db.rows) - {id}
  {
    var id := s.jobs[sid].got.value;
    assert JobOk(s.db, s.limits, sid, s.jobs[sid]);
    var writes := Open(s.db, sid).writes;
    assert id in Claimed(s.db.rows, writes);
    assert Based(s.db, id, writes[id]);
    OnlyDispatchMakesReady(s, CommitJob(sid));
    assert Commit(s.db, sid).rows[id] == writes[id].row;
  }

  lemma StepShrinks(s: State, a: Action)
    requires Inv(s) && ScanSystem.Enabled(s, a) && !CommitsDispatch(s, a)
    ensures ReadySet(Apply(s, a).db.rows) <= ReadySet(s.db.rows)
    ensures |ReadySet(Apply(s, a).db.rows)| + (if CommitsClaim(s, a) then 1 else 0) <= |ReadySet(s.db.rows)|
  {
    var before, after := ReadySet(s.db.rows), ReadySet(Apply(s, a).db.rows);
    if CommitsClaim(s, a) {
      CommittedClaimShrinks(s, a.sid);
      SubsetSize(after, before - {s.jobs[a.sid].got.value});
    } else {
      OnlyDispatchMakesReady(s, a);
      SubsetSize(after, before);
    }
  }

  /** Whatever happens beside it: without new dispatches the queue never grows, and
      every committed claim has taken one scan off it. */
  lemma {:induction false} ClaimsDrainQueue(s: State, actions: seq<Action>)
    requires Inv(s) && Run(s, actions).Some? && NothingDispatched(s, actions)
    ensures ReadySet(Run(s, actions).value.db.rows) <= ReadySet(s.db.rows)
    ensures |ReadySet(Run(s, actions).value.db.rows)| + Claims(s, actions) <= |ReadySet(s.db.rows)|
    decreases |actions|
  {
    if actions != [] {
      StepShrinks(s, actions[0]);
      ActionKeeps(s, actions[0]);
      ClaimsDrainQueue(Apply(s, actions[0]), actions[1..]);
    }
  }

  // ---- What a bell finds ----

  /** A woken worker can claim exactly if some ready row is not locked by another
      session; it comes back empty-handed exactly if all of them are. */
  lemma BellFindsUnlockedRow(s: State, sid: Sid)
    requires Unused(s, sid)
    ensures (exists id :: ScanSystem.Enabled(s, ClaimScan(sid, Some(id))))
            <==> !(ReadySet(s.db.rows) <= LockedFor(s.db, sid))
    ensures ScanSystem.Enabled(s, ClaimScan(sid, None)) <==> ReadySet(s.db.rows) <= LockedFor(s.db, sid)
  {
    if !(ReadySet(s.db.rows) <= LockedFor(s.db, sid)) {
      var some :| some in ReadySet(s.db.rows) && some !in LockedFor(s.db, sid);
      assert some in ReadySet(s.db.rows) - LockedFor(s.db, sid);
      OldestExists(s.db.rows, LockedFor(s.db, sid));
      var id :| Oldest(s.db.rows, LockedFor(s.db, sid), id);
      assert ScanSystem.Enabled(s, ClaimScan(sid, Some(id)));
    }
  }

  // ---- A pump round is a run ----

  /** The workers' sessions are new and distinct. */
  predicate Idle(s: State, sids: seq<Sid>) {
    && (forall i | 0 <= i < |sids| :: Unused(s, sids[i]))
    && (forall i, j | 0 <= i < j < |sids| :: sids[i] != sids[j])
  }

  /** No ready row is locked. */
  predicate Unhindered(s: State) {
    forall sid | sid in s.db.open :: s.db.open[sid].writes.Keys !! ReadySet(s.db.rows)
  }

  lemma NothingLocked(s: State, sid: Sid)
    requires Unhindered(s)
    ensures ReadySet(s.db.rows) - LockedFor(s.db, sid) == ReadySet(s.db.rows)
    ensures forall id :: Oldest(s.db.rows, LockedFor(s.db, sid), id) <==> Oldest(s.db.rows, {}, id)
  {
  }

  function Bell(sid: Sid, id: ScanId): seq<Action> {
    [ClaimScan(sid, Some(id)), CommitJob(sid)]
  }

  /** Every bell wakes a worker that claims the next scan of the list. */
  function Bells(sids: seq<Sid>, ids: seq<ScanId>): seq<Action>
    requires |sids| == |ids|
  {
    if sids == [] then []
    else Bell(sids[0], ids[0]) + Bells(sids[1..], ids[1..])
  }

  /** What one bell leaves when nobody intervenes. */
  lemma BellRuns(s: State, sid: Sid, id: ScanId)
    requires Inv(s) && ScanSystem.Enabled(s, ClaimScan(sid, Some(id)))
    ensures var run := Run(s, Bell(sid, id));
            && run.Some? && Inv(run.value)
            && run.value.db.rows == s.db.rows[id := Moved(s.db.rows[id], Running, None, None, s.now)]
            && run.value.db.open == s.db.open && run.value.execs == s.execs
            && run.value.jobs.Keys == s.jobs.Keys + {sid}
  {
    var a, b := ClaimScan(sid, Some(id)), CommitJob(sid);
    BellKeeps(s, sid, id);
    BellMoves(s, sid, id);
    RunTwo(s, a, b);
    OpensNothing(s, sid, id);
  }

  lemma BellMoves(s: State, sid: Sid, id: ScanId)
    requires Inv(s) && ScanSystem.Enabled(s, ClaimScan(sid, Some(id)))
    ensures var run := Run(s, [ClaimScan(sid, Some(id)), CommitJob(sid)]);
            && run.Some? && run.value.jobs.Keys == s.jobs.Keys + {sid}
            && run.value.db.rows == s.db.rows[id := Moved(s.db.rows[id], Running, None, None, s.now)]
  {
    ClaimCommits(s, sid, id);
  }

  lemma BellKeeps(s: State, sid: Sid, id: ScanId)
    requires Inv(s) && ScanSystem.Enabled(s, ClaimScan(sid, Some(id)))
    ensures ScanSystem.Enabled(Apply(s, ClaimScan(sid, Some(id))), CommitJob(sid))
    ensures Inv(Apply(Apply(s, ClaimScan(sid, Some(id))), CommitJob(sid)))
  {
    ActionKeeps(s, ClaimScan(sid, Some(id)));
    ActionKeeps(Apply(s, ClaimScan(sid, Some(id))), CommitJob(sid));
  }

  lemma OpensNothing(s: State, sid: Sid, id: ScanId)
    requires ScanSystem.Enabled(s, ClaimScan(sid, Some(id)))
    ensures var end := Apply(Apply(s, ClaimScan(sid, Some(id))), CommitJob(sid));
            end.db.open == s.db.open && end.execs == s.execs
  {
    var mid := Apply(s, ClaimScan(sid, Some(id)));
    assert mid.db.open - {sid} == s.db.open;
  }

  lemma BellCounts(s: State, sid: Sid, id: ScanId)
    requires ScanSystem.Enabled(s, ClaimScan(sid, Some(id)))
    ensures Run(s, Bell(sid, id)).Some? && Claims(s, Bell(sid, id)) == 1 && NothingDispatched(s, Bell(sid, id))
  {
    var a, b := ClaimScan(sid, Some(id)), CommitJob(sid);
    var mid := Apply(s, a);
    RunTwo(s, a, b);
    assert [a, b][1..] == [b];
    var none: seq<Action> := [b][1..];
    assert none == [];
    RunOne(mid, b, []);
    assert [b] + [] == [b];
    assert CommitsClaim(mid, b) && !CommitsDispatch(mid, b);
    assert Claims(mid, [b]) == 1 && NothingDispatched(mid, [b]);
  }

  /** One bell in peace. */
  lemma OneBell(s: State, sid: Sid) returns (id: ScanId)
    requires Inv(s) && Unused(s, sid) && Unhindered(s) && ReadySet(s.db.rows) != {}
    ensures Oldest(s.db.rows, {}, id)
    ensures ScanSystem.Enabled(s, ClaimScan(sid, Some(id)))
    ensures var run := Run(s, Bell(sid, id)); run.Some? && Inv(run.value) && Unhindered(run.value)
    ensures forall other | Unused(s, other) && other != sid :: Unused(Run(s, Bell(sid, id)).value, other)
  {
    NothingLocked(s, sid);
    OldestExists(s.db.rows, LockedFor(s.db, sid));
    id :| Oldest(s.db.rows, LockedFor(s.db, sid), id);
    BellRuns(s, sid, id);
    PeaceStays(s, Run(s, Bell(sid, id)).value, id, sid);
  }

  lemma PeaceStays(s: State, end: State, id: ScanId, sid: Sid)
    requires Unhindered(s) && id in s.db.rows && end.db.open == s.db.open && end.execs == s.execs
    requires end.db.rows == s.db.rows[id := Moved(s.db.rows[id], Running, None, None, s.now)]
    requires end.jobs.Keys == s.jobs.Keys + {sid}
    ensures Unhindered(end)
    ensures forall other | Unused(s, other) && other != sid :: Unused(end, other)
  {
    assert ReadySet(end.db.rows) <= ReadySet(s.db.rows);
  }

  lemma {:induction false} ClaimsConcat(s: State, actions: seq<Action>, more: seq<Action>)
    requires Run(s, actions).Some? && Run(Run(s, actions).value, more).Some?
    ensures Run(s, actions + more) == Run(Run(s, actions).value, more)
    ensures Claims(s, actions + more) == Claims(s, actions) + Claims(Run(s, actions).value, more)
    ensures NothingDispatched(s, actions + more)
            <==> NothingDispatched(s, actions) && NothingDispatched(Run(s, actions).value, more)
    decreases |actions|
  {
    if actions == [] {
      assert actions + more == more;
    } else {
      assert (actions + more)[1..] == actions[1..] + more;
      ClaimsConcat(Apply(s, actions[0]), actions[1..], more);
    }
  }

  /** The bells have claimed these scans, which stand at the front of the queue of
      `rows` behind those claimed before. */
  ghost predicate Served(s: State, rows: Table, claimed: seq<ScanId>, sids: seq<Sid>, ids: seq<ScanId>) {
    && |ids| == |sids| && FrontOfQueue(rows, claimed + ids)
    && var run := Run(s, Bells(sids, ids));
    && run.Some? && Inv(run.value) && Unhindered(run.value)
    && OnlyClaimed(rows, run.value.db.rows, claimed + ids)
    && Claims(s, Bells(sids, ids)) == |sids| && NothingDispatched(s, Bells(sids, ids))
  }

  lemma ServedLater(s: State, rows: Table, claimed: seq<ScanId>, sids: seq<Sid>, id: ScanId, rest: seq<ScanId>)
    requires sids != [] && ScanSystem.Enabled(s, ClaimScan(sids[0], Some(id))) && Run(s, Bell(sids[0], id)).Some?
    requires Served(Run(s, Bell(sids[0], id)).value, rows, claimed + [id], sids[1..], rest)
    ensures Served(s, rows, claimed, sids, [id] + rest)
  {
    var ids := [id] + rest;
    assert ids[1..] == rest && (claimed + [id]) + rest == claimed + ids;
    assert Bells(sids, ids) == Bell(sids[0], id) + Bells(sids[1..], rest);
    BellCounts(s, sids[0], id);
    ClaimsConcat(s, Bell(sids[0], id), Bells(sids[1..], rest));
  }

  /** From a state of the system the bells of a round, one after the other, do what
      `PumpRound` does to the table: they claim the front of the queue in order. */
  lemma {:induction false} BellsClaimFront(s: State, rows: Table, claimed: seq<ScanId>, sids: seq<Sid>)
    returns (ids: seq<ScanId>)
    requires Inv(s) && Unhindered(s) && Idle(s, sids) && |sids| <= |ReadySet(s.db.rows)|
    requires FrontOfQueue(rows, claimed) && OnlyClaimed(rows, s.db.rows, claimed)
    ensures Served(s, rows, claimed, sids, ids)
    decreases |sids|
  {
    if sids == [] {
      ids := [];
      assert claimed + ids == claimed;
    } else {
      var id, next := NextBell(s, rows, claimed, sids);
      var rest := BellsClaimFront(next, rows, claimed + [id], sids[1..]);
      ids := [id] + rest;
      ServedLater(s, rows, claimed, sids, id, rest);
    }
  }

  lemma NextBell(s: State, rows: Table, claimed: seq<ScanId>, sids: seq<Sid>) returns (id: ScanId, next: State)
    requires Inv(s) && Unhindered(s) && Idle(s, sids) && 0 < |sids| <= |ReadySet(s.db.rows)|
    requires FrontOfQueue(rows, claimed) && OnlyClaimed(rows, s.db.rows, claimed)
    ensures ScanSystem.Enabled(s, ClaimScan(sids[0], Some(id))) && Run(s, Bell(sids[0], id)) == Some(next)
    ensures Inv(next) && Unhindered(next) && Idle(next, sids[1..]) && |sids| - 1 <= |ReadySet(next.db.rows)|
    ensures FrontOfQueue(rows, claimed + [id]) && OnlyClaimed(rows, next.db.rows, claimed + [id])
  {
    id := OneBell(s, sids[0]);
    BellRuns(s, sids[0], id);
    next := Run(s, Bell(sids[0], id)).value;
    QueueGrows(rows, s.db.rows, next.db.rows, claimed, id, s.now);
    IdleLater(s, next, sids);
  }

  lemma IdleLater(s: State, next: State, sids: seq<Sid>)
    requires sids != [] && Idle(s, sids)
    requires forall other | Unused(s, other) && other != sids[0] :: Unused(next, other)
    ensures Idle(next, sids[1..])
  {
  }

  /** A pump round with workers for all its bells: it rings for as many scans as are
      ready, ten at most, and exactly the front of the queue is claimed. */
  lemma RoundClaimsFront(s: State, sids: seq<Sid>) returns (ids: seq<ScanId>)
    requires Inv(s) && Unhindered(s) && Idle(s, sids)
    requires |sids| == Min(|ReadySet(s.db.rows)|, PUMP_MAX_BELLS)
    ensures |ids| == |sids| && FrontOfQueue(s.db.rows, ids)
    ensures var run := Run(s, Bells(sids, ids));
            && run.Some? && Inv(run.value) && Unhindered(run.value)
            && OnlyClaimed(s.db.rows, run.value.db.rows, ids)
            && IsRound(s, Bells(sids, ids))
  {
    ids := BellsClaimFront(s, s.db.rows, [], sids);
    ServedIsRound(s, sids, ids);
  }

  lemma ServedIsRound(s: State, sids: seq<Sid>, ids: seq<ScanId>)
    requires Served(s, s.db.rows, [], sids, ids) && |sids| == Min(|ReadySet(s.db.rows)|, PUMP_MAX_BELLS)
    ensures |ids| == |sids| && FrontOfQueue(s.db.rows, ids)
    ensures var run := Run(s, Bells(sids, ids));
            && run.Some? && Inv(run.value) && Unhindered(run.value)
            && OnlyClaimed(s.db.rows, run.value.db.rows, ids)
            && IsRound(s, Bells(sids, ids))
  {
    assert [] + ids == ids;
  }

  // ---- Rounds drain the queue ----

  /** In a round as many claims are committed as the pump rings bells, whoever
      commits them, while anything but a new dispatch may happen; or the queue
      runs empty by other means. */
  predicate IsRound(s: State, actions: seq<Action>) {
    && Run(s, actions).Some? && NothingDispatched(s, actions)
    && (|| Claims(s, actions) >= Min(|ReadySet(s.db.rows)|, PUMP_MAX_BELLS)
        || ReadySet(Run(s, actions).value.db.rows) == {})
  }

  predicate AreRounds(s: State, rounds: seq<seq<Action>>)
    decreases |rounds|
  {
    rounds == [] || (IsRound(s, rounds[0]) && AreRounds(Run(s, rounds[0]).value, rounds[1..]))
  }

  function AfterRounds(s: State, rounds: seq<seq<Action>>): State
    requires AreRounds(s, rounds)
    decreases |rounds|
  {
    if rounds == [] then s else AfterRounds(Run(s, rounds[0]).value, rounds[1..])
  }

  /** After one round for every ten ready scans the queue is empty. */
  lemma {:induction false} RoundsDrainQueue(s: State, rounds: seq<seq<Action>>)
    requires Inv(s) && AreRounds(s, rounds)
    ensures var n, left := |ReadySet(s.db.rows)|, |ReadySet(AfterRounds(s, rounds).db.rows)|;
            left <= if n < PUMP_MAX_BELLS * |rounds| then 0 else n - PUMP_MAX_BELLS * |rounds|
    decreases |rounds|
  {
    if rounds != [] {
      RunKeeps(s, rounds[0]);
      ClaimsDrainQueue(s, rounds[0]);
      RoundsDrainQueue(Run(s, rounds[0]).value, rounds[1..]);
    }
  }

  // ---- First in, first out ----

  lemma {:induction false} DispatchTimeStays(s: State, actions: seq<Action>, id: ScanId)
    requires Inv(s) && Run(s, actions).Some? && id in s.db.born
    requires id in s.db.rows ==> s.db.rows[id].dispatchedAt.Some?
    ensures var rows := Run(s, actions).value.db.rows;
            id in rows ==> id in s.db.rows && rows[id].dispatchedAt == s.db.rows[id].dispatchedAt
    decreases |actions|
  {
    if actions != [] {
      ActionEvolves(s, actions[0]);
      ActionKeeps(s, actions[0]);
      var next := Apply(s, actions[0]);
      assert id in next.db.rows ==> id in s.db.rows && Legal(s.db.rows[id], next.db.rows[id]);
      DispatchTimeStays(next, actions[1..], id);
    }
  }

  /** A claim overtakes only what it could not see: whatever stands before the
      claimed scan when its claim commits was locked by another session when the
      claim read the queue, or had not been dispatched by then. */
  lemma ClaimOvertakesOnlyHidden(s: State, sid: Sid, id: ScanId, actions: seq<Action>, other: ScanId)
    requires Inv(s) && ScanSystem.Enabled(s, ClaimScan(sid, Some(id)))
    requires var claim := ClaimScan(sid, Some(id));
             && Run(Apply(s, claim), actions).Some?
             && var end := Run(Apply(s, claim), actions).value;
             && CommitsClaim(end, CommitJob(sid)) && end.jobs[sid].got == Some(id)
             && id in ReadySet(end.db.rows) && other in end.db.rows
             && end.db.rows[other].status == Pending && end.db.rows[other].dispatchedAt.Some?
             && var mine, theirs := end.db.rows[id].dispatchedAt.value, end.db.rows[other].dispatchedAt.value;
             (theirs < mine || (theirs == mine && other < id))
    ensures || (exists holder | holder in s.db.open && holder != sid :: other in s.db.open[holder].writes)
            || other !in s.db.rows || s.db.rows[other].status != Pending || s.db.rows[other].dispatchedAt.None?
  {
    var claim := ClaimScan(sid, Some(id));
    ActionKeeps(s, claim);
    var mid := Apply(s, claim);
    assert mid.db.rows == s.db.rows && mid.db.born == s.db.born;
    var end := Run(mid, actions).value;
    DispatchTimeStays(mid, actions, id);
    if other in ReadySet(s.db.rows) {
      DispatchTimeStays(mid, actions, other);
      assert end.db.rows[other].dispatchedAt == s.db.rows[other].dispatchedAt;
      assert end.db.rows[id].dispatchedAt == s.db.rows[id].dispatchedAt;
      assert other !in LockedFor(s.db, sid) ==> Before(s.db.rows, id, other);
    }
  }
}
