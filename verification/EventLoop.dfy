/** The consumer loop while Redis answers and nothing new is published: it drains
    the stream (app/main.py, app/event_bus/bus.py). */
module EventLoop {
  import opened EventStream

  predicate Finished(r: Redis, m: Id) {
    m < r.delivered && m !in r.pending
  }

  function Cap(count: nat): nat { if count < MAX_RETRIES then count else MAX_RETRIES }

  /** Dispatches a message may still need: one more than the retries left. */
  function Work(r: Redis, m: Id): nat {
    if Finished(r, m) then 0 else MAX_RETRIES + 1 - Cap(RetryCount(r, m))
  }

  function TotalWork(r: Redis, n: nat): nat {
    if n == 0 then 0 else TotalWork(r, n - 1) + Work(r, n - 1)
  }

  lemma {:induction false} LessWork(r: Redis, after: Redis, m: Id, n: nat)
    requires forall k | 0 <= k < n && k != m :: Work(after, k) == Work(r, k)
    requires m < n ==> Work(after, m) < Work(r, m)
    ensures m < n ==> TotalWork(after, n) < TotalWork(r, n)
    ensures m >= n ==> TotalWork(after, n) == TotalWork(r, n)
  {
    if n > 0 {
      LessWork(r, after, m, n - 1);
    }
  }

  lemma {:induction false} SameWork(r: Redis, after: Redis, n: nat)
    requires forall k | 0 <= k < n :: Work(after, k) == Work(r, k)
    ensures TotalWork(after, n) == TotalWork(r, n)
  {
    if n > 0 {
      SameWork(r, after, n - 1);
    }
  }

  lemma {:induction false} SomeWork(r: Redis, m: Id, n: nat)
    requires m < n && !Finished(r, m)
    ensures TotalWork(r, n) > 0
  {
    if m < n - 1 {
      SomeWork(r, m, n - 1);
    }
  }

  /** How often a message has been dispatched, against its retry counter. */
  predicate Accounted(start: Redis, r: Redis, log: seq<Id>) {
    forall m | 0 <= m < |r.stream| ::
      if Finished(r, m) then multiset(log)[m] <= Work(start, m)
      else !Finished(start, m)
           && multiset(log)[m] + RetryCount(start, m) == RetryCount(r, m)
           && Cap(RetryCount(r, m)) == multiset(log)[m] + Cap(RetryCount(start, m))
  }

  /** One dispatch either finishes the message or spends one of its retries. */
  predicate Processed(r: Redis, after: Redis, m: Id) {
    && after.stream == r.stream && after.delivered == r.delivered
    && (if after.pending == r.pending then RetryCount(r, m) < MAX_RETRIES && RetryCount(after, m) == RetryCount(r, m) + 1
        else after.pending == r.pending - {m})
    && forall k | 0 <= k < |r.stream| && k != m :: RetryCount(after, k) == RetryCount(r, k)
  }

  lemma ProcessedProgress(start: Redis, r: Redis, after: Redis, log: seq<Id>, m: Id)
    requires WellFormed(r) && start.stream == r.stream && Accounted(start, r, log)
    requires m in r.pending && Processed(r, after, m)
    ensures Accounted(start, after, log + [m])
    ensures TotalWork(after, |r.stream|) < TotalWork(r, |r.stream|)
  {
    assert multiset(log + [m]) == multiset(log) + multiset{m};
    forall k | 0 <= k < |r.stream| && k != m
      ensures Work(after, k) == Work(r, k) && (Finished(after, k) <==> Finished(r, k))
    {
    }
    assert Finished(after, m) <==> after.pending != r.pending;
    LessWork(r, after, m, |r.stream|);
  }

  /** What the loop has done about a message since `start`: nothing while it is
      unfinished; then either handled it or entered it once, never both. */
  predicate Booked(start: Redis, r: Redis, m: Id) {
    if Finished(start, m) || !Finished(r, m) then
      Entries(r.dlq, m) == Entries(start.dlq, m) && (m in r.handled <==> m in start.handled)
      && (Finished(start, m) ==> Finished(r, m))
    else
      || (Entries(r.dlq, m) == Entries(start.dlq, m) && m in r.handled)
      || (Entries(r.dlq, m) == Entries(start.dlq, m) + 1 && (m in r.handled <==> m in start.handled))
  }

  /** One dispatch: nothing, the handling, or one dead letter. */
  predicate Disposes(r: Redis, after: Redis, m: Id) {
    || (after.pending == r.pending && after.handled == r.handled && after.dlq == r.dlq)
    || (after.pending == r.pending - {m} && after.handled == r.handled + {m} && after.dlq == r.dlq)
    || (&& after.pending == r.pending - {m} && after.handled == r.handled
        && |after.dlq| == |r.dlq| + 1 && after.dlq[|r.dlq|].id == m && after.dlq == r.dlq + [after.dlq[|r.dlq|]])
  }

  lemma ProcessedBooked(start: Redis, r: Redis, after: Redis, m: Id)
    requires after.delivered == r.delivered && m in r.pending && m < r.delivered && Disposes(r, after, m)
    ensures forall k | Booked(start, r, k) :: Booked(start, after, k)
  {
    if |after.dlq| == |r.dlq| + 1 {
      var letter := after.dlq[|r.dlq|];
      forall k ensures Entries(after.dlq, k) == Entries(r.dlq, k) + if k == m then 1 else 0 {
        OneMoreEntry(r.dlq, letter, k);
      }
    }
  }

  lemma DeliverKeepsBooks(start: Redis, r: Redis)
    requires WellFormed(r)
    ensures forall k | Booked(start, r, k) :: Booked(start, Deliver(r), k)
  {
    forall k | r.delivered <= k < Deliver(r).delivered ensures k in Deliver(r).pending {
      assert k == NewBatch(r)[k - r.delivered];
    }
  }

  /** What the loop's bookkeeping says once nothing is left. */
  lemma Drained(start: Redis, r: Redis, log: seq<Id>)
    requires r.stream == start.stream && r.pending == {} && r.delivered == |r.stream|
    requires Accounted(start, r, log) && forall m :: Booked(start, r, m)
    ensures forall m | 0 <= m < |r.stream| ::
              var added := Entries(r.dlq, m) - Entries(start.dlq, m);
              if m < start.delivered && m !in start.pending then added == 0 && (m in r.handled <==> m in start.handled)
              else 0 <= added <= 1 && (m !in start.handled ==> (added == 1 <==> m !in r.handled))
    ensures forall m | 0 <= m < |r.stream| ::
              var before := if m in start.retries then start.retries[m] else 0;
              multiset(log)[m] <= 4 - if before < 3 then before else 3
  {
    forall m | 0 <= m < |r.stream|
      ensures var added := Entries(r.dlq, m) - Entries(start.dlq, m);
              if m < start.delivered && m !in start.pending then added == 0 && (m in r.handled <==> m in start.handled)
              else 0 <= added <= 1 && (m !in start.handled ==> (added == 1 <==> m !in r.handled))
    {
      assert Booked(start, r, m);
    }
  }

  class ConsumerLoop {
    var redis: Redis
    /** Every dispatch so far, in order. */
    var log: seq<Id>
    /** Whether the handler succeeds on the n-th dispatch: anything at all. */
    const succeeds: nat -> bool

    constructor (redis: Redis, succeeds: nat -> bool)
      ensures this.redis == redis && this.succeeds == succeeds && log == []
    {
      this.redis := redis;
      this.succeeds := succeeds;
      log := [];
    }

    ghost predicate Valid()
      reads this
    {
      WellFormed(redis) && NothingLost(redis)
    }

    /** Dispatch one pending message and acknowledge it if it is eligible; false
        if the handler raised and the batch must be abandoned. */
    method Process(m: Id, reason: string, time: string) returns (eligible: bool)
      requires Valid() && m in redis.pending
      modifies this
      ensures Valid()
      ensures log == old(log) + [m]
      ensures redis.stream == old(redis).stream && redis.delivered == old(redis).delivered
      ensures var failed := !succeeds(|old(log)|);
              var count := RetryCount(old(redis), m);
              && (eligible <==> !failed || count >= MAX_RETRIES)
              && redis.pending == (if eligible then old(redis).pending - {m} else old(redis).pending)
              && RetryCount(redis, m) == (if eligible then 0 else count + 1)
              && redis.handled == (if failed then old(redis).handled else old(redis).handled + {m})
              && redis.dlq == old(redis).dlq
                              + if failed && count >= MAX_RETRIES
                                then [DeadLetter(m, old(redis).stream[m].fields["_dlq_reason" := reason]["_dlq_timestamp" := time])]
                                else []
      ensures forall k | k != m :: RetryCount(redis, k) == RetryCount(old(redis), k)
      ensures Processed(old(redis), redis, m) && Disposes(old(redis), redis, m)
    {
      var count := RetryCount(redis, m);
      ghost var before := redis;
      if succeeds(|log|) {
        redis := Ack(Clear(Handle(redis, m), m), m);
        log := log + [m];
        assert redis.dlq == before.dlq;
        assert forall k | Disposed(before, k) :: Buried(before, k) ==> Buried(redis, k);
        return true;
      }
      log := log + [m];
      if count < MAX_RETRIES {
        redis := Bump(redis, m);
        assert forall k | Disposed(before, k) :: Buried(before, k) ==> Buried(redis, k);
        return false;
      }
      redis := Ack(Clear(Bury(redis, m, reason, time), m), m);
      assert redis.dlq[|before.dlq|].id == m;
      assert redis.dlq[..|before.dlq|] == before.dlq;
      forall k | Disposed(before, k) ensures Disposed(redis, k) {
        if Buried(before, k) {
          var i :| 0 <= i < |before.dlq| && before.dlq[i].id == k;
          assert redis.dlq[i].id == k;
        }
      }
      return true;
    }

    /** One batch: stop at the first message whose handler raised. */
    method ProcessBatch(batch: seq<Id>, reason: string, time: string, ghost start: Redis)
      requires Valid() && batch != [] && Accounted(start, redis, log) && start.stream == redis.stream
      requires forall i | 0 <= i < |batch| :: batch[i] in redis.pending
      requires forall i, j | 0 <= i < j < |batch| :: batch[i] != batch[j]
      modifies this
      ensures Valid() && Accounted(start, redis, log)
      ensures redis.stream == old(redis).stream
      ensures forall k :: Booked(start, old(redis), k) ==> Booked(start, redis, k)
      ensures TotalWork(redis, |redis.stream|) < TotalWork(old(redis), |redis.stream|)
    {
      var i := 0;
      var eligible := true;
      while i < |batch| && eligible
        invariant 0 <= i <= |batch| && (i == 0 ==> eligible && redis == old(redis))
        invariant Valid() && Accounted(start, redis, log)
        invariant redis.stream == old(redis).stream
        invariant forall k | i <= k < |batch| && eligible :: batch[k] in redis.pending
        invariant forall k :: Booked(start, old(redis), k) ==> Booked(start, redis, k)
        invariant i > 0 ==> TotalWork(redis, |redis.stream|) < TotalWork(old(redis), |redis.stream|)
      {
        ghost var before, past := redis, log;
        var m := batch[i];
        eligible := Process(m, reason, time);
        ProcessedProgress(start, before, redis, past, m);
        ProcessedBooked(start, before, redis, m);
        i := i + 1;
      }
    }

    /** The loop, while anything is undelivered or pending. It ends, having
        dispatched no message more often than its retries allow, and leaves every
        message handled or dead-lettered. Nothing is done about a message that was
        finished before; any other is entered once or not at all, and once exactly if
        it has never been handled. */
    method Drain(reason: string, time: string)
      requires Valid() && log == []
      modifies this
      ensures redis.stream == old(redis).stream
      ensures redis.pending == {} && redis.delivered == |redis.stream|
      ensures forall m | 0 <= m < |redis.stream| :: Disposed(redis, m)
      ensures forall m | 0 <= m < |redis.stream| ::
                var added := Entries(redis.dlq, m) - Entries(old(redis).dlq, m);
                if m < old(redis).delivered && m !in old(redis).pending then
                  added == 0 && (m in redis.handled <==> m in old(redis).handled)
                else 0 <= added <= 1 && (m !in old(redis).handled ==> (added == 1 <==> m !in redis.handled))
      ensures forall m | 0 <= m < |redis.stream| ::
                var before := if m in old(redis).retries then old(redis).retries[m] else 0;
                multiset(log)[m] <= 4 - if before < 3 then before else 3
    {
      ghost var start := redis;
      while redis.pending != {} || redis.delivered < |redis.stream|
        invariant Valid() && redis.stream == start.stream && Accounted(start, redis, log)
        invariant forall m :: Booked(start, redis, m)
        decreases TotalWork(redis, |redis.stream|), |redis.stream| - redis.delivered
      {
        var batch := ListPending(redis);
        if batch != [] {
          PendingIsDistinct(redis, 0, redis.delivered);
          assert batch <= PendingBetween(redis, 0, redis.delivered);
          assert forall i | 0 <= i < |batch| :: batch[i] == PendingBetween(redis, 0, redis.delivered)[i];
          ProcessBatch(batch, reason, time, start);
        } else {
          PendingIsListed(redis);
          batch := NewBatch(redis);
          ghost var before := redis;
          redis := Deliver(redis);
          DeliverKeepsWork(start, before, log);
          DeliverKeepsBooks(start, before);
          ProcessBatch(batch, reason, time, start);
        }
      }
      Drained(start, redis, log);
    }
  }

  lemma PendingIsDistinct(r: Redis, first: Id, end: Id)
    requires first <= end
    ensures var ids := PendingBetween(r, first, end);
            forall i, j | 0 <= i < j < |ids| :: ids[i] < ids[j]
    decreases end - first
  {
    if first < end {
      PendingIsDistinct(r, first + 1, end);
      var rest := PendingBetween(r, first + 1, end);
      assert forall i | 0 <= i < |rest| :: rest[i] in rest;
    }
  }

  lemma PendingIsListed(r: Redis)
    requires WellFormed(r)
    ensures r.pending != {} ==> ListPending(r) != []
  {
    if r.pending != {} {
      var m :| m in r.pending;
      assert m in PendingBetween(r, 0, r.delivered);
    }
  }

  /** Handing out new entries dispatches nothing and loses nothing. */
  lemma DeliverKeepsWork(start: Redis, r: Redis, log: seq<Id>)
    requires WellFormed(r) && NothingLost(r) && start.stream == r.stream && Accounted(start, r, log)
    ensures var after := Deliver(r);
            && WellFormed(after) && NothingLost(after) && Accounted(start, after, log)
            && TotalWork(after, |r.stream|) == TotalWork(r, |r.stream|)
  {
    var after := Deliver(r);
    forall m | r.delivered <= m < after.delivered ensures m in after.pending {
      assert m == NewBatch(r)[m - r.delivered];
    }
    forall m | 0 <= m < |r.stream|
      ensures (Finished(after, m) <==> Finished(r, m)) && (Disposed(r, m) ==> Disposed(after, m))
    {
      assert Buried(r, m) ==> Buried(after, m);
    }
    SameWork(r, after, |r.stream|);
  }
}
