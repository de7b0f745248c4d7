/** What the commands of one consumer come to when nobody comes in between: the
    listing of a batch and the dispatch of one message
    (app/event_bus/bus.py, app/event_bus/consumer.py, app/main.py). */
module EventSteps {
  import opened Wrappers
  import opened EventStream
  import opened EventRuns
  import EventLoop

  ghost predicate Reaches(s: State, t: State) {
    exists actions :: Run(s, actions) == Some(t)
  }

  lemma Stay(s: State)
    ensures Reaches(s, s)
  {
    var none: seq<Action> := [];
    assert Run(s, none) == Some(s);
  }

  lemma Then(s: State, a: Action, t: State)
    requires Enabled(s, a) && Reaches(Apply(s, a), t)
    ensures Reaches(s, t)
  {
    var rest :| Run(Apply(s, a), rest) == Some(t);
    assert ([a] + rest)[1..] == rest;
    assert Run(s, [a] + rest) == Some(t);
  }

  /** The next command of the consumer is answered. */
  lemma Answers(s: State, c: Consumer, reason: string, time: string, next: State, t: State)
    requires Enabled(s, Command(c, Answered, reason, time)) && next == Apply(s, Command(c, Answered, reason, time))
    requires Reaches(next, t)
    ensures Reaches(s, t)
  {
    Then(s, Command(c, Answered, reason, time), t);
  }

  function Moved(s: State, c: Consumer, pc: Pc, redis: Redis): State {
    State(redis, s.consumers[c := pc])
  }

  lemma SameConsumers(s: State, c: Consumer, first: Pc, second: Pc, redis: Redis, after: Redis)
    ensures Moved(Moved(s, c, first, redis), c, second, after) == Moved(s, c, second, after)
  {
  }

  /** From the clearing of the counter to the next message. */
  lemma ClearsAndAcks(s: State, c: Consumer, m: Id, rest: seq<Id>, reason: string, time: string)
    requires c in s.consumers && s.consumers[c] == Clearing(m, rest)
    ensures Reaches(s, Moved(s, c, Working(rest), s.redis.(retries := s.redis.retries - {m}, pending := s.redis.pending - {m})))
  {
    var cleared := s.redis.(retries := s.redis.retries - {m});
    var end := Moved(s, c, Working(rest), s.redis.(retries := s.redis.retries - {m}, pending := s.redis.pending - {m}));
    var acking := Moved(s, c, Acking(m, rest), cleared);
    SameConsumers(s, c, Acking(m, rest), Working(rest), cleared, end.redis);
    Stay(end);
    Answers(acking, c, reason, time, end, end);
    Answers(s, c, reason, time, acking, end);
  }

  /** A message whose handler succeeds is marked handled, loses its counter and leaves
      the pending list; nothing is dead-lettered. */
  lemma SuccessfulDispatch(s: State, c: Consumer, m: Id, rest: seq<Id>, reason: string, time: string)
    requires c in s.consumers && s.consumers[c] == Counting(m, rest)
    ensures Reaches(s, Moved(s, c, Working(rest),
                             s.redis.(handled := s.redis.handled + {m}, retries := s.redis.retries - {m},
                                      pending := s.redis.pending - {m})))
  {
    var count := if m in s.redis.retries then s.redis.retries[m] else 0;
    var handling := Moved(s, c, Handling(m, rest, count), s.redis);
    var handled := s.redis.(handled := s.redis.handled + {m});
    var clearing := Moved(s, c, Clearing(m, rest), handled);
    var end := Moved(s, c, Working(rest), handled.(retries := s.redis.retries - {m}, pending := s.redis.pending - {m}));
    ClearsAndAcks(clearing, c, m, rest, reason, time);
    SameConsumers(s, c, Clearing(m, rest), Working(rest), handled, end.redis);
    SameConsumers(s, c, Handling(m, rest, count), Clearing(m, rest), s.redis, handled);
    Then(handling, RunHandler(c, true), end);
    Answers(s, c, reason, time, handling, end);
  }

  /** A failure with fewer than three counted before is counted and ends the batch; the
      message stays pending. */
  lemma RetriedDispatch(s: State, c: Consumer, m: Id, rest: seq<Id>, reason: string, time: string)
    requires c in s.consumers && s.consumers[c] == Counting(m, rest)
    requires m in s.redis.retries ==> s.redis.retries[m] < 3
    ensures var count := if m in s.redis.retries then s.redis.retries[m] else 0;
            Reaches(s, Moved(s, c, Listing, s.redis.(retries := s.redis.retries[m := count + 1])))
  {
    var count := if m in s.redis.retries then s.redis.retries[m] else 0;
    var handling := Moved(s, c, Handling(m, rest, count), s.redis);
    var bumping := Moved(s, c, Bumping(m, rest), s.redis);
    var end := Moved(s, c, Listing, s.redis.(retries := s.redis.retries[m := count + 1]));
    Stay(end);
    SameConsumers(s, c, Bumping(m, rest), Listing, s.redis, end.redis);
    Answers(bumping, c, reason, time, end, end);
    SameConsumers(s, c, Handling(m, rest, count), Bumping(m, rest), s.redis, s.redis);
    Then(handling, RunHandler(c, false), end);
    Answers(s, c, reason, time, handling, end);
  }

  /** A failure after three is dead-lettered with its payload, reason and time, and only
      then leaves the pending list. */
  lemma ExhaustedDispatch(s: State, c: Consumer, m: Id, rest: seq<Id>, reason: string, time: string)
    requires c in s.consumers && s.consumers[c] == Counting(m, rest) && m < |s.redis.stream|
    requires m in s.redis.retries && s.redis.retries[m] >= 3
    ensures var letter := DeadLetter(m, s.redis.stream[m].fields["_dlq_reason" := reason]["_dlq_timestamp" := time]);
            Reaches(s, Moved(s, c, Working(rest),
                             s.redis.(dlq := s.redis.dlq + [letter], retries := s.redis.retries - {m},
                                      pending := s.redis.pending - {m})))
  {
    var letter := DeadLetter(m, s.redis.stream[m].fields["_dlq_reason" := reason]["_dlq_timestamp" := time]);
    var handling := Moved(s, c, Handling(m, rest, s.redis.retries[m]), s.redis);
    var burying := Moved(s, c, Burying(m, rest), s.redis);
    var buried := s.redis.(dlq := s.redis.dlq + [letter]);
    var clearing := Moved(s, c, Clearing(m, rest), buried);
    var end := Moved(s, c, Working(rest), buried.(retries := s.redis.retries - {m}, pending := s.redis.pending - {m}));
    ClearsAndAcks(clearing, c, m, rest, reason, time);
    SameConsumers(s, c, Clearing(m, rest), Working(rest), buried, end.redis);
    SameConsumers(s, c, Burying(m, rest), Clearing(m, rest), s.redis, buried);
    Answers(burying, c, reason, time, clearing, end);
    SameConsumers(s, c, Handling(m, rest, s.redis.retries[m]), Burying(m, rest), s.redis, s.redis);
    Then(handling, RunHandler(c, false), end);
    Answers(s, c, reason, time, handling, end);
  }

  /** The first hundred pending messages, in stream order. */
  ghost predicate FirstPending(r: Redis, batch: seq<Id>) {
    && |batch| <= 100
    && (forall i, j | 0 <= i < j < |batch| :: batch[i] < batch[j])
    && (forall m | m in batch :: m in r.pending)
    && forall m | m in r.pending && m !in batch :: |batch| == 100 && batch[99] < m
  }

  lemma InOrder(r: Redis, ids: seq<Id>)
    requires ids == PendingBetween(r, 0, r.delivered)
    ensures forall i, j | 0 <= i < j < |ids| :: ids[i] < ids[j]
  {
    EventLoop.PendingIsDistinct(r, 0, r.delivered);
    forall i, j | 0 <= i < j < |ids| ensures ids[i] < ids[j] {
      assert PendingBetween(r, 0, r.delivered)[i] < PendingBetween(r, 0, r.delivered)[j];
    }
  }

  lemma ListsFirstPending(r: Redis)
    requires WellFormed(r)
    ensures FirstPending(r, ListPending(r)) && (r.pending == {} ==> ListPending(r) == [])
  {
    var all, batch := PendingBetween(r, 0, r.delivered), ListPending(r);
    InOrder(r, all);
    assert batch <= all && (|batch| < |all| ==> |batch| == 100);
    forall i, j | 0 <= i < j < |batch| ensures batch[i] < batch[j] {
      assert batch[i] == all[i] && batch[j] == all[j] && all[i] < all[j];
    }
    assert batch == [] || batch[0] in batch;
    forall m | m in r.pending && m !in batch ensures |batch| == 100 && batch[99] < m {
      assert m in all;
      var i :| 0 <= i < |all| && all[i] == m;
      assert forall k | 0 <= k < |batch| :: batch[k] in batch && all[k] == batch[k];
      assert i >= |batch|;
      assert all[99] < all[i] || i <= 99;
    }
    assert forall m | m in batch :: m in all;
  }

  lemma {:induction false} AllStillPending(r: Redis, ids: seq<Id>)
    requires forall m | m in ids :: m in r.pending
    ensures StillPending(r, ids) == ids
  {
    if ids != [] {
      assert forall m | m in ids[1..] :: m in ids;
      AllStillPending(r, ids[1..]);
    }
  }

  /** A consumer takes up what is pending before anything new: the first hundred pending
      messages; if there is none, the next ten of the stream, which become pending. */
  lemma NextBatch(s: State, c: Consumer, reason: string, time: string)
    requires WellFormed(s.redis) && c in s.consumers && s.consumers[c] == Listing
    ensures s.redis.pending != {} ==>
              exists batch :: FirstPending(s.redis, batch) && batch != [] && Reaches(s, Moved(s, c, Working(batch), s.redis))
    ensures s.redis.pending == {} ==>
              var n := if |s.redis.stream| - s.redis.delivered < 10 then |s.redis.stream| - s.redis.delivered else 10;
              exists batch :: && |batch| == n && (forall i | 0 <= i < n :: batch[i] == s.redis.delivered + i)
                              && Reaches(s, Moved(s, c, Working(batch),
                                                  s.redis.(delivered := s.redis.delivered + n, pending := set m | m in batch)))
  {
    var r := s.redis;
    var listed := ListPending(r);
    ListsFirstPending(r);
    if r.pending != {} {
      assert listed != [] by {
        var m :| m in r.pending;
        assert m !in listed ==> |listed| == 100;
      }
      AllStillPending(r, listed);
      var claiming, end := Moved(s, c, Claiming(listed), r), Moved(s, c, Working(listed), r);
      Stay(end);
      SameConsumers(s, c, Claiming(listed), Working(listed), r, r);
      Answers(claiming, c, reason, time, end, end);
      Answers(s, c, reason, time, claiming, end);
    } else {
      TakesNew(s, c, reason, time);
    }
  }

  lemma TakesNew(s: State, c: Consumer, reason: string, time: string)
    requires WellFormed(s.redis) && c in s.consumers && s.consumers[c] == Listing
    requires s.redis.pending == {} && ListPending(s.redis) == []
    ensures var n := if |s.redis.stream| - s.redis.delivered < 10 then |s.redis.stream| - s.redis.delivered else 10;
            exists batch :: && |batch| == n && (forall i | 0 <= i < n :: batch[i] == s.redis.delivered + i)
                            && Reaches(s, Moved(s, c, Working(batch),
                                                s.redis.(delivered := s.redis.delivered + n, pending := set m | m in batch)))
  {
    var r := s.redis;
    var n := if |r.stream| - r.delivered < 10 then |r.stream| - r.delivered else 10;
    var batch := NewBatch(r);
    var after := r.(delivered := r.delivered + n, pending := set m | m in batch);
    assert {} + (set m | m in batch) == set m | m in batch;
    var reading, end := Moved(s, c, ReadingNew, r), Moved(s, c, Working(batch), after);
    Stay(end);
    SameConsumers(s, c, ReadingNew, Working(batch), r, after);
    Answers(reading, c, reason, time, end, end);
    Answers(s, c, reason, time, reading, end);
    assert |batch| == n && (forall i | 0 <= i < n :: batch[i] == r.delivered + i) && Reaches(s, end);
  }
}
