/** Any number of consumers of one group, one Redis command at a time, with every
    command able to fail before or after taking effect
    (app/event_bus/bus.py, app/event_bus/consumer.py, app/main.py). */
module EventRuns {
  import opened Wrappers
  import opened EventStream

  type Consumer = nat

  /** The command succeeded; took effect but its reply was lost; or had no effect. */
  datatype Reply = Answered | ReplyLost | Refused

  /** Where a consumer is inside its loop. `rest` is what remains of the batch. */
  datatype Pc =
    | Listing
    | Claiming(ids: seq<Id>)
    | ReadingNew
    | Working(rest: seq<Id>)
    | Counting(m: Id, rest: seq<Id>)
    | Handling(m: Id, rest: seq<Id>, count: int)
    | Bumping(m: Id, rest: seq<Id>)
    | Burying(m: Id, rest: seq<Id>)
    | Clearing(m: Id, rest: seq<Id>)
    | Acking(m: Id, rest: seq<Id>)

  datatype State = State(redis: Redis, consumers: map<Consumer, Pc>)

  datatype Action =
    | PublishEvent(payload: Payload)
    | CounterExpires(m: Id)
    | Join(c: Consumer)
    | Crash(c: Consumer)
    | Command(c: Consumer, reply: Reply, reason: string, time: string)
    | RunHandler(c: Consumer, succeeds: bool)
    | NextMessage(c: Consumer)

  predicate IsCommand(pc: Pc) {
    !pc.Working? && !pc.Handling?
  }

  predicate Enabled(s: State, a: Action) {
    match a
    case PublishEvent(_) => true
    case CounterExpires(_) => true
    case Join(c) => c !in s.consumers
    case Crash(c) => c in s.consumers
    case Command(c, _, _, _) =>
      c in s.consumers && IsCommand(s.consumers[c])
      && (s.consumers[c].ReadingNew? ==> s.redis.delivered <= |s.redis.stream|)
      && (s.consumers[c].Burying? ==> s.consumers[c].m < |s.redis.stream|)
    case RunHandler(c, _) => c in s.consumers && s.consumers[c].Handling?
    case NextMessage(c) => c in s.consumers && s.consumers[c].Working?
  }

  /** What the command at the program counter does to Redis. */
  function Effect(r: Redis, pc: Pc, reason: string, time: string): Redis
    requires IsCommand(pc)
    requires pc.ReadingNew? ==> r.delivered <= |r.stream|
    requires pc.Burying? ==> pc.m < |r.stream|
  {
    match pc
    case Listing => r
    case Claiming(_) => r
    case ReadingNew => Deliver(r)
    case Counting(_, _) => r
    case Bumping(m, _) => Bump(r, m)
    case Burying(m, _) => Bury(r, m, reason, time)
    case Clearing(m, _) => Clear(r, m)
    case Acking(m, _) => Ack(r, m)
  }

  /** Control flow after a reply. */
  function Answer(r: Redis, pc: Pc): Pc
    requires IsCommand(pc)
    requires pc.ReadingNew? ==> r.delivered <= |r.stream|
  {
    match pc
    case Listing => if ListPending(r) == [] then ReadingNew else Claiming(ListPending(r))
    case Claiming(ids) => if StillPending(r, ids) == [] then ReadingNew else Working(StillPending(r, ids))
    case ReadingNew => Working(NewBatch(r))
    case Counting(m, rest) => Handling(m, rest, RetryCount(r, m))
    case Bumping(_, _) => Listing
    case Burying(m, rest) => Clearing(m, rest)
    case Clearing(m, rest) => Acking(m, rest)
    case Acking(_, rest) => Working(rest)
  }

  /** Control flow after a failed command. A failed counter read falls back to the
      count the payload carries, a failed cleanup is ignored, and everything else
      aborts the batch and starts the loop over. */
  function Failure(r: Redis, pc: Pc): Pc
    requires IsCommand(pc)
  {
    match pc
    case Counting(m, rest) =>
      if m < |r.stream| && r.stream[m].carriedCount.Some?
      then Handling(m, rest, r.stream[m].carriedCount.value)
      else Listing
    case Clearing(m, rest) => Acking(m, rest)
    case _ => Listing
  }

  /** A handler that raises is retried until the counter is exhausted. */
  function AfterHandler(pc: Pc, succeeds: bool): Pc
    requires pc.Handling?
  {
    if succeeds then Clearing(pc.m, pc.rest)
    else if pc.count < MAX_RETRIES then Bumping(pc.m, pc.rest)
    else Burying(pc.m, pc.rest)
  }

  function Apply(s: State, a: Action): State
    requires Enabled(s, a)
  {
    match a
    case PublishEvent(payload) => s.(redis := Publish(s.redis, payload))
    case CounterExpires(m) => s.(redis := Clear(s.redis, m))
    case Join(c) => s.(consumers := s.consumers[c := Listing])
    case Crash(c) => s.(consumers := s.consumers - {c})
    case Command(c, reply, reason, time) =>
      var pc := s.consumers[c];
      State(if reply.Refused? then s.redis else Effect(s.redis, pc, reason, time),
            s.consumers[c := if reply.Answered? then Answer(s.redis, pc) else Failure(s.redis, pc)])
    case RunHandler(c, succeeds) =>
      var pc := s.consumers[c];
      State(if succeeds then Handle(s.redis, pc.m) else s.redis,
            s.consumers[c := AfterHandler(pc, succeeds)])
    case NextMessage(c) =>
      var rest := s.consumers[c].rest;
      s.(consumers := s.consumers[c := if rest == [] then Listing else Counting(rest[0], rest[1..])])
  }

  function Run(s: State, actions: seq<Action>): Option<State>
    decreases |actions|
  {
    if actions == [] then Some(s)
    else if Enabled(s, actions[0]) then Run(Apply(s, actions[0]), actions[1..])
    else None
  }

  // ---- No loss ----

  predicate HasMessage(pc: Pc) {
    pc.Counting? || pc.Handling? || pc.Bumping? || pc.Burying? || pc.Clearing? || pc.Acking?
  }

  predicate HasRest(pc: Pc) {
    HasMessage(pc) || pc.Working?
  }

  predicate ConsumerOk(r: Redis, pc: Pc) {
    && (HasMessage(pc) ==> pc.m < r.delivered)
    && (HasRest(pc) ==> forall m | m in pc.rest :: m < r.delivered)
    && (pc.Clearing? || pc.Acking? ==> Disposed(r, pc.m))
  }

  predicate Inv(s: State) {
    WellFormed(s.redis) && NothingLost(s.redis) && forall c | c in s.consumers :: ConsumerOk(s.redis, s.consumers[c])
  }

  /** Redis only moves forward for everybody else. */
  predicate Grows(r: Redis, after: Redis) {
    && r.delivered <= after.delivered && r.handled <= after.handled
    && |r.dlq| <= |after.dlq| && after.dlq[..|r.dlq|] == r.dlq
  }

  lemma GrowthKeepsConsumers(s: State, after: Redis)
    requires Inv(s) && Grows(s.redis, after)
    ensures forall c | c in s.consumers :: ConsumerOk(after, s.consumers[c])
  {
    forall m | Disposed(s.redis, m) ensures Disposed(after, m) {
      if Buried(s.redis, m) {
        var i :| 0 <= i < |s.redis.dlq| && s.redis.dlq[i].id == m;
        assert after.dlq[i] == s.redis.dlq[i];
      }
    }
  }

  /** A message leaves the pending list only if its handler succeeded or its
      payload is in the dead-letter stream. */
  lemma LeavesPendingOnlyWhenDisposed(s: State, a: Action, m: Id)
    requires Inv(s) && Enabled(s, a)
    requires m in s.redis.pending && m !in Apply(s, a).redis.pending
    ensures Disposed(s.redis, m) && a.Command? && s.consumers[a.c].Acking? && s.consumers[a.c].m == m
  {
  }

  lemma EffectKeeps(s: State, pc: Pc, reason: string, time: string)
    requires Inv(s) && IsCommand(pc) && ConsumerOk(s.redis, pc)
    ensures pc.Burying? ==> pc.m < |s.redis.stream|
    ensures var after := Effect(s.redis, pc, reason, time);
            WellFormed(after) && NothingLost(after) && Grows(s.redis, after)
            && (pc.Burying? ==> Disposed(after, pc.m))
  {
    assert pc.Burying? ==> pc.m < |s.redis.stream|;
    var r, after := s.redis, Effect(s.redis, pc, reason, time);
    if pc.Burying? {
      assert after.dlq[|r.dlq|].id == pc.m;
    }
    forall m | Disposed(r, m) ensures Disposed(after, m) {
      if Buried(r, m) {
        var i :| 0 <= i < |r.dlq| && r.dlq[i].id == m;
        assert after.dlq[i] == r.dlq[i];
      }
    }
    if pc.ReadingNew? {
      forall m | r.delivered <= m < after.delivered ensures m in after.pending {
        assert m == NewBatch(r)[m - r.delivered];
      }
    }
  }

  lemma CommandKeeps(s: State, c: Consumer, reply: Reply, reason: string, time: string)
    requires Inv(s) && Enabled(s, Command(c, reply, reason, time))
    ensures Inv(Apply(s, Command(c, reply, reason, time)))
  {
    var pc, next := s.consumers[c], Apply(s, Command(c, reply, reason, time));
    EffectKeeps(s, pc, reason, time);
    GrowthKeepsConsumers(s, next.redis);
    assert ConsumerOk(next.redis, next.consumers[c]);
  }

  lemma NextKeeps(s: State, c: Consumer)
    requires Inv(s) && Enabled(s, NextMessage(c))
    ensures Inv(Apply(s, NextMessage(c)))
  {
    var rest := s.consumers[c].rest;
    assert ConsumerOk(s.redis, s.consumers[c]);
    assert rest != [] ==> rest[0] in rest && forall m | m in rest[1..] :: m in rest;
  }

  lemma ActionKeeps(s: State, a: Action)
    requires Inv(s) && Enabled(s, a)
    ensures Inv(Apply(s, a))
  {
    match a
    case Command(c, reply, reason, time) => CommandKeeps(s, c, reply, reason, time);
    case NextMessage(c) => NextKeeps(s, c);
    case _ =>
      var after := Apply(s, a).redis;
      GrowthKeepsConsumers(s, after);
      assert after.dlq == s.redis.dlq;
      forall m | Disposed(s.redis, m) ensures Disposed(after, m) {
        assert Buried(s.redis, m) ==> Buried(after, m);
      }
  }

  lemma {:induction false} RunKeeps(s: State, actions: seq<Action>)
    requires Inv(s) && Run(s, actions).Some?
    ensures Inv(Run(s, actions).value)
    decreases |actions|
  {
    if actions != [] {
      ActionKeeps(s, actions[0]);
      RunKeeps(Apply(s, actions[0]), actions[1..]);
    }
  }

  /** An empty stream with its group, and nobody reading it. */
  const START := State(Redis([], 0, {}, map[], [], {}), map[])

  /** Over every run from the empty stream, whatever Redis does, no message is lost
      and the dead-letter stream holds the payloads as they were published. */
  lemma NoMessageIsLost(actions: seq<Action>)
    requires Run(START, actions).Some?
    ensures NothingLost(Run(START, actions).value.redis) && WellFormed(Run(START, actions).value.redis)
  {
    RunKeeps(START, actions);
  }
}
