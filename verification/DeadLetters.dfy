/** How often a message is dead-lettered: the stream is at-least-once. Which steps
    repeat an entry, what bounds the entries of one message over every run, and runs
    from the empty stream that repeat one for each of the reasons
    (app/event_bus/bus.py, app/event_bus/consumer.py, app/main.py). */
module DeadLetters {
  import opened Wrappers
  import opened EventStream
  import opened EventRuns

  lemma {:induction false} BuriedIffEntered(r: Redis, dlq: seq<DeadLetter>, m: Id)
    requires dlq <= r.dlq
    ensures Entries(dlq, m) > 0 <==> exists i | 0 <= i < |dlq| :: r.dlq[i].id == m
    decreases |dlq|
  {
    if dlq != [] {
      BuriedIffEntered(r, dlq[..|dlq| - 1], m);
    }
  }

  // ---- Which steps repeat an entry ----

  /** No message has two entries. */
  ghost predicate Once(r: Redis) {
    forall m :: Entries(r.dlq, m) <= 1
  }

  /** The command appends the message at hand. */
  predicate Appends(s: State, a: Action, m: Id) {
    a.Command? && !a.reply.Refused? && a.c in s.consumers && s.consumers[a.c].Burying? && s.consumers[a.c].m == m
  }

  lemma EntriesAfter(s: State, a: Action, m: Id)
    requires Enabled(s, a)
    ensures Entries(Apply(s, a).redis.dlq, m) == Entries(s.redis.dlq, m) + if Appends(s, a, m) then 1 else 0
  {
    if a.Command? && !a.reply.Refused? && s.consumers[a.c].Burying? {
      var at := s.consumers[a.c].m;
      OneMoreEntry(s.redis.dlq, Bury(s.redis, at, a.reason, a.time).dlq[|s.redis.dlq|], m);
    }
  }

  /** The command appends a message that has an entry already. */
  predicate Repeats(s: State, a: Action) {
    a.Command? && a.c in s.consumers && s.consumers[a.c].Burying? && Appends(s, a, s.consumers[a.c].m)
    && Buried(s.redis, s.consumers[a.c].m)
  }

  lemma StepOnceIff(s: State, a: Action)
    requires Enabled(s, a) && Once(s.redis)
    ensures Once(Apply(s, a).redis) <==> !Repeats(s, a)
  {
    forall m
      ensures Entries(Apply(s, a).redis.dlq, m) == Entries(s.redis.dlq, m) + if Appends(s, a, m) then 1 else 0
      ensures Entries(s.redis.dlq, m) > 0 <==> Buried(s.redis, m)
    {
      EntriesAfter(s, a, m);
      BuriedIffEntered(s.redis, s.redis.dlq, m);
    }
    if Repeats(s, a) {
      assert Entries(Apply(s, a).redis.dlq, s.consumers[a.c].m) > 1;
    }
  }

  lemma {:induction false} EntriesStay(s: State, actions: seq<Action>, m: Id)
    requires Run(s, actions).Some?
    ensures Entries(s.redis.dlq, m) <= Entries(Run(s, actions).value.redis.dlq, m)
    decreases |actions|
  {
    if actions != [] {
      EntriesAfter(s, actions[0], m);
      EntriesStay(Apply(s, actions[0]), actions[1..], m);
    }
  }

  ghost predicate NeverRepeats(s: State, actions: seq<Action>)
    requires Run(s, actions).Some?
    decreases |actions|
  {
    actions == [] || (!Repeats(s, actions[0]) && NeverRepeats(Apply(s, actions[0]), actions[1..]))
  }

  lemma {:induction false} RunOnceIff(s: State, actions: seq<Action>)
    requires Run(s, actions).Some? && Once(s.redis)
    ensures Once(Run(s, actions).value.redis) <==> NeverRepeats(s, actions)
    decreases |actions|
  {
    if actions != [] {
      var next := Apply(s, actions[0]);
      StepOnceIff(s, actions[0]);
      if Once(next.redis) {
        RunOnceIff(next, actions[1..]);
      } else {
        var m :| Entries(next.redis.dlq, m) > 1;
        EntriesStay(next, actions[1..], m);
      }
    }
  }

  /** In every run from the empty stream: no message is dead-lettered twice exactly if
      no append is made of a message that has an entry. */
  lemma OnceIff(actions: seq<Action>)
    requires Run(START, actions).Some?
    ensures Once(Run(START, actions).value.redis) <==> NeverRepeats(START, actions)
  {
    RunOnceIff(START, actions);
  }

  // ---- Who may still append ----

  /** What a consumer has in hand, in order. */
  function Batch(pc: Pc): seq<Id> {
    if pc.Claiming? then pc.ids
    else if pc.Working? then pc.rest
    else if HasMessage(pc) then [pc.m] + pc.rest
    else []
  }

  predicate Increasing(ids: seq<Id>) {
    forall i, j | 0 <= i < j < |ids| :: ids[i] < ids[j]
  }

  ghost predicate BatchesOk(s: State) {
    forall c | c in s.consumers :: Increasing(Batch(s.consumers[c]))
  }

  /** The message is at hand and may still come to the append. */
  predicate Holds(pc: Pc, m: Id) {
    (HasRest(pc) && m in pc.rest) || (HasMessage(pc) && pc.m == m && !pc.Clearing? && !pc.Acking?)
  }

  /** The message has been handled or appended and is about to be acknowledged. */
  predicate Settles(pc: Pc, m: Id) {
    (pc.Clearing? || pc.Acking?) && pc.m == m
  }

  function Holders(s: State, m: Id): set<Consumer> {
    set c | c in s.consumers && Holds(s.consumers[c], m)
  }

  function Settlers(s: State, m: Id): set<Consumer> {
    set c | c in s.consumers && Settles(s.consumers[c], m)
  }

  /** Nobody has the message, but a later listing or delivery will hand it out. */
  predicate Waits(s: State, m: Id) {
    m >= s.redis.delivered || (m in s.redis.pending && Holders(s, m) == {} && Settlers(s, m) == {})
  }

  /** How many appends the state still owes without anything going wrong. */
  function Owed(s: State, m: Id): nat {
    |Holders(s, m)| + if Waits(s, m) then 1 else 0
  }

  /** What lets one more append happen. */
  datatype Slip =
    | LostAppend
    | RefusedAck
    | CrashBeforeAck
    | SecondHolder

  /** The append was applied and its reply lost; the acknowledgement was refused; its
      consumer crashed after the append or the handler, before the acknowledgement; or
      the message was claimed while another consumer had it, as a claim does not wait
      for it to be idle. */
  function SlipOf(s: State, a: Action, m: Id): Option<Slip> {
    if a.Crash? && a.c in s.consumers && Settles(s.consumers[a.c], m) then Some(CrashBeforeAck)
    else if !a.Command? || a.c !in s.consumers then None
    else
      match s.consumers[a.c]
      case Burying(at, _) => if at == m && a.reply.ReplyLost? then Some(LostAppend) else None
      case Acking(at, _) => if at == m && a.reply.Refused? then Some(RefusedAck) else None
      case Claiming(ids) =>
        if a.reply.Answered? && m in StillPending(s.redis, ids) && Holders(s, m) + Settlers(s, m) != {}
        then Some(SecondHolder) else None
      case _ => None
  }

  function Slips(s: State, actions: seq<Action>, m: Id): seq<Slip>
    requires Run(s, actions).Some?
    decreases |actions|
  {
    if actions == [] then []
    else
      (if SlipOf(s, actions[0], m).Some? then [SlipOf(s, actions[0], m).value] else [])
      + Slips(Apply(s, actions[0]), actions[1..], m)
  }

  // ---- Batches stay in order ----

  lemma Prepended(first: Id, rest: seq<Id>)
    requires Increasing(rest) && forall m | m in rest :: first < m
    ensures Increasing([first] + rest)
  {
    var all := [first] + rest;
    forall i, j | 0 <= i < j < |all| ensures all[i] < all[j] {
      assert rest[j - 1] in rest;
      assert i > 0 ==> all[i] == rest[i - 1];
    }
  }

  /** An element may be put in front or left out. */
  lemma PerhapsPrepended(first: Id, rest: seq<Id>, put: bool)
    requires Increasing(rest) && forall m | m in rest :: first < m
    ensures Increasing((if put then [first] else []) + rest)
  {
    if put {
      Prepended(first, rest);
    } else {
      assert [] + rest == rest;
    }
  }

  lemma {:induction false} PendingInOrder(r: Redis, first: Id, end: Id)
    requires first <= end
    ensures Increasing(PendingBetween(r, first, end))
    decreases end - first
  {
    if first < end {
      PendingInOrder(r, first + 1, end);
      PerhapsPrepended(first, PendingBetween(r, first + 1, end), first in r.pending);
    }
  }

  lemma {:induction false} StillInOrder(r: Redis, ids: seq<Id>)
    requires Increasing(ids)
    ensures Increasing(StillPending(r, ids))
  {
    if ids != [] {
      StillInOrder(r, ids[1..]);
      assert forall m | m in ids[1..] :: ids[0] < m;
      PerhapsPrepended(ids[0], StillPending(r, ids[1..]), ids[0] in r.pending);
    }
  }

  lemma AnswerInOrder(r: Redis, pc: Pc)
    requires IsCommand(pc) && Increasing(Batch(pc)) && (pc.ReadingNew? ==> r.delivered <= |r.stream|)
    ensures Increasing(Batch(Answer(r, pc)))
  {
    match pc
    case Listing => PendingInOrder(r, 0, r.delivered);
    case Claiming(ids) => StillInOrder(r, ids);
    case Acking(m, rest) => assert rest == ([m] + rest)[1..];
    case _ =>
  }

  lemma StepKeepsOrder(s: State, a: Action)
    requires Enabled(s, a) && BatchesOk(s)
    ensures BatchesOk(Apply(s, a))
  {
    match a
    case Command(c, reply, _, _) =>
      assert Increasing(Batch(s.consumers[c]));
      if reply.Answered? {
        AnswerInOrder(s.redis, s.consumers[c]);
      }
    case RunHandler(c, succeeds) =>
      assert Increasing(Batch(s.consumers[c]));
    case NextMessage(c) =>
      var rest := s.consumers[c].rest;
      assert Increasing(Batch(s.consumers[c]));
      assert rest != [] ==> [rest[0]] + rest[1..] == rest;
    case _ =>
  }

  // ---- One step pays for its append ----

  /** The consumer whose state the step changes. */
  function Actor(a: Action): Option<Consumer> {
    match a
    case PublishEvent(_) => None
    case CounterExpires(_) => None
    case _ => Some(a.c)
  }

  function PcOf(s: State, c: Consumer): Option<Pc> {
    if c in s.consumers then Some(s.consumers[c]) else None
  }

  /** What the consumer itself contributes to what is owed; `alone`: no other has
      the message. */
  function Part(pc: Option<Pc>, m: Id, pending: bool, alone: bool): nat {
    if pc.Some? && Holds(pc.value, m) then 1
    else if alone && pending && !(pc.Some? && Settles(pc.value, m)) then 1
    else 0
  }

  function Others(s: State, c: Consumer, m: Id): set<Consumer> {
    Holders(s, m) - {c}
  }

  predicate Alone(s: State, c: Consumer, m: Id) {
    Holders(s, m) - {c} == {} && Settlers(s, m) - {c} == {}
  }

  lemma OwedSplits(s: State, c: Consumer, m: Id)
    requires m < s.redis.delivered
    ensures Owed(s, m) == |Others(s, c, m)| + Part(PcOf(s, c), m, m in s.redis.pending, Alone(s, c, m))
  {
    var holders, settlers := Holders(s, m), Settlers(s, m);
    assert c in holders <==> PcOf(s, c).Some? && Holds(PcOf(s, c).value, m);
    assert c in settlers <==> PcOf(s, c).Some? && Settles(PcOf(s, c).value, m);
    if c in holders {
      assert holders == holders - {c} + {c};
    } else {
      assert holders - {c} == holders;
    }
    assert c !in settlers ==> settlers - {c} == settlers;
  }

  /** One consumer moves: the others have what they had. */
  lemma OthersStay(s: State, after: State, c: Consumer, m: Id)
    requires forall other | other != c :: PcOf(after, other) == PcOf(s, other)
    ensures Others(after, c, m) == Others(s, c, m) && (Alone(after, c, m) <==> Alone(s, c, m))
  {
    forall other | other != c
      ensures other in Holders(after, m) <==> other in Holders(s, m)
      ensures other in Settlers(after, m) <==> other in Settlers(s, m)
    {
      assert PcOf(after, other) == PcOf(s, other);
    }
    assert Settlers(after, m) - {c} == Settlers(s, m) - {c};
  }

  /** What the command does to the message: whether it is pending, and who has it. */
  lemma CommandPays(r: Redis, pc: Pc, reply: Reply, reason: string, time: string, m: Id, alone: bool, slip: bool)
    requires IsCommand(pc) && Increasing(Batch(pc)) && WellFormed(r) && m < r.delivered
    requires pc.Burying? ==> pc.m < |r.stream|
    requires pc.Burying? && pc.m == m && reply.ReplyLost? ==> slip
    requires pc.Acking? && pc.m == m && reply.Refused? ==> slip
    requires pc.Claiming? && reply.Answered? && m in StillPending(r, pc.ids) && !alone ==> slip
    ensures var after := if reply.Refused? then r else Effect(r, pc, reason, time);
            var next := if reply.Answered? then Answer(r, pc) else Failure(r, pc);
            (if !reply.Refused? && pc.Burying? && pc.m == m then 1 else 0) + Part(Some(next), m, m in after.pending, alone)
            <= Part(Some(pc), m, m in r.pending, alone) + (if slip then 1 else 0)
  {
    match pc
    case ReadingNew => assert m !in NewBatch(r);
    case Burying(at, rest) => NotInRest(at, rest);
    case Clearing(_, _) =>
    case Acking(at, rest) => NotInRest(at, rest);
    case _ =>
  }

  lemma NotInRest(m: Id, rest: seq<Id>)
    requires Increasing([m] + rest)
    ensures m !in rest
  {
    forall i | 0 <= i < |rest| ensures rest[i] != m {
      assert ([m] + rest)[i + 1] == rest[i] && ([m] + rest)[0] == m;
    }
  }

  lemma ActorPays(s: State, a: Action, c: Consumer, m: Id)
    requires Inv(s) && BatchesOk(s) && Enabled(s, a) && m < s.redis.delivered && Actor(a) == Some(c)
    ensures var after := Apply(s, a);
            (if Appends(s, a, m) then 1 else 0) + Part(PcOf(after, c), m, m in after.redis.pending, Alone(s, c, m))
            <= Part(PcOf(s, c), m, m in s.redis.pending, Alone(s, c, m)) + (if SlipOf(s, a, m).Some? then 1 else 0)
  {
    match a
    case Command(_, reply, reason, time) =>
      var pc := s.consumers[c];
      assert Increasing(Batch(pc)) && ConsumerOk(s.redis, pc);
      assert c in Holders(s, m) <==> Holds(pc, m);
      assert c in Settlers(s, m) <==> Settles(pc, m);
      CommandPays(s.redis, pc, reply, reason, time, m, Alone(s, c, m), SlipOf(s, a, m).Some?);
    case NextMessage(_) =>
      var rest := s.consumers[c].rest;
      assert rest != [] ==> rest == [rest[0]] + rest[1..];
    case _ =>
  }

  lemma NobodyHasUndelivered(s: State, m: Id)
    requires Inv(s) && m >= s.redis.delivered
    ensures Owed(s, m) == 1
  {
    forall c | c in s.consumers ensures !Holds(s.consumers[c], m) {
      assert ConsumerOk(s.redis, s.consumers[c]);
    }
    assert Holders(s, m) == {};
  }

  /** A delivered message has one holder, or none if the reply was lost. */
  lemma DeliveryPays(s: State, a: Action, m: Id)
    requires Inv(s) && Enabled(s, a) && m >= s.redis.delivered && m < Apply(s, a).redis.delivered
    ensures Owed(Apply(s, a), m) <= 1 && !Appends(s, a, m)
  {
    var after := Apply(s, a);
    assert ConsumerOk(s.redis, s.consumers[a.c]);
    NobodyHasUndelivered(s, m);
    OthersStay(s, after, a.c, m);
    assert Holders(s, m) == {} by {
      forall c | c in s.consumers ensures !Holds(s.consumers[c], m) {
        assert ConsumerOk(s.redis, s.consumers[c]);
      }
    }
    OwedSplits(after, a.c, m);
  }

  /** Over one step the entries of a message and the appends still owed for it grow
      together by no more than the slip. */
  lemma StepPays(s: State, a: Action, m: Id)
    requires Inv(s) && BatchesOk(s) && Enabled(s, a)
    ensures Entries(Apply(s, a).redis.dlq, m) + Owed(Apply(s, a), m)
            <= Entries(s.redis.dlq, m) + Owed(s, m) + if SlipOf(s, a, m).Some? then 1 else 0
  {
    var after := Apply(s, a);
    EntriesAfter(s, a, m);
    ActionKeeps(s, a);
    if m >= after.redis.delivered {
      UndeliveredPays(s, a, m);
    } else if m >= s.redis.delivered {
      NobodyHasUndelivered(s, m);
      DeliveryPays(s, a, m);
    } else if Actor(a).Some? {
      var c := Actor(a).value;
      ActorPays(s, a, c, m);
      OthersStay(s, after, c, m);
      OwedSplits(s, c, m);
      OwedSplits(after, c, m);
    } else {
      assert Holders(after, m) == Holders(s, m) && Settlers(after, m) == Settlers(s, m);
    }
  }

  lemma UndeliveredPays(s: State, a: Action, m: Id)
    requires Inv(s) && Enabled(s, a) && Inv(Apply(s, a)) && m >= Apply(s, a).redis.delivered
    ensures !Appends(s, a, m) && Owed(s, m) == 1 && Owed(Apply(s, a), m) == 1
  {
    NobodyHasUndelivered(s, m);
    NobodyHasUndelivered(Apply(s, a), m);
    if a.Command? {
      assert ConsumerOk(s.redis, s.consumers[a.c]);
    }
  }

  lemma {:induction false} RunPays(s: State, actions: seq<Action>, m: Id)
    requires Inv(s) && BatchesOk(s) && Run(s, actions).Some?
    ensures Entries(Run(s, actions).value.redis.dlq, m) + Owed(Run(s, actions).value, m)
            <= Entries(s.redis.dlq, m) + Owed(s, m) + |Slips(s, actions, m)|
    decreases |actions|
  {
    if actions != [] {
      StepPays(s, actions[0], m);
      ActionKeeps(s, actions[0]);
      StepKeepsOrder(s, actions[0]);
      RunPays(Apply(s, actions[0]), actions[1..], m);
    }
  }

  /** In every run from the empty stream a message has at most one entry and one for
      every slip. */
  lemma EntriesAreBounded(actions: seq<Action>, m: Id)
    requires Run(START, actions).Some?
    ensures Entries(Run(START, actions).value.redis.dlq, m) <= 1 + |Slips(START, actions, m)|
  {
    NobodyHasUndelivered(START, m);
    RunPays(START, actions, m);
  }

  /** One consumer, no crash, and every command answered. */
  predicate Calm(actions: seq<Action>, c: Consumer) {
    forall a | a in actions ::
      (Actor(a) == None || Actor(a) == Some(c)) && !a.Crash? && (a.Command? ==> a.reply.Answered?)
  }

  lemma {:induction false} CalmHasNoSlip(s: State, actions: seq<Action>, c: Consumer, m: Id)
    requires Run(s, actions).Some? && Calm(actions, c) && s.consumers.Keys <= {c}
    ensures Slips(s, actions, m) == []
    decreases |actions|
  {
    if actions != [] {
      var a := actions[0];
      assert a in actions && forall b | b in actions[1..] :: b in actions;
      assert SlipOf(s, a, m) == None by {
        if a.Command? && s.consumers[a.c].Claiming? {
          assert Holders(s, m) == {} && Settlers(s, m) == {};
        }
      }
      CalmHasNoSlip(Apply(s, a), actions[1..], c, m);
    }
  }

  /** A single consumer to whom nothing happens dead-letters no message twice. */
  lemma CalmIsOnce(actions: seq<Action>, c: Consumer)
    requires Run(START, actions).Some? && Calm(actions, c)
    ensures Once(Run(START, actions).value.redis)
  {
    forall m ensures Entries(Run(START, actions).value.redis.dlq, m) <= 1 {
      CalmHasNoSlip(START, actions, c, m);
      EntriesAreBounded(actions, m);
    }
  }

  // ---- Each slip alone repeats an entry ----

  /** Some run leads there, with these slips for the first message. */
  ghost predicate Reaches(s: State, t: State, slips: seq<Slip>) {
    exists actions :: Run(s, actions) == Some(t) && Slips(s, actions, 0) == slips
  }

  lemma {:induction false} RunConcat(s: State, first: seq<Action>, rest: seq<Action>)
    requires Run(s, first).Some? && Run(Run(s, first).value, rest).Some?
    ensures Run(s, first + rest) == Run(Run(s, first).value, rest)
    decreases |first|
  {
    if first == [] {
      assert first + rest == rest;
    } else {
      assert (first + rest)[1..] == first[1..] + rest;
      RunConcat(Apply(s, first[0]), first[1..], rest);
    }
  }

  lemma {:induction false} SlipsConcat(s: State, first: seq<Action>, rest: seq<Action>)
    requires Run(s, first).Some? && Run(Run(s, first).value, rest).Some? && Run(s, first + rest).Some?
    ensures Slips(s, first + rest, 0) == Slips(s, first, 0) + Slips(Run(s, first).value, rest, 0)
    decreases |first|
  {
    if first == [] {
      assert first + rest == rest;
    } else {
      assert (first + rest)[1..] == first[1..] + rest;
      SlipsConcat(Apply(s, first[0]), first[1..], rest);
    }
  }

  lemma Chain(s: State, t: State, u: State, before: seq<Slip>, after: seq<Slip>)
    requires Reaches(s, t, before) && Reaches(t, u, after)
    ensures Reaches(s, u, before + after)
  {
    var first :| Run(s, first) == Some(t) && Slips(s, first, 0) == before;
    var rest :| Run(t, rest) == Some(u) && Slips(t, rest, 0) == after;
    RunConcat(s, first, rest);
    SlipsConcat(s, first, rest);
  }

  /** One more step, with its slip. */
  lemma Then(s: State, t: State, slips: seq<Slip>, a: Action)
    requires Reaches(s, t, slips) && Enabled(t, a)
    ensures Reaches(s, Apply(t, a), if SlipOf(t, a, 0).Some? then slips + [SlipOf(t, a, 0).value] else slips)
  {
    var actions, none: seq<Action> := [a], [];
    assert actions[1..] == none;
    var next := Apply(t, a);
    var own := if SlipOf(t, a, 0).Some? then [SlipOf(t, a, 0).value] else [];
    assert Run(next, none) == Some(next) && Slips(next, none, 0) == [];
    assert Run(t, actions) == Run(next, actions[1..]);
    assert Slips(t, actions, 0) == own + Slips(next, actions[1..], 0);
    assert own + [] == own;
    assert Reaches(t, next, own);
    Chain(s, t, next, slips, own);
    assert slips + [] == slips;
  }

  lemma Here(s: State)
    ensures Reaches(s, s, [])
  {
    var none: seq<Action> := [];
    assert Run(s, none) == Some(s) && Slips(s, none, 0) == [];
  }

  function With(s: State, c: Consumer, pc: Pc): State {
    s.(consumers := s.consumers[c := pc])
  }

  function Done(c: Consumer): Action {
    Command(c, Answered, "", "")
  }

  /** The first message of the stream has been delivered and not acknowledged. */
  predicate OnlyFirstPending(r: Redis) {
    |r.stream| == 1 && r.delivered == 1 && r.pending == {0}
  }

  lemma FirstIsListed(r: Redis)
    requires OnlyFirstPending(r)
    ensures ListPending(r) == [0] && StillPending(r, [0]) == [0]
  {
    assert PendingBetween(r, 0, 1) == [0] by {
      assert PendingBetween(r, 1, 1) == [];
    }
    assert [0][1..] == [];
  }

  /** The message at the head of a batch comes to its handler. */
  lemma TakesUp(s: State, c: Consumer)
    requires c in s.consumers && s.consumers[c] == Working([0])
    ensures Reaches(s, With(s, c, Handling(0, [], RetryCount(s.redis, 0))), [])
  {
    var batch: seq<Id> := [0];
    assert batch[1..] == [];
    Here(s);
    Then(s, s, [], NextMessage(c));
    var counting := With(s, c, Counting(0, []));
    Then(s, counting, [], Done(c));
    assert Apply(counting, Done(c)) == With(s, c, Handling(0, [], RetryCount(s.redis, 0)));
  }

  /** A pending message is listed and claimed, whoever has it. */
  lemma Claims(s: State, c: Consumer)
    requires OnlyFirstPending(s.redis) && c in s.consumers && s.consumers[c] == Listing
    ensures Reaches(s, With(s, c, Working([0])), if Holders(s, 0) + Settlers(s, 0) == {} then [] else [SecondHolder])
  {
    FirstIsListed(s.redis);
    Here(s);
    Then(s, s, [], Done(c));
    var claiming := With(s, c, Claiming([0]));
    assert Apply(s, Done(c)) == claiming;
    assert Holders(claiming, 0) == Holders(s, 0) && Settlers(claiming, 0) == Settlers(s, 0);
    Then(s, claiming, [], Done(c));
    assert Apply(claiming, Done(c)) == With(s, c, Working([0]));
    assert [] + [SecondHolder] == [SecondHolder];
  }

  lemma Fetches(s: State, c: Consumer)
    requires OnlyFirstPending(s.redis) && c in s.consumers && s.consumers[c] == Listing
    ensures Reaches(s, With(s, c, Handling(0, [], RetryCount(s.redis, 0))),
                    if Holders(s, 0) + Settlers(s, 0) == {} then [] else [SecondHolder])
  {
    var slips := if Holders(s, 0) + Settlers(s, 0) == {} then [] else [SecondHolder];
    Claims(s, c);
    TakesUp(With(s, c, Working([0])), c);
    assert With(With(s, c, Working([0])), c, Handling(0, [], RetryCount(s.redis, 0)))
        == With(s, c, Handling(0, [], RetryCount(s.redis, 0)));
    Chain(s, With(s, c, Working([0])), With(s, c, Handling(0, [], RetryCount(s.redis, 0))), slips, []);
    assert slips + [] == slips;
  }

  function Counted(r: Redis, retries: nat): Redis {
    r.(retries := r.retries[0 := retries])
  }

  /** The handler raises and is to be retried. */
  lemma FailsOnce(r: Redis, c: Consumer)
    requires RetryCount(r, 0) < MAX_RETRIES
    ensures Reaches(State(r, map[c := Handling(0, [], RetryCount(r, 0))]),
                    State(Counted(r, RetryCount(r, 0) + 1), map[c := Listing]), [])
  {
    var s := State(r, map[c := Handling(0, [], RetryCount(r, 0))]);
    var bumping := State(r, map[c := Bumping(0, [])]);
    Here(s);
    Then(s, s, [], RunHandler(c, false));
    assert Apply(s, RunHandler(c, false)) == bumping;
    Then(s, bumping, [], Done(c));
    assert Apply(bumping, Done(c)) == State(Counted(r, RetryCount(r, 0) + 1), map[c := Listing]);
  }

  /** A lone consumer takes the message up. */
  lemma FetchesAlone(r: Redis, c: Consumer)
    requires OnlyFirstPending(r)
    ensures Reaches(State(r, map[c := Listing]), State(r, map[c := Handling(0, [], RetryCount(r, 0))]), [])
  {
    var s := State(r, map[c := Listing]);
    assert Holders(s, 0) == {} && Settlers(s, 0) == {};
    Fetches(s, c);
    assert With(s, c, Handling(0, [], RetryCount(r, 0))) == State(r, map[c := Handling(0, [], RetryCount(r, 0))]);
  }

  lemma FailsForGood(r: Redis, c: Consumer)
    requires RetryCount(r, 0) == MAX_RETRIES
    ensures Reaches(State(r, map[c := Handling(0, [], RetryCount(r, 0))]),
                    State(Counted(r, MAX_RETRIES), map[c := Burying(0, [])]), [])
  {
    var s := State(r, map[c := Handling(0, [], RetryCount(r, 0))]);
    Here(s);
    Then(s, s, [], RunHandler(c, false));
    assert Counted(r, MAX_RETRIES) == r;
    assert Apply(s, RunHandler(c, false)) == State(r, map[c := Burying(0, [])]);
  }

  /** A lone consumer whose handler keeps raising comes to the append. */
  lemma {:induction false} Exhausts(r: Redis, c: Consumer)
    requires OnlyFirstPending(r) && RetryCount(r, 0) <= MAX_RETRIES
    ensures Reaches(State(r, map[c := Listing]), State(Counted(r, MAX_RETRIES), map[c := Burying(0, [])]), [])
    decreases MAX_RETRIES - RetryCount(r, 0)
  {
    var s, handling := State(r, map[c := Listing]), State(r, map[c := Handling(0, [], RetryCount(r, 0))]);
    var end := State(Counted(r, MAX_RETRIES), map[c := Burying(0, [])]);
    FetchesAlone(r, c);
    if RetryCount(r, 0) == MAX_RETRIES {
      FailsForGood(r, c);
      Chain(s, handling, end, [], []);
    } else {
      var more := Counted(r, RetryCount(r, 0) + 1);
      FailsOnce(r, c);
      Chain(s, handling, State(more, map[c := Listing]), [], []);
      Exhausts(more, c);
      assert Counted(more, MAX_RETRIES) == Counted(r, MAX_RETRIES);
      Chain(s, State(more, map[c := Listing]), end, [], []);
    }
  }

  function Delivered(payload: Payload, retries: map<Id, nat>): Redis {
    Redis([payload], 1, {0}, retries, [], {})
  }

  /** A published message is delivered to the first consumer. */
  lemma FirstDelivery(payload: Payload)
    ensures Reaches(START, State(Delivered(payload, map[]), map[7 := Working([0])]), [])
  {
    var r := Publish(START.redis, payload);
    Here(START);
    Then(START, START, [], PublishEvent(payload));
    Then(START, State(r, map[]), [], Join(7));
    assert Apply(State(r, map[]), Join(7)) == State(r, map[7 := Listing]);
    Then(START, State(r, map[7 := Listing]), [], Done(7));
    assert Apply(State(r, map[7 := Listing]), Done(7)) == State(r, map[7 := ReadingNew]);
    Then(START, State(r, map[7 := ReadingNew]), [], Done(7));
    assert NewBatch(r) == [0];
    assert Deliver(r).pending == {0};
    assert Apply(State(r, map[7 := ReadingNew]), Done(7)) == State(Delivered(payload, map[]), map[7 := Working([0])]);
  }

  /** The message has failed four times and is about to be appended. */
  function Exhausted(payload: Payload): State {
    State(Delivered(payload, map[0 := MAX_RETRIES]), map[7 := Burying(0, [])])
  }

  lemma CountedOnceIsReached(payload: Payload)
    ensures Reaches(START, State(Counted(Delivered(payload, map[]), 1), map[7 := Listing]), [])
  {
    var r := Delivered(payload, map[]);
    var working, handling := State(r, map[7 := Working([0])]), State(r, map[7 := Handling(0, [], 0)]);
    FirstDelivery(payload);
    TakesUp(working, 7);
    assert With(working, 7, Handling(0, [], 0)) == handling;
    Chain(START, working, handling, [], []);
    FailsOnce(r, 7);
    Chain(START, handling, State(Counted(r, 1), map[7 := Listing]), [], []);
  }

  lemma ExhaustedIsReached(payload: Payload)
    ensures Reaches(START, Exhausted(payload), [])
  {
    var r := Delivered(payload, map[]);
    CountedOnceIsReached(payload);
    Exhausts(Counted(r, 1), 7);
    assert Counted(Counted(r, 1), MAX_RETRIES) == Delivered(payload, map[0 := MAX_RETRIES]);
    Chain(START, State(Counted(r, 1), map[7 := Listing]), Exhausted(payload), [], []);
  }

  /** From a lone consumer at its listing, the message once entered: it is entered again. */
  lemma EntersAgain(r: Redis, c: Consumer, slips: seq<Slip>)
    requires OnlyFirstPending(r) && RetryCount(r, 0) <= MAX_RETRIES && Entries(r.dlq, 0) == 1
    requires Reaches(START, State(r, map[c := Listing]), slips)
    ensures exists t :: Reaches(START, t, slips) && Entries(t.redis.dlq, 0) == 2
  {
    var burying := State(Counted(r, MAX_RETRIES), map[c := Burying(0, [])]);
    Exhausts(r, c);
    Chain(START, State(r, map[c := Listing]), burying, slips, []);
    assert slips + [] == slips;
    Then(START, burying, slips, Done(c));
    EntriesAfter(burying, Done(c), 0);
    assert Entries(Apply(burying, Done(c)).redis.dlq, 0) == 2;
  }

  /** The message after its first append. */
  function Entered(payload: Payload, retries: map<Id, nat>): Redis {
    Bury(Delivered(payload, retries), 0, "", "")
  }

  lemma FirstEntry(payload: Payload, retries: map<Id, nat>)
    ensures Entries(Entered(payload, retries).dlq, 0) == 1 && OnlyFirstPending(Entered(payload, retries))
  {
    OneMoreEntry([], Entered(payload, retries).dlq[0], 0);
    assert [] + [Entered(payload, retries).dlq[0]] == Entered(payload, retries).dlq;
  }

  lemma LostAppendRepeats(payload: Payload)
    ensures exists t :: Reaches(START, t, [LostAppend]) && Entries(t.redis.dlq, 0) == 2
  {
    var s, r := Exhausted(payload), Entered(payload, map[0 := MAX_RETRIES]);
    var a := Command(7, ReplyLost, "", "");
    ExhaustedIsReached(payload);
    Then(START, s, [], a);
    assert Apply(s, a) == State(r, map[7 := Listing]);
    assert [] + [LostAppend] == [LostAppend];
    FirstEntry(payload, map[0 := MAX_RETRIES]);
    EntersAgain(r, 7, [LostAppend]);
  }

  /** The append was answered. */
  lemma AppendAnswered(payload: Payload)
    ensures Reaches(START, State(Entered(payload, map[0 := MAX_RETRIES]), map[7 := Clearing(0, [])]), [])
  {
    ExhaustedIsReached(payload);
    Then(START, Exhausted(payload), [], Done(7));
    assert Apply(Exhausted(payload), Done(7)) == State(Entered(payload, map[0 := MAX_RETRIES]), map[7 := Clearing(0, [])]);
  }

  lemma RefusedAckRepeats(payload: Payload)
    ensures exists t :: Reaches(START, t, [RefusedAck]) && Entries(t.redis.dlq, 0) == 2
  {
    var clearing := State(Entered(payload, map[0 := MAX_RETRIES]), map[7 := Clearing(0, [])]);
    var acking := State(Entered(payload, map[]), map[7 := Acking(0, [])]);
    var a := Command(7, Refused, "", "");
    AppendAnswered(payload);
    Then(START, clearing, [], Done(7));
    assert map[0 := MAX_RETRIES] - {0} == map[];
    assert Apply(clearing, Done(7)) == acking;
    Then(START, acking, [], a);
    assert Apply(acking, a) == State(Entered(payload, map[]), map[7 := Listing]);
    assert [] + [RefusedAck] == [RefusedAck];
    FirstEntry(payload, map[]);
    EntersAgain(Entered(payload, map[]), 7, [RefusedAck]);
  }

  lemma CrashRepeats(payload: Payload)
    ensures exists t :: Reaches(START, t, [CrashBeforeAck]) && Entries(t.redis.dlq, 0) == 2
  {
    var r := Entered(payload, map[0 := MAX_RETRIES]);
    var clearing := State(r, map[7 := Clearing(0, [])]);
    AppendAnswered(payload);
    Then(START, clearing, [], Crash(7));
    assert Apply(clearing, Crash(7)) == State(r, map[]);
    assert [] + [CrashBeforeAck] == [CrashBeforeAck];
    Then(START, State(r, map[]), [CrashBeforeAck], Join(8));
    assert Apply(State(r, map[]), Join(8)) == State(r, map[8 := Listing]);
    FirstEntry(payload, map[0 := MAX_RETRIES]);
    EntersAgain(r, 8, [CrashBeforeAck]);
  }

  /** Two consumers at the append of the same message, every command answered. */
  lemma BothReachAppend(payload: Payload)
    ensures Reaches(START, State(Delivered(payload, map[0 := MAX_RETRIES]), map[7 := Burying(0, []), 8 := Burying(0, [])]),
                    [SecondHolder])
  {
    var s, r := Exhausted(payload), Delivered(payload, map[0 := MAX_RETRIES]);
    var joined := State(r, map[7 := Burying(0, []), 8 := Listing]);
    var handling := State(r, map[7 := Burying(0, []), 8 := Handling(0, [], MAX_RETRIES)]);
    ExhaustedIsReached(payload);
    Then(START, s, [], Join(8));
    assert Apply(s, Join(8)) == joined;
    assert 7 in Holders(joined, 0);
    Fetches(joined, 8);
    assert With(joined, 8, Handling(0, [], MAX_RETRIES)) == handling;
    Chain(START, joined, handling, [], [SecondHolder]);
    assert [] + [SecondHolder] == [SecondHolder];
    Then(START, handling, [SecondHolder], RunHandler(8, false));
    assert Apply(handling, RunHandler(8, false)).consumers == map[7 := Burying(0, []), 8 := Burying(0, [])];
  }

  lemma SecondHolderRepeats(payload: Payload)
    ensures exists t :: Reaches(START, t, [SecondHolder]) && Entries(t.redis.dlq, 0) == 2
  {
    var both := State(Delivered(payload, map[0 := MAX_RETRIES]), map[7 := Burying(0, []), 8 := Burying(0, [])]);
    BothReachAppend(payload);
    Then(START, both, [SecondHolder], Done(7));
    var once := Apply(both, Done(7));
    EntriesAfter(both, Done(7), 0);
    Then(START, once, [SecondHolder], Done(8));
    EntriesAfter(once, Done(8), 0);
    assert Entries(Apply(once, Done(8)).redis.dlq, 0) == 2;
  }

  /** Each kind of slip, once and alone, leads from the empty stream to two entries of
      one message: the bound is tight. */
  lemma DeadLettersCanRepeat(payload: Payload, slip: Slip)
    ensures exists t :: Reaches(START, t, [slip]) && Entries(t.redis.dlq, 0) == 2
  {
    match slip
    case LostAppend => LostAppendRepeats(payload);
    case RefusedAck => RefusedAckRepeats(payload);
    case CrashBeforeAck => CrashRepeats(payload);
    case SecondHolder => SecondHolderRepeats(payload);
  }
}
