/** Every interleaving of acquisitions, renewals and releases on one Redis: a
    call checks the handle, waits, has its script run by the server, waits again
    and resumes; time may pass, and a connection may break, at any wait. */
module LeaseRuns {
  import opened DistLock

  datatype Call =
    | RenewAsked(seconds: int)
    | ReleaseAsked
    | Renewed(seconds: int, held: bool)
    | Deleted(held: bool)

  /** `registered`: the body of the `async with` has begun; `inBody`: and no
      release has reached the server. `deadline` is the expiry last set for the token. */
  datatype Handle = Handle(key: string, process: nat, ttl: int, lost: bool, released: bool,
                           calls: multiset<Call>, registered: bool, inBody: bool, deadline: int)

  datatype State = State(now: int, redis: Redis, handles: map<nat, Handle>, registry: map<(nat, string), nat>)

  datatype Action =
    | Tick(ms: nat)
    | Acquire(h: nat, key: string, process: nat, seconds: int)
    | Register(h: nat)
    | AskRenew(h: nat, seconds: int)
    | AskRelease(h: nat)
    | Evaluate(h: nat, call: Call)
    | Resume(h: nat, call: Call)

  function Reply(s: State, h: nat, call: Call): Call
    requires h in s.handles
  {
    var held := Held(s.redis, s.handles[h].key, h, s.now);
    match call
    case RenewAsked(seconds) => Renewed(seconds, held)
    case ReleaseAsked => Deleted(held)
    case _ => call
  }

  predicate Asked(call: Call) {
    call.RenewAsked? || call.ReleaseAsked?
  }

  /** A broken connection is a call that is never resumed, whether or not the
      server evaluates it; its caller may ask again. */
  predicate Enabled(s: State, a: Action) {
    match a
    case Tick(_) => true
    case Acquire(h, key, _, seconds) => h !in s.handles && seconds >= LOCK_MIN_TTL_SECONDS && Free(s.redis, key, s.now)
    case Register(h) => h in s.handles && !s.handles[h].registered
    case AskRenew(h, seconds) =>
      && h in s.handles && s.handles[h].registered && !s.handles[h].lost && !s.handles[h].released
      && seconds >= LOCK_MIN_TTL_SECONDS
    case AskRelease(h) => h in s.handles && s.handles[h].registered && !s.handles[h].released
    case Evaluate(h, call) => h in s.handles && call in s.handles[h].calls && Asked(call)
    case Resume(h, call) => h in s.handles && call in s.handles[h].calls && !Asked(call)
  }

  function Without(handle: Handle, call: Call): Handle {
    handle.(calls := handle.calls - multiset{call})
  }

  function EvaluateIn(s: State, h: nat, call: Call): State
    requires h in s.handles && Asked(call)
  {
    var handle := s.handles[h];
    var held := Held(s.redis, handle.key, h, s.now);
    var next := Without(handle, call).(calls := handle.calls - multiset{call} + multiset{Reply(s, h, call)});
    if call.RenewAsked? then
      s.(redis := RenewScript(s.redis, handle.key, h, call.seconds * 1000, s.now),
         handles := s.handles[h := if held then next.(deadline := s.now + call.seconds * 1000) else next])
    else
      s.(redis := ReleaseScript(s.redis, handle.key, h, s.now), handles := s.handles[h := next.(inBody := false)])
  }

  function MarkLost(s: State, h: nat): State
    requires h in s.handles
  {
    var handle := s.handles[h];
    var at := (handle.process, handle.key);
    s.(handles := s.handles[h := handle.(lost := true)],
       registry := if at in s.registry && s.registry[at] == h then s.registry - {at} else s.registry)
  }

  function ResumeIn(s: State, h: nat, call: Call): State
    requires h in s.handles && !Asked(call)
  {
    var handle := Without(s.handles[h], call);
    var at := (handle.process, handle.key);
    match call
    case Renewed(seconds, held) =>
      if held then s.(handles := s.handles[h := handle.(ttl := seconds)])
      else MarkLost(s.(handles := s.handles[h := handle]), h)
    case Deleted(held) =>
      var done := s.(handles := s.handles[h := handle.(released := true)]);
      if held then done.(registry := s.registry - {at}) else MarkLost(done, h)
    case _ => s
  }

  function Apply(s: State, a: Action): State
    requires Enabled(s, a)
  {
    match a
    case Tick(ms) => s.(now := s.now + ms)
    case Acquire(h, key, process, seconds) =>
      s.(redis := SetNx(s.redis, key, h, seconds * 1000, s.now),
         handles := s.handles[h := Handle(key, process, seconds, false, false, multiset{}, false, false,
                                          s.now + seconds * 1000)])
    case Register(h) =>
      var handle := s.handles[h];
      s.(handles := s.handles[h := handle.(registered := true, inBody := true)],
         registry := s.registry[(handle.process, handle.key) := h])
    case AskRenew(h, seconds) =>
      s.(handles := s.handles[h := s.handles[h].(calls := s.handles[h].calls + multiset{RenewAsked(seconds)})])
    case AskRelease(h) =>
      var handle := s.handles[h];
      if handle.lost then s.(handles := s.handles[h := handle.(released := true, inBody := false)])
      else s.(handles := s.handles[h := handle.(calls := handle.calls + multiset{ReleaseAsked})])
    case Evaluate(h, call) => EvaluateIn(s, h, call)
    case Resume(h, call) => ResumeIn(s, h, call)
  }

  // ---- Invariants ----

  predicate Holds(s: State, h: nat) {
    h in s.handles && Held(s.redis, s.handles[h].key, h, s.now)
  }

  /** Every entry was set by a known token for its own key. */
  ghost predicate EntriesOk(s: State) {
    forall k | k in s.redis ::
      && s.redis[k].token in s.handles && s.handles[s.redis[k].token].key == k
      && s.handles[s.redis[k].token].deadline == s.redis[k].expiry
  }

  /** The handle has learnt, or is about to learn, that it does not hold. */
  predicate Told(handle: Handle) {
    || handle.lost || handle.released
    || (exists call | call in handle.calls :: call.Deleted? || (call.Renewed? && !call.held))
  }

  ghost predicate ToldOk(s: State) {
    forall h | h in s.handles && Told(s.handles[h]) :: !Holds(s, h)
  }

  /** Until its release or its deadline a token holds its key. */
  predicate Owes(handle: Handle, now: int) {
    (!handle.registered || handle.inBody) && now < handle.deadline
  }

  ghost predicate BodiesHold(s: State) {
    forall h | h in s.handles && Owes(s.handles[h], s.now) :: Holds(s, h)
  }

  /** Only registered handles call, with valid times to live. */
  predicate HandleOk(handle: Handle) {
    forall call | call in handle.calls ::
      handle.registered && (call.RenewAsked? ==> call.seconds >= LOCK_MIN_TTL_SECONDS)
  }

  ghost predicate CallsOk(s: State) {
    forall h | h in s.handles :: HandleOk(s.handles[h])
  }

  ghost predicate Inv(s: State) {
    CallsOk(s) && EntriesOk(s) && ToldOk(s) && BodiesHold(s)
  }

  /** One handle changed, and for the others the server did not. */
  lemma OneChanged(s: State, t: State, h: nat)
    requires Inv(s) && h in t.handles && t.now == s.now && t.handles == s.handles[h := t.handles[h]]
    requires forall k | k in s.handles && k != h :: Holds(t, k) == Holds(s, k)
    requires EntriesOk(t) && HandleOk(t.handles[h])
    requires Told(t.handles[h]) ==> !Holds(t, h)
    requires Owes(t.handles[h], t.now) ==> Holds(t, h)
    ensures Inv(t)
  {
    assert forall k | k in t.handles && k != h :: k in s.handles && t.handles[k] == s.handles[k];
  }

  lemma HandleOnly(s: State, t: State, h: nat)
    requires Inv(s) && h in s.handles && h in t.handles
    requires t.now == s.now && t.redis == s.redis && t.handles == s.handles[h := t.handles[h]]
    requires t.handles[h].key == s.handles[h].key && t.handles[h].deadline == s.handles[h].deadline
    requires HandleOk(t.handles[h])
    requires Told(t.handles[h]) ==> !Holds(s, h)
    requires Owes(t.handles[h], s.now) ==> Owes(s.handles[h], s.now)
    ensures Inv(t)
  {
    OneChanged(s, t, h);
  }

  lemma CallsShrink(handle: Handle, calls: multiset<Call>)
    requires forall call | call in calls :: call in handle.calls || Asked(call)
    ensures Told(handle.(calls := calls)) ==> Told(handle)
  {
  }

  lemma TickKeeps(s: State, ms: nat)
    requires Inv(s)
    ensures Inv(s.(now := s.now + ms))
  {
    var t := s.(now := s.now + ms);
    forall h | h in s.handles ensures Holds(t, h) ==> Holds(s, h) {
    }
    forall h | h in s.handles && Owes(s.handles[h], t.now) ensures Holds(t, h) {
      assert Owes(s.handles[h], s.now) && Holds(s, h);
    }
  }

  lemma AcquireKeeps(s: State, h: nat, key: string, process: nat, seconds: int)
    requires Inv(s) && Enabled(s, Acquire(h, key, process, seconds))
    ensures Inv(Apply(s, Acquire(h, key, process, seconds)))
  {
    var t := Apply(s, Acquire(h, key, process, seconds));
    assert Holds(t, h) && !Told(t.handles[h]) && HandleOk(t.handles[h]);
    OneChanged(s, t, h);
  }

  /** A script touches no other token's lease. */
  lemma ScriptFrame(redis: Redis, key: string, h: nat, ms: int, now: int, other: string, k: nat)
    requires k != h
    ensures Held(RenewScript(redis, key, h, ms, now), other, k, now) == Held(redis, other, k, now)
    ensures Held(ReleaseScript(redis, key, h, now), other, k, now) == Held(redis, other, k, now)
  {
  }

  lemma RepliesAdded(handle: Handle, call: Call, reply: Call, next: Handle)
    requires HandleOk(handle) && call in handle.calls && !Asked(reply)
    requires next.registered == handle.registered && next.lost == handle.lost && next.released == handle.released
    requires next.calls == handle.calls - multiset{call} + multiset{reply}
    ensures HandleOk(next)
    ensures Told(next) ==> Told(handle) || reply.Deleted? || !reply.held
  {
  }

  /** A renewal: the entry and the deadline move together. */
  lemma RenewedEntry(s: State, h: nat, ms: int, next: Handle)
    requires EntriesOk(s) && Holds(s, h) && next.key == s.handles[h].key && next.deadline == s.now + ms
    ensures EntriesOk(s.(redis := s.redis[next.key := Entry(h, s.now + ms)], handles := s.handles[h := next]))
  {
  }

  lemma RenewGranted(s: State, t: State, h: nat, ms: int, next: Handle)
    requires Inv(s) && Holds(s, h) && ms > 0 && HandleOk(next)
    requires t.now == s.now && t.handles == s.handles[h := next] && t.redis == s.redis[next.key := Entry(h, s.now + ms)]
    requires next.key == s.handles[h].key && next.deadline == s.now + ms
    requires Told(next) ==> Told(s.handles[h])
    ensures Inv(t)
  {
    RenewedEntry(s, h, ms, next);
    assert !Told(next) by {
      assert !Told(s.handles[h]);
    }
    forall k | k in s.handles && k != h ensures Holds(t, k) == Holds(s, k) {
      ScriptFrame(s.redis, next.key, h, ms, s.now, s.handles[k].key, k);
    }
    OneChanged(s, t, h);
  }

  lemma RenewDenied(s: State, t: State, h: nat, next: Handle)
    requires Inv(s) && h in s.handles && !Holds(s, h) && HandleOk(next)
    requires t.now == s.now && t.redis == s.redis && t.handles == s.handles[h := next]
    requires next.key == s.handles[h].key && next.deadline == s.handles[h].deadline
    requires next.registered == s.handles[h].registered && next.inBody == s.handles[h].inBody
    ensures Inv(t)
  {
    HandleOnly(s, t, h);
  }

  lemma RenewShape(s: State, h: nat, seconds: int)
    requires h in s.handles && RenewAsked(seconds) in s.handles[h].calls
    ensures var t := EvaluateIn(s, h, RenewAsked(seconds));
            && h in t.handles && t.handles == s.handles[h := t.handles[h]] && t.now == s.now
            && var handle, next := s.handles[h], t.handles[h];
            && next.key == handle.key && next.registered == handle.registered && next.inBody == handle.inBody
            && next.lost == handle.lost && next.released == handle.released
            && next.calls == handle.calls - multiset{RenewAsked(seconds)} + multiset{Reply(s, h, RenewAsked(seconds))}
            && (if Holds(s, h) then
                  t.redis == s.redis[next.key := Entry(h, s.now + seconds * 1000)] && next.deadline == s.now + seconds * 1000
                else t.redis == s.redis && next.deadline == handle.deadline)
  {
  }

  lemma RenewReplies(s: State, h: nat, seconds: int, next: Handle)
    requires Inv(s) && Enabled(s, Evaluate(h, RenewAsked(seconds)))
    requires var handle := s.handles[h];
             && next.registered == handle.registered && next.lost == handle.lost && next.released == handle.released
             && next.calls == handle.calls - multiset{RenewAsked(seconds)} + multiset{Renewed(seconds, Holds(s, h))}
    ensures seconds >= LOCK_MIN_TTL_SECONDS && HandleOk(next)
    ensures Holds(s, h) && Told(next) ==> Told(s.handles[h])
  {
    assert HandleOk(s.handles[h]) && RenewAsked(seconds) in s.handles[h].calls;
    RepliesAdded(s.handles[h], RenewAsked(seconds), Renewed(seconds, Holds(s, h)), next);
  }

  lemma RenewKeeps(s: State, h: nat, seconds: int)
    requires Inv(s) && Enabled(s, Evaluate(h, RenewAsked(seconds)))
    ensures Inv(EvaluateIn(s, h, RenewAsked(seconds)))
  {
    var t := EvaluateIn(s, h, RenewAsked(seconds));
    RenewShape(s, h, seconds);
    RenewReplies(s, h, seconds, t.handles[h]);
    RenewEvaluated(s, t, h, seconds);
  }

  lemma RenewEvaluated(s: State, t: State, h: nat, seconds: int)
    requires Inv(s) && h in s.handles && seconds >= LOCK_MIN_TTL_SECONDS
    requires h in t.handles && t.handles == s.handles[h := t.handles[h]] && t.now == s.now
    requires var handle, next := s.handles[h], t.handles[h];
             && next.key == handle.key && next.registered == handle.registered && next.inBody == handle.inBody
             && HandleOk(next) && (Holds(s, h) && Told(next) ==> Told(handle))
             && (if Holds(s, h) then
                   t.redis == s.redis[next.key := Entry(h, s.now + seconds * 1000)] && next.deadline == s.now + seconds * 1000
                 else t.redis == s.redis && next.deadline == handle.deadline)
    ensures Inv(t)
  {
    if Holds(s, h) {
      RenewGranted(s, t, h, seconds * 1000, t.handles[h]);
    } else {
      RenewDenied(s, t, h, t.handles[h]);
    }
  }

  lemma ReleaseKeeps(s: State, h: nat)
    requires Inv(s) && Enabled(s, Evaluate(h, ReleaseAsked))
    ensures Inv(EvaluateIn(s, h, ReleaseAsked))
  {
    var t := EvaluateIn(s, h, ReleaseAsked);
    var handle, next := s.handles[h], t.handles[h];
    forall k | k in s.handles && k != h ensures Holds(t, k) == Holds(s, k) {
      ScriptFrame(s.redis, handle.key, h, 0, s.now, s.handles[k].key, k);
    }
    assert HandleOk(handle) && !Holds(t, h);
    RepliesAdded(handle, ReleaseAsked, Reply(s, h, ReleaseAsked), next);
    OneChanged(s, t, h);
  }

  lemma ResumeKeeps(s: State, h: nat, call: Call)
    requires Inv(s) && Enabled(s, Resume(h, call))
    ensures Inv(ResumeIn(s, h, call))
  {
    assert HandleOk(s.handles[h]);
    ResumeTells(s, h, call);
    ResumeShape(s, h, call, h);
    HandleOnly(s, ResumeIn(s, h, call), h);
  }

  lemma ResumeTells(s: State, h: nat, call: Call)
    requires h in s.handles && call in s.handles[h].calls && !Asked(call)
    ensures Told(ResumeIn(s, h, call).handles[h]) ==> Told(s.handles[h])
    ensures HandleOk(s.handles[h]) ==> HandleOk(ResumeIn(s, h, call).handles[h])
    ensures Owes(ResumeIn(s, h, call).handles[h], s.now) == Owes(s.handles[h], s.now)
  {
    CallsShrink(s.handles[h], Without(s.handles[h], call).calls);
    assert call.Deleted? || !call.held ==> Told(s.handles[h]);
  }

  lemma AskKeeps(s: State, h: nat, call: Call)
    requires Inv(s) && h in s.handles && s.handles[h].registered && Asked(call)
    requires call.RenewAsked? ==> call.seconds >= LOCK_MIN_TTL_SECONDS
    ensures Inv(s.(handles := s.handles[h := s.handles[h].(calls := s.handles[h].calls + multiset{call})]))
  {
    var next := s.handles[h].(calls := s.handles[h].calls + multiset{call});
    CallsShrink(s.handles[h], next.calls);
    assert HandleOk(s.handles[h]);
    HandleOnly(s, s.(handles := s.handles[h := next]), h);
  }

  lemma ActionKeeps(s: State, a: Action)
    requires Inv(s) && Enabled(s, a)
    ensures Inv(Apply(s, a))
  {
    match a
    case Tick(ms) => TickKeeps(s, ms);
    case Acquire(h, key, process, seconds) => AcquireKeeps(s, h, key, process, seconds);
    case Register(h) =>
      assert HandleOk(s.handles[h]);
      HandleOnly(s, Apply(s, a), h);
    case AskRenew(h, seconds) => AskKeeps(s, h, RenewAsked(seconds));
    case AskRelease(h) =>
      if s.handles[h].lost {
        HandleOnly(s, Apply(s, a), h);
      } else {
        AskKeeps(s, h, ReleaseAsked);
      }
    case Evaluate(h, call) =>
      if call.RenewAsked? {
        RenewKeeps(s, h, call.seconds);
      } else {
        ReleaseKeeps(s, h);
      }
    case Resume(h, call) => ResumeKeeps(s, h, call);
  }

  // ---- Runs ----

  ghost predicate Legal(s: State, actions: seq<Action>)
    decreases |actions|
  {
    actions == [] || (Enabled(s, actions[0]) && Legal(Apply(s, actions[0]), actions[1..]))
  }

  ghost function RunAll(s: State, actions: seq<Action>): State
    requires Legal(s, actions)
    decreases |actions|
  {
    if actions == [] then s else RunAll(Apply(s, actions[0]), actions[1..])
  }

  predicate Initial(s: State) {
    s.redis == map[] && s.handles == map[] && s.registry == map[]
  }

  lemma {:induction false} RunKeeps(s: State, actions: seq<Action>)
    requires Inv(s) && Legal(s, actions)
    ensures Inv(RunAll(s, actions))
    decreases |actions|
  {
    if actions != [] {
      ActionKeeps(s, actions[0]);
      RunKeeps(Apply(s, actions[0]), actions[1..]);
    }
  }

  lemma EvaluateShape(s: State, h: nat, call: Call, k: nat)
    requires h in s.handles && k in s.handles && Asked(call)
    ensures var t := EvaluateIn(s, h, call);
            && t.now == s.now && k in t.handles
            && t.handles[k].key == s.handles[k].key && t.handles[k].process == s.handles[k].process
            && (h != k ==> t.handles[k] == s.handles[k])
  {
  }

  lemma ResumeShape(s: State, h: nat, call: Call, k: nat)
    requires h in s.handles && k in s.handles && !Asked(call)
    ensures var t := ResumeIn(s, h, call);
            && t.now == s.now && t.redis == s.redis && k in t.handles && h in t.handles
            && t.handles == s.handles[h := t.handles[h]]
            && t.handles[k].key == s.handles[k].key && t.handles[k].process == s.handles[k].process
            && t.handles[k].deadline == s.handles[k].deadline
            && (h != k ==> t.handles[k] == s.handles[k])
  {
  }

  /** A step keeps every handle's key and process, and a deadline unless it
      evaluates that handle's renewal. */
  lemma StepShape(s: State, a: Action, h: nat)
    requires Enabled(s, a) && h in s.handles
    ensures var t := Apply(s, a);
            && s.now <= t.now && (!a.Tick? ==> t.now == s.now)
            && (a.Acquire? || a.Evaluate? || t.redis == s.redis)
            && h in t.handles && t.handles[h].key == s.handles[h].key && t.handles[h].process == s.handles[h].process
            && (!(a.Evaluate? && a.h == h) ==> t.handles[h].deadline == s.handles[h].deadline)
            && (!a.Tick? && a.h != h ==> t.handles[h] == s.handles[h])
  {
    if a.Evaluate? {
      EvaluateShape(s, a.h, a.call, h);
    } else if a.Resume? {
      ResumeShape(s, a.h, a.call, h);
    }
  }

  lemma StepOnHeld(s: State, a: Action, h: nat)
    requires Enabled(s, a) && Holds(s, h) && s.redis[s.handles[h].key].expiry == s.handles[h].deadline
    requires a.Evaluate? && a.call.RenewAsked? ==> a.call.seconds >= 1
    ensures Holds(Apply(s, a), h) <==>
            !(a == Evaluate(h, ReleaseAsked) || (a.Tick? && s.now + a.ms >= s.handles[h].deadline))
  {
    if a.Evaluate? {
      EvaluateOnHeld(s, a.h, a.call, h);
    } else {
      StepShape(s, a, h);
    }
  }

  lemma EvaluateOnHeld(s: State, actor: nat, call: Call, h: nat)
    requires Enabled(s, Evaluate(actor, call)) && Holds(s, h)
    requires s.redis[s.handles[h].key].expiry == s.handles[h].deadline && (call.RenewAsked? ==> call.seconds >= 1)
    ensures Holds(EvaluateIn(s, actor, call), h) <==> !(actor == h && call == ReleaseAsked)
  {
    EvaluateShape(s, actor, call, h);
    if actor != h {
      var ms := if call.RenewAsked? then call.seconds * 1000 else 0;
      ScriptFrame(s.redis, s.handles[actor].key, actor, ms, s.now, s.handles[h].key, h);
    }
  }

  /** What one step does to a lease: it ends exactly by its own release or its expiry. */
  lemma StepOnLease(s: State, a: Action, h: nat)
    requires Inv(s) && Enabled(s, a) && Holds(s, h)
    ensures Holds(Apply(s, a), h) <==>
            !(a == Evaluate(h, ReleaseAsked) || (a.Tick? && s.now + a.ms >= s.handles[h].deadline))
  {
    assert s.redis[s.handles[h].key].expiry == s.handles[h].deadline;
    assert a.Evaluate? && a.call.RenewAsked? ==> a.call.seconds >= 1 by {
      if a.Evaluate? && a.call.RenewAsked? {
        assert HandleOk(s.handles[a.h]);
      }
    }
    StepOnHeld(s, a, h);
  }

  /** The step evaluates the token's own release, or time passes its current deadline. */
  predicate Lapses(s: State, a: Action, h: nat)
    requires h in s.handles
  {
    a == Evaluate(h, ReleaseAsked) || (a.Tick? && s.now + a.ms >= s.handles[h].deadline)
  }

  ghost predicate NeverLapses(s: State, actions: seq<Action>, h: nat)
    requires Legal(s, actions) && h in s.handles
    decreases |actions|
  {
    if actions == [] then true
    else
      StepShape(s, actions[0], h);
      !Lapses(s, actions[0], h) && NeverLapses(Apply(s, actions[0]), actions[1..], h)
  }

  /** Over every run, its own renewals and refused calls included: a lease is still
      held at the end exactly if it was not released and time never reached the
      deadline that stood at that moment. */
  lemma {:induction false} LeaseLastsIff(s: State, actions: seq<Action>, h: nat)
    requires Inv(s) && Legal(s, actions) && Holds(s, h)
    ensures Holds(RunAll(s, actions), h) <==> NeverLapses(s, actions, h)
    decreases |actions|
  {
    if actions != [] {
      var t := Apply(s, actions[0]);
      ActionKeeps(s, actions[0]);
      StepOnLease(s, actions[0], h);
      StepShape(s, actions[0], h);
      if Holds(t, h) {
        LeaseLastsIff(t, actions[1..], h);
      } else {
        NeverHoldsAgain(t, actions[1..], h);
      }
    }
  }

  /** Nothing but its own commands shortens a lease. */
  lemma {:induction false} LeaseLasts(s: State, actions: seq<Action>, h: nat)
    requires Inv(s) && Legal(s, actions) && Holds(s, h)
    requires forall a | a in actions :: !(a.Evaluate? && a.h == h)
    requires RunAll(s, actions).now < s.handles[h].deadline
    ensures Holds(RunAll(s, actions), h)
    decreases |actions|
  {
    if actions != [] {
      var t := Apply(s, actions[0]);
      ActionKeeps(s, actions[0]);
      TimeOnlyPasses(t, actions[1..]);
      assert actions[0] in actions;
      StepOnLease(s, actions[0], h);
      StepShape(s, actions[0], h);
      LeaseLasts(t, actions[1..], h);
    }
  }

  /** Nobody else moves a deadline either. */
  lemma {:induction false} DeadlineStays(s: State, actions: seq<Action>, h: nat)
    requires Legal(s, actions) && h in s.handles
    requires forall a | a in actions :: !(a.Evaluate? && a.h == h)
    ensures var t := RunAll(s, actions);
            h in t.handles && t.handles[h].deadline == s.handles[h].deadline && t.handles[h].key == s.handles[h].key
    decreases |actions|
  {
    if actions != [] {
      assert actions[0] in actions;
      StepShape(s, actions[0], h);
      DeadlineStays(Apply(s, actions[0]), actions[1..], h);
    }
  }

  /** An acquisition, or a renewal that the server grants, is worth exactly the seconds
      asked for: over every run without a further command of the handle its token is
      stored, unexpired, under its key exactly until then. */
  lemma GrantIsWorthItsSeconds(s: State, grant: Action, actions: seq<Action>, h: nat, seconds: int)
    requires Inv(s) && Enabled(s, grant) && Legal(Apply(s, grant), actions)
    requires || (grant.Acquire? && grant.h == h && grant.seconds == seconds)
             || (grant == Evaluate(h, RenewAsked(seconds)) && Holds(s, h))
    requires forall a | a in actions :: !(a.Evaluate? && a.h == h)
    ensures var t := RunAll(Apply(s, grant), actions);
            && h in t.handles && var key := t.handles[h].key;
            && (grant.Acquire? ==> key == grant.key)
            && (key in t.redis && t.redis[key].token == h && t.redis[key].expiry > t.now
                <==> t.now < s.now + seconds * 1000)
            && (t.now < s.now + seconds * 1000 ==> t.redis[key].expiry == s.now + seconds * 1000)
  {
    var first := Apply(s, grant);
    ActionKeeps(s, grant);
    GrantSets(s, grant, h, seconds);
    DeadlineStays(first, actions, h);
    RunKeeps(first, actions);
    var t := RunAll(first, actions);
    assert Holds(t, h) ==> t.redis[t.handles[h].key].expiry == t.handles[h].deadline;
    if t.now < s.now + seconds * 1000 {
      LeaseLasts(first, actions, h);
    }
  }

  lemma GrantSets(s: State, grant: Action, h: nat, seconds: int)
    requires Inv(s) && Enabled(s, grant)
    requires || (grant.Acquire? && grant.h == h && grant.seconds == seconds)
             || (grant == Evaluate(h, RenewAsked(seconds)) && Holds(s, h))
    ensures var first := Apply(s, grant);
            && Holds(first, h) && first.handles[h].deadline == s.now + seconds * 1000
            && (grant.Acquire? ==> first.handles[h].key == grant.key)
  {
    if grant.Evaluate? {
      RenewShape(s, h, seconds);
      assert HandleOk(s.handles[h]);
    }
  }

  lemma {:induction false} TimeOnlyPasses(s: State, actions: seq<Action>)
    requires Legal(s, actions)
    ensures s.now <= RunAll(s, actions).now
    decreases |actions|
  {
    if actions != [] {
      TimeOnlyPasses(Apply(s, actions[0]), actions[1..]);
    }
  }

  /** Whatever a handle that does not hold does, no key changes. */
  lemma StaleHandleIsHarmless(s: State, a: Action, h: nat)
    requires Enabled(s, a) && !Holds(s, h) && !a.Tick? && !a.Acquire? && a.h == h
    ensures Apply(s, a).redis == s.redis
  {
  }

  lemma NotHeldStep(s: State, a: Action, h: nat)
    requires Enabled(s, a) && h in s.handles && !Holds(s, h)
    ensures h in Apply(s, a).handles && !Holds(Apply(s, a), h)
  {
    StepShape(s, a, h);
    if a.Evaluate? && a.h != h {
      var ms := if a.call.RenewAsked? then a.call.seconds * 1000 else 0;
      ScriptFrame(s.redis, s.handles[a.h].key, a.h, ms, s.now, s.handles[h].key, h);
    }
  }

  /** A lease that ended never comes back; in particular lost and released handles
      never hold again. */
  lemma {:induction false} NeverHoldsAgain(s: State, actions: seq<Action>, h: nat)
    requires Inv(s) && Legal(s, actions) && h in s.handles && (!Holds(s, h) || Told(s.handles[h]))
    ensures !Holds(RunAll(s, actions), h)
    decreases |actions|
  {
    if actions != [] {
      ActionKeeps(s, actions[0]);
      NotHeldStep(s, actions[0], h);
      NeverHoldsAgain(Apply(s, actions[0]), actions[1..], h);
    }
  }

  /** In every run, of two bodies under one key at least one has outlived its lease. */
  lemma BodiesDoNotOverlap(s: State, actions: seq<Action>, h: nat, k: nat)
    requires Initial(s) && Legal(s, actions)
    requires var t := RunAll(s, actions);
             && h in t.handles && k in t.handles && h != k && t.handles[h].key == t.handles[k].key
             && t.handles[h].inBody && t.handles[k].inBody
    ensures var t := RunAll(s, actions); t.handles[h].deadline <= t.now || t.handles[k].deadline <= t.now
  {
    RunKeeps(s, actions);
    var t := RunAll(s, actions);
    assert Owes(t.handles[h], t.now) ==> Holds(t, h);
    assert Owes(t.handles[k], t.now) ==> Holds(t, k);
  }

  // ---- The registry of the process ----

  function At(s: State, h: nat): (nat, string)
    requires h in s.handles
  {
    (s.handles[h].process, s.handles[h].key)
  }

  predicate Entered(s: State, h: nat) {
    h in s.handles && s.handles[h].registered && Holds(s, h)
  }

  /** Every registered holder is the one its process has on record. */
  ghost predicate Agrees(s: State) {
    forall h | Entered(s, h) :: At(s, h) in s.registry && s.registry[At(s, h)] == h
  }

  /** A registration or an unconditional pop over another handle that holds the
      key in the same process. */
  ghost predicate Breaks(s: State, a: Action) {
    && (a.Register? || (a.Resume? && a.call == Deleted(true))) && a.h in s.handles
    && exists k | k in s.handles :: k != a.h && Entered(s, k) && At(s, k) == At(s, a.h)
  }

  lemma BreakingStep(s: State, a: Action)
    requires Enabled(s, a) && Breaks(s, a)
    ensures !Agrees(Apply(s, a))
  {
    var k :| k in s.handles && k != a.h && Entered(s, k) && At(s, k) == At(s, a.h);
    StepShape(s, a, k);
    assert Entered(Apply(s, a), k);
  }

  /** Only registering makes a handle a registered holder. */
  lemma NewlyEntered(s: State, a: Action, h: nat)
    requires Enabled(s, a) && Entered(Apply(s, a), h) && !Entered(s, h)
    ensures a == Register(h)
  {
    if h in s.handles && !Holds(s, h) {
      NotHeldStep(s, a, h);
    }
  }

  /** The registry stays right exactly when no such step happens. */
  lemma RegistryBreaksOnlySo(s: State, a: Action)
    requires Inv(s) && Enabled(s, a) && Agrees(s)
    ensures Agrees(Apply(s, a)) <==> !Breaks(s, a)
  {
    var t := Apply(s, a);
    if Breaks(s, a) {
      BreakingStep(s, a);
    } else {
      forall h | Entered(t, h) ensures At(t, h) in t.registry && t.registry[At(t, h)] == h {
        if Entered(s, h) {
          HolderStaysOnRecord(s, a, h);
        } else {
          NewlyEntered(s, a, h);
        }
      }
    }
  }

  lemma HolderStaysOnRecord(s: State, a: Action, h: nat)
    requires ToldOk(s) && Enabled(s, a) && Agrees(s) && !Breaks(s, a) && Entered(s, h)
    ensures h in Apply(s, a).handles && At(Apply(s, a), h) == At(s, h)
    ensures At(s, h) in Apply(s, a).registry && Apply(s, a).registry[At(s, h)] == h
  {
    StepShape(s, a, h);
    assert s.registry[At(s, h)] == h;
    if a.Resume? {
      assert a.call.Deleted? || !a.call.held ==> a.h != h by {
        assert a.call.Deleted? || !a.call.held ==> Told(s.handles[a.h]);
      }
      OnRecordAfterResume(s, a.h, a.call, h);
    }
  }

  lemma OnRecordAfterResume(s: State, h: nat, call: Call, k: nat)
    requires h in s.handles && k in s.handles && !Asked(call) && At(s, k) in s.registry && s.registry[At(s, k)] == k
    requires call.Deleted? || !call.held ==> h != k
    requires call == Deleted(true) ==> At(s, h) != At(s, k)
    ensures At(s, k) in ResumeIn(s, h, call).registry && ResumeIn(s, h, call).registry[At(s, k)] == k
  {
  }

  /** A release whose answer is handled at once keeps the registry right. */
  lemma AtomicReleaseAgrees(s: State, h: nat)
    requires Inv(s) && Agrees(s) && Enabled(s, Evaluate(h, ReleaseAsked)) && Holds(s, h)
    ensures var t := Apply(s, Evaluate(h, ReleaseAsked));
            Enabled(t, Resume(h, Deleted(true))) && Agrees(Apply(t, Resume(h, Deleted(true))))
  {
    var t := Apply(s, Evaluate(h, ReleaseAsked));
    ActionKeeps(s, Evaluate(h, ReleaseAsked));
    RegistryBreaksOnlySo(s, Evaluate(h, ReleaseAsked));
    forall k | k in s.handles && k != h && Entered(t, k) ensures At(t, k) != At(t, h) {
      ScriptFrame(s.redis, s.handles[h].key, h, 0, s.now, s.handles[k].key, k);
    }
    RegistryBreaksOnlySo(t, Resume(h, Deleted(true)));
  }

  // ---- The registry can forget a live holder ----

  function Entering(key: string, seconds: int, now: int): Handle {
    Handle(key, 0, seconds, false, false, multiset{}, true, true, now + seconds * 1000)
  }

  /** Handle 1 has deleted the key but not yet resumed; handle 2 has taken it. */
  function Interleaved(key: string, seconds: int, now: int): State {
    var first := Entering(key, seconds, now).(calls := multiset{Deleted(true)}, inBody := false);
    State(now, map[key := Entry(2, now + seconds * 1000)], map[1 := first, 2 := Entering(key, seconds, now)],
          map[(0, key) := 2])
  }

  lemma OneStep(s: State, a: Action, rest: seq<Action>)
    requires Enabled(s, a) && Legal(Apply(s, a), rest)
    ensures Legal(s, [a] + rest) && RunAll(s, [a] + rest) == RunAll(Apply(s, a), rest)
  {
    assert ([a] + rest)[1..] == rest;
  }

  /** Handle 1 has deleted the key and waits for the answer. */
  function Deleting(key: string, seconds: int, now: int): State {
    var first := Entering(key, seconds, now).(calls := multiset{Deleted(true)}, inBody := false);
    State(now, map[], map[1 := first], map[(0, key) := 1])
  }

  lemma DeletingIsReached(key: string, seconds: int, now: int)
    requires seconds >= LOCK_MIN_TTL_SECONDS
    ensures var actions := [Acquire(1, key, 0, seconds)]
                           + ([Register(1)] + ([AskRelease(1)] + ([Evaluate(1, ReleaseAsked)] + [])));
            && Legal(State(now, map[], map[], map[]), actions)
            && RunAll(State(now, map[], map[], map[]), actions) == Deleting(key, seconds, now)
  {
    var s0 := State(now, map[], map[], map[]);
    var a, b, c, d := Acquire(1, key, 0, seconds), Register(1), AskRelease(1), Evaluate(1, ReleaseAsked);
    var s1 := Apply(s0, a);
    var s2 := Apply(s1, b);
    assert s2.handles == map[1 := Entering(key, seconds, now)];
    var s3 := Apply(s2, c);
    assert s3.handles[1].calls == multiset{ReleaseAsked};
    assert Apply(s3, d) == Deleting(key, seconds, now) by {
      assert multiset{ReleaseAsked} - multiset{ReleaseAsked} + multiset{Deleted(true)} == multiset{Deleted(true)};
      assert Apply(s3, d).redis == map[];
    }
    OneStep(s3, d, []);
    OneStep(s2, c, [d] + []);
    OneStep(s1, b, [c] + ([d] + []));
    OneStep(s0, a, [b] + ([c] + ([d] + [])));
  }

  lemma InterleavedIsReached(key: string, seconds: int, now: int)
    requires seconds >= LOCK_MIN_TTL_SECONDS
    ensures var actions := [Acquire(2, key, 0, seconds)] + ([Register(2)] + []);
            && Legal(Deleting(key, seconds, now), actions)
            && RunAll(Deleting(key, seconds, now), actions) == Interleaved(key, seconds, now)
  {
    var s := Deleting(key, seconds, now);
    var t := Apply(s, Acquire(2, key, 0, seconds));
    assert Apply(t, Register(2)) == Interleaved(key, seconds, now);
    OneStep(t, Register(2), []);
    OneStep(s, Acquire(2, key, 0, seconds), [Register(2)] + []);
  }

  /** Resuming then, handle 1 removes the record of handle 2, which holds the key. */
  lemma LateResumeForgetsHolder(key: string, seconds: int, now: int)
    requires seconds >= LOCK_MIN_TTL_SECONDS
    ensures var s := Interleaved(key, seconds, now);
            && Agrees(s) && Enabled(s, Resume(1, Deleted(true)))
            && Entered(Apply(s, Resume(1, Deleted(true))), 2)
            && (0, key) !in Apply(s, Resume(1, Deleted(true))).registry
  {
  }

  // ---- Entering and leaving ----

  /** From the acquisition to the release: the body begins with the registration, under a
      lease of its own and on record, and is over when the server has run the release. */
  lemma BodyBeginsAndEnds(s: State, h: nat, key: string, process: nat, seconds: int)
    requires Inv(s) && Enabled(s, Acquire(h, key, process, seconds))
    ensures var t := Apply(s, Acquire(h, key, process, seconds));
            && t.handles[h] == Handle(key, process, seconds, false, false, multiset{}, false, false, s.now + seconds * 1000)
            && t.registry == s.registry && Holds(t, h) && Enabled(t, Register(h))
            && var u := Apply(t, Register(h));
            && u.handles[h] == t.handles[h].(registered := true, inBody := true) && Holds(u, h)
            && (process, key) in u.registry && u.registry[(process, key)] == h && Enabled(u, AskRelease(h))
            && var v := Apply(u, AskRelease(h));
            && v.handles[h] == u.handles[h].(calls := multiset{ReleaseAsked}) && Enabled(v, Evaluate(h, ReleaseAsked))
            && var w := Apply(v, Evaluate(h, ReleaseAsked));
            && w.handles[h] == v.handles[h].(calls := multiset{Deleted(true)}, inBody := false)
            && key !in w.redis && !Holds(w, h)
  {
    var t := Apply(s, Acquire(h, key, process, seconds));
    var u := Apply(t, Register(h));
    var v := Apply(u, AskRelease(h));
    assert v.handles[h].calls == multiset{ReleaseAsked};
    assert Apply(v, Evaluate(h, ReleaseAsked)).handles[h].calls == multiset{Deleted(true)};
  }

  // ---- Uninterrupted calls ----

  /** Without a wait in between, the three steps of a release do what the method does. */
  lemma UninterruptedRelease(s: State, h: nat)
    requires Enabled(s, AskRelease(h)) && !s.handles[h].lost && s.handles[h].calls == multiset{}
    ensures var held := Holds(s, h);
            var actions := [AskRelease(h)] + ([Evaluate(h, ReleaseAsked)] + [Resume(h, Deleted(held))]);
            && Legal(s, actions)
            && var t := RunAll(s, actions);
            && t.redis == (if held then s.redis - {s.handles[h].key} else s.redis)
            && h in t.handles && t.handles[h].released && (t.handles[h].lost <==> !held) && t.handles[h].calls == multiset{}
            && t.registry == (if held || (At(s, h) in s.registry && s.registry[At(s, h)] == h)
                              then s.registry - {At(s, h)} else s.registry)
  {
    var held := Holds(s, h);
    var a, b, c := AskRelease(h), Evaluate(h, ReleaseAsked), Resume(h, Deleted(held));
    var s1 := Apply(s, a);
    assert s1.handles[h].calls == multiset{ReleaseAsked};
    var s2 := Apply(s1, b);
    assert s2.handles[h].calls == multiset{Deleted(held)};
    var s3 := Apply(s2, c);
    OneStep(s2, c, []);
    assert [c] + [] == [c];
    OneStep(s1, b, [c]);
    OneStep(s, a, [b] + [c]);
  }

  /** The release of a handle that knows it is lost asks the server nothing. */
  lemma LostRelease(s: State, h: nat)
    requires Enabled(s, AskRelease(h)) && s.handles[h].lost
    ensures var t := Apply(s, AskRelease(h));
            && t.redis == s.redis && t.registry == s.registry
            && t.handles == s.handles[h := s.handles[h].(released := true, inBody := false)]
  {
  }

  /** And the three steps of a renewal. */
  lemma UninterruptedRenew(s: State, h: nat, seconds: int)
    requires Enabled(s, AskRenew(h, seconds)) && s.handles[h].calls == multiset{}
    ensures var held := Holds(s, h);
            var actions := [AskRenew(h, seconds)] + ([Evaluate(h, RenewAsked(seconds))] + [Resume(h, Renewed(seconds, held))]);
            && Legal(s, actions)
            && var t := RunAll(s, actions);
            && t.redis == (if held then s.redis[s.handles[h].key := Entry(h, s.now + seconds * 1000)] else s.redis)
            && h in t.handles && t.handles[h].ttl == (if held then seconds else s.handles[h].ttl)
            && (t.handles[h].lost <==> !held) && t.handles[h].calls == multiset{}
            && t.registry == (if !held && At(s, h) in s.registry && s.registry[At(s, h)] == h
                              then s.registry - {At(s, h)} else s.registry)
  {
    var held := Holds(s, h);
    var a, b, c := AskRenew(h, seconds), Evaluate(h, RenewAsked(seconds)), Resume(h, Renewed(seconds, held));
    var s1 := Apply(s, a);
    assert s1.handles[h].calls == multiset{RenewAsked(seconds)};
    var s2 := Apply(s1, b);
    assert s2.handles[h].calls == multiset{Renewed(seconds, held)};
    var s3 := Apply(s2, c);
    OneStep(s2, c, []);
    assert [c] + [] == [c];
    OneStep(s1, b, [c]);
    OneStep(s, a, [b] + [c]);
  }
}
