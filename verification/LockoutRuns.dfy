/** Login attempts that overlap: every Redis command of the check and of the
    recording is one step (app/core/rate_limit.py, app/modules/auth/router.py). */
module LockoutRuns {
  import opened Wrappers
  import opened Lockout

  /** Where an attempt is; `k` says whether it works on the address (0) or the email
      (1), `start` is the clock the recording read first. */
  datatype Stage =
    | ReadIp
    | ReadEmail(ipLock: real)
    | Compare(ipLock: real, emailLock: real)
    | Checked
    | Count(k: nat, start: real)
    | Renew(k: nat, start: real, seconds: int)
    | Look(k: nat, start: real, seconds: int)
    | Write(k: nat, start: real, until: real)
    | Reset(k: nat)

  datatype Try = Try(ip: string, email: string, stage: Stage)

  datatype State = State(now: real, window: real, keys: Keys, tries: map<nat, Try>)

  datatype Action =
    | Tick(seconds: real)
    | Begin(t: nat, ip: string, email: string)
    | Finish(t: nat, success: bool)
    | Step(t: nat)
    | Drop(t: nat)

  function KeyAt(try_: Try, k: nat): string {
    if k == 0 then "ip:" + try_.ip else "email:" + try_.email
  }

  predicate Enabled(s: State, a: Action) {
    match a
    case Tick(seconds) => seconds >= 0.0
    case Begin(t, _, _) => t !in s.tries
    case Finish(t, _) => t in s.tries && s.tries[t].stage.Checked?
    case Step(t) => t in s.tries && !s.tries[t].stage.Checked?
    case Drop(t) => t in s.tries
  }

  /** The key the step of an attempt writes, if any. */
  function Target(try_: Try): Option<string> {
    match try_.stage
    case Count(k, _) => Some(KeyAt(try_, k))
    case Renew(k, _, _) => Some(KeyAt(try_, k))
    case Write(k, _, _) => Some(KeyAt(try_, k))
    case Reset(k) => Some(KeyAt(try_, k))
    case _ => None
  }

  /** What the command does to its key. */
  function Effect(key: Key, stage: Stage, now: real, window: real): Key {
    match stage
    case Count(_, _) => Increment(key, now)
    case Renew(_, _, _) => Expire(key, now, window)
    case Write(_, _, until) => SetLock(key, now, until)
    case Reset(_) => None
    case _ => key
  }

  /** Where the attempt goes on; None if it is over. */
  function Continue(s: State, try_: Try): Option<Stage>
    requires !try_.stage.Checked?
  {
    match try_.stage
    case ReadIp => Some(ReadEmail(LockOf(Alive(Get(s.keys, KeyAt(try_, 0)), s.now))))
    case ReadEmail(ipLock) => Some(Compare(ipLock, LockOf(Alive(Get(s.keys, KeyAt(try_, 1)), s.now))))
    case Compare(ipLock, emailLock) => if ipLock > s.now || emailLock > s.now then None else Some(Checked)
    case Count(k, start) =>
      Some(Renew(k, start, LockoutSeconds(FailuresOf(Increment(Get(s.keys, KeyAt(try_, k)), s.now)))))
    case Renew(k, start, seconds) => if seconds > 0 then Some(Look(k, start, seconds)) else NextKey(k, start)
    case Look(k, start, seconds) =>
      Some(Write(k, start, Max(start, LockOf(Alive(Get(s.keys, KeyAt(try_, k)), s.now))) + seconds as real))
    case Write(k, start, _) => NextKey(k, start)
    case Reset(k) => if k == 0 then Some(Reset(1)) else None
  }

  function NextKey(k: nat, start: real): Option<Stage> {
    if k == 0 then Some(Count(1, start)) else None
  }

  function Move(s: State, t: nat, stage: Option<Stage>): map<nat, Try>
    requires t in s.tries
  {
    if stage.Some? then s.tries[t := s.tries[t].(stage := stage.value)] else s.tries - {t}
  }

  function WriteKey(s: State, t: nat): Keys
    requires t in s.tries
  {
    var key := Target(s.tries[t]);
    if key.None? then s.keys
    else Put(s.keys, key.value, Effect(Get(s.keys, key.value), s.tries[t].stage, s.now, s.window))
  }

  function Apply(s: State, a: Action): State
    requires Enabled(s, a)
  {
    match a
    case Tick(seconds) => s.(now := s.now + seconds)
    case Begin(t, ip, email) => s.(tries := s.tries[t := Try(ip, email, ReadIp)])
    case Finish(t, success) => s.(tries := Move(s, t, Some(if success then Reset(0) else Count(0, s.now))))
    case Step(t) => s.(keys := WriteKey(s, t), tries := Move(s, t, Continue(s, s.tries[t])))
    case Drop(t) => s.(tries := s.tries - {t})
  }

  // ---- Runs ----

  ghost predicate Legal(s: State, actions: seq<Action>)
    decreases |actions|
  {
    actions == [] || (Enabled(s, actions[0]) && Legal(Apply(s, actions[0]), actions[1..]))
  }

  ghost function RunAll(s: State, actions: seq<Action>): State
    requires Legal(s, actions)
    decreases |actions|
  {
    if actions == [] then s else RunAll(Apply(s, actions[0]), actions[1..])
  }

  // ---- When a key stops being sound ----

  /** The step writes a lock beyond the key's expiry, or gives an expiry to a key
      whose lock reaches beyond it. */
  predicate CutsShort(s: State, a: Action) {
    && a.Step? && a.t in s.tries
    && var try_ := s.tries[a.t];
    && var key := if Target(try_).Some? then Alive(Get(s.keys, Target(try_).value), s.now) else None;
    && key.Some?
    && (|| (try_.stage.Write? && key.value.expiry.Some? && try_.stage.until > key.value.expiry.value)
        || (try_.stage.Renew? && key.value.lockedUntil > s.now + s.window + BUFFER))
  }

  /** One step: all keys stay sound exactly unless it cuts a lock short. */
  lemma StepIsSoundIff(s: State, a: Action)
    requires Enabled(s, a) && AllSound(s.keys)
    ensures AllSound(Apply(s, a).keys) <==> !CutsShort(s, a)
  {
    if a.Step? && Target(s.tries[a.t]).Some? {
      var key := Target(s.tries[a.t]).value;
      assert Sound(Get(s.keys, key));
      var after := Apply(s, a).keys;
      forall k | k in after && k != key ensures Sound(Some(after[k])) {
        assert Get(after, k) == Get(s.keys, k);
      }
      assert Get(after, key) == Effect(Get(s.keys, key), s.tries[a.t].stage, s.now, s.window);
      assert AllSound(after) <==> Sound(Get(after, key));
    }
  }

  ghost predicate AlwaysSound(s: State, actions: seq<Action>)
    requires Legal(s, actions)
    decreases |actions|
  {
    AllSound(s.keys) && (actions != [] ==> AlwaysSound(Apply(s, actions[0]), actions[1..]))
  }

  ghost predicate NeverCutsShort(s: State, actions: seq<Action>)
    requires Legal(s, actions)
    decreases |actions|
  {
    actions == [] || (!CutsShort(s, actions[0]) && NeverCutsShort(Apply(s, actions[0]), actions[1..]))
  }

  /** Over a run, however the attempts overlap: no key ever expires under its lock
      exactly if no step cuts a lock short. */
  lemma {:induction false} RunIsSoundIff(s: State, actions: seq<Action>)
    requires Legal(s, actions) && AllSound(s.keys)
    ensures AlwaysSound(s, actions) <==> NeverCutsShort(s, actions)
    decreases |actions|
  {
    if actions != [] {
      StepIsSoundIff(s, actions[0]);
      if !CutsShort(s, actions[0]) {
        RunIsSoundIff(Apply(s, actions[0]), actions[1..]);
      } else {
        assert !AllSound(Apply(s, actions[0]).keys);
      }
    }
  }

  // ---- Without stacking every run is sound ----

  /** The recording extends a lock that is still in force. */
  predicate Stacks(s: State, a: Action) {
    && a.Step? && a.t in s.tries && s.tries[a.t].stage.Look?
    && LockOf(Alive(Get(s.keys, KeyAt(s.tries[a.t], s.tries[a.t].stage.k)), s.now)) > s.tries[a.t].stage.start
  }

  ghost predicate NeverStacks(s: State, actions: seq<Action>)
    requires Legal(s, actions)
    decreases |actions|
  {
    actions == [] || (!Stacks(s, actions[0]) && NeverStacks(Apply(s, actions[0]), actions[1..]))
  }

  const DAY := 86400.0

  predicate KeyOk(key: Key, now: real) {
    Sound(key) && LockOf(key) <= now + DAY
  }

  /** What a recording has done to the key it works on. */
  predicate TryOk(s: State, try_: Try) {
    match try_.stage
    case Count(_, start) => start <= s.now
    case Renew(_, start, seconds) => start <= s.now && seconds <= 86400
    case Look(k, start, seconds) =>
      start <= s.now && seconds <= 86400 && Renewed(Get(s.keys, KeyAt(try_, k)), s.now, s.window, start)
    case Write(k, start, until) =>
      start <= s.now && until <= start + DAY && Renewed(Get(s.keys, KeyAt(try_, k)), s.now, s.window, start)
    case _ => true
  }

  predicate Renewed(key: Key, now: real, window: real, start: real) {
    var live := Alive(key, now);
    live.Some? && live.value.expiry.Some? ==> live.value.expiry.value >= start + window + BUFFER
  }

  ghost predicate Inv(s: State) {
    && s.now >= 0.0 && s.window >= 82800.0
    && (forall key | key in s.keys :: KeyOk(Some(s.keys[key]), s.now))
    && (forall t | t in s.tries :: TryOk(s, s.tries[t]))
  }

  lemma EffectKeepsKey(key: Key, stage: Stage, now: real, window: real)
    requires now >= 0.0 && window >= 82800.0 && KeyOk(key, now)
    requires stage.Write? ==>
               stage.until <= now + DAY && stage.until <= stage.start + DAY && Renewed(key, now, window, stage.start)
    ensures KeyOk(Effect(key, stage, now, window), now)
  {
  }

  lemma EffectKeepsRenewed(key: Key, stage: Stage, now: real, window: real, start: real)
    requires Renewed(key, now, window, start) && start <= now
    ensures Renewed(Effect(key, stage, now, window), now, window, start)
  {
  }

  lemma TryOkLater(s: State, t: State, try_: Try)
    requires TryOk(s, try_) && s.now <= t.now && s.window == t.window
    requires forall key, start | start <= s.now && Renewed(Get(s.keys, key), s.now, s.window, start) ::
               Renewed(Get(t.keys, key), t.now, t.window, start)
    ensures TryOk(t, try_)
  {
  }

  lemma StepKeepsOthers(s: State, t: nat)
    requires Enabled(s, Step(t)) && Inv(s)
    ensures forall key, start | start <= s.now && Renewed(Get(s.keys, key), s.now, s.window, start) ::
              Renewed(Get(WriteKey(s, t), key), s.now, s.window, start)
  {
    forall key, start | start <= s.now && Renewed(Get(s.keys, key), s.now, s.window, start)
      ensures Renewed(Get(WriteKey(s, t), key), s.now, s.window, start)
    {
      if Target(s.tries[t]) == Some(key) {
        EffectKeepsRenewed(Get(s.keys, key), s.tries[t].stage, s.now, s.window, start);
      }
    }
  }

  lemma StepKeepsTry(s: State, t: nat)
    requires Enabled(s, Step(t)) && Inv(s) && !Stacks(s, Step(t))
    ensures var stage := Continue(s, s.tries[t]);
            stage.Some? ==> TryOk(s.(keys := WriteKey(s, t)), s.tries[t].(stage := stage.value))
  {
    assert TryOk(s, s.tries[t]);
  }

  lemma StepKeepsKeys(s: State, t: nat)
    requires Enabled(s, Step(t)) && Inv(s)
    ensures forall key | key in WriteKey(s, t) :: KeyOk(Some(WriteKey(s, t)[key]), s.now)
  {
    var after, try_ := WriteKey(s, t), s.tries[t];
    assert TryOk(s, try_);
    if Target(try_).Some? {
      EffectKeepsKey(Get(s.keys, Target(try_).value), try_.stage, s.now, s.window);
    }
    forall key | key in after ensures KeyOk(Some(after[key]), s.now) {
      assert Target(try_) != Some(key) ==> Get(after, key) == Get(s.keys, key);
    }
  }

  lemma ActionKeeps(s: State, a: Action)
    requires Inv(s) && Enabled(s, a) && !Stacks(s, a)
    ensures Inv(Apply(s, a))
  {
    var t := Apply(s, a);
    if a.Step? {
      StepKeepsKeys(s, a.t);
      StepKeepsTry(s, a.t);
      StepKeepsOthers(s, a.t);
    }
    forall u | u in t.tries && u in s.tries && t.tries[u] == s.tries[u] ensures TryOk(t, t.tries[u]) {
      assert TryOk(s, s.tries[u]);
      TryOkLater(s, t, s.tries[u]);
    }
  }

  /** In every run in which no recording extends a lock in force, overlapping or not,
      no expiry cuts a lock short. */
  lemma {:induction false} RunsWithoutStackingAreSound(s: State, actions: seq<Action>)
    requires Inv(s) && Legal(s, actions) && NeverStacks(s, actions)
    ensures AlwaysSound(s, actions)
    decreases |actions|
  {
    assert forall key | key in s.keys :: Sound(Some(s.keys[key]));
    if actions != [] {
      ActionKeeps(s, actions[0]);
      RunsWithoutStackingAreSound(Apply(s, actions[0]), actions[1..]);
    }
  }

  // ---- When a step takes a lock back ----

  /** The step writes a lock before the one a living key holds. */
  predicate WritesLower(s: State, a: Action, key: string) {
    && a.Step? && a.t in s.tries && s.tries[a.t].stage.Write? && Target(s.tries[a.t]) == Some(key)
    && Alive(Get(s.keys, key), s.now).Some?
    && s.tries[a.t].stage.until < LockOf(Get(s.keys, key))
  }

  /** A key that lives on loses part of its lock. */
  predicate LosesLock(s: State, a: Action, key: string)
    requires Enabled(s, a)
  {
    var after := Get(Apply(s, a).keys, key);
    Alive(Get(s.keys, key), s.now).Some? && after.Some? && LockOf(after) < LockOf(Get(s.keys, key))
  }

  lemma StepLosesLockIff(s: State, a: Action, key: string)
    requires Enabled(s, a)
    ensures LosesLock(s, a, key) <==> WritesLower(s, a, key)
  {
    if a.Step? && Target(s.tries[a.t]) == Some(key) {
      assert Get(Apply(s, a).keys, key) == Effect(Get(s.keys, key), s.tries[a.t].stage, s.now, s.window);
    }
  }

  ghost predicate NeverLosesLock(s: State, actions: seq<Action>, key: string)
    requires Legal(s, actions)
    decreases |actions|
  {
    actions == [] || (!LosesLock(s, actions[0], key) && NeverLosesLock(Apply(s, actions[0]), actions[1..], key))
  }

  ghost predicate NeverWritesLower(s: State, actions: seq<Action>, key: string)
    requires Legal(s, actions)
    decreases |actions|
  {
    actions == [] || (!WritesLower(s, actions[0], key) && NeverWritesLower(Apply(s, actions[0]), actions[1..], key))
  }

  /** Over a run: a key that lives on keeps its lock throughout exactly if no write is
      below the lock it finds. */
  lemma {:induction false} RunLosesLockIff(s: State, actions: seq<Action>, key: string)
    requires Legal(s, actions)
    ensures NeverLosesLock(s, actions, key) <==> NeverWritesLower(s, actions, key)
    decreases |actions|
  {
    if actions != [] {
      StepLosesLockIff(s, actions[0], key);
      RunLosesLockIff(Apply(s, actions[0]), actions[1..], key);
    }
  }

  /** Some other attempt writes the key beyond `until`. */
  ghost predicate OtherWrites(s: State, actions: seq<Action>, t: nat, key: string, until: real)
    requires Legal(s, actions)
    decreases |actions|
  {
    actions != [] && (WritesBeyond(s, actions[0], t, key, until)
                      || OtherWrites(Apply(s, actions[0]), actions[1..], t, key, until))
  }

  predicate WritesBeyond(s: State, a: Action, t: nat, key: string, until: real) {
    && a.Step? && a.t != t && a.t in s.tries && s.tries[a.t].stage.Write? && Target(s.tries[a.t]) == Some(key)
    && s.tries[a.t].stage.until > until
  }

  lemma OnlyWritesRaise(s: State, a: Action, t: nat, key: string, until: real)
    requires Enabled(s, a) && a != Step(t) && until >= 0.0 && !WritesBeyond(s, a, t, key, until)
    requires LockOf(Alive(Get(s.keys, key), s.now)) <= until
    ensures LockOf(Alive(Get(Apply(s, a).keys, key), Apply(s, a).now)) <= until
  {
    if a.Step? && Target(s.tries[a.t]).Some? {
      var other := Target(s.tries[a.t]).value;
      assert Get(Apply(s, a).keys, other) == Effect(Get(s.keys, other), s.tries[a.t].stage, s.now, s.window);
      assert other != key ==> Get(Apply(s, a).keys, key) == Get(s.keys, key);
    }
  }

  lemma {:induction false} LockStaysBelow(s: State, actions: seq<Action>, t: nat, key: string, until: real)
    requires Legal(s, actions) && Step(t) !in actions && Drop(t) !in actions && until >= 0.0
    requires t in s.tries && s.tries[t].stage.Write?
    requires LockOf(Alive(Get(s.keys, key), s.now)) <= until && !OtherWrites(s, actions, t, key, until)
    ensures LockOf(Alive(Get(RunAll(s, actions).keys, key), RunAll(s, actions).now)) <= until
    ensures t in RunAll(s, actions).tries && RunAll(s, actions).tries[t] == s.tries[t]
    decreases |actions|
  {
    if actions != [] {
      assert actions[0] in actions;
      OnlyWritesRaise(s, actions[0], t, key, until);
      LockStaysBelow(Apply(s, actions[0]), actions[1..], t, key, until);
    }
  }

  /** Whatever happens between the moment a recording has looked at the lock and its
      write: if the write takes a living lock back, another attempt has written the
      same key in between, beyond it. */
  lemma LowerOnlyAfterOthers(s: State, t: nat, actions: seq<Action>)
    requires Enabled(s, Step(t)) && s.tries[t].stage.Look? && s.tries[t].stage.start >= 0.0
    requires s.tries[t].stage.seconds >= 0
    requires Legal(Apply(s, Step(t)), actions) && Step(t) !in actions && Drop(t) !in actions
    ensures var looked := Apply(s, Step(t));
            var key := KeyAt(s.tries[t], s.tries[t].stage.k);
            && t in looked.tries && looked.tries[t].stage.Write?
            && (WritesLower(RunAll(looked, actions), Step(t), key)
                ==> OtherWrites(looked, actions, t, key, looked.tries[t].stage.until))
  {
    var looked := Apply(s, Step(t));
    var key, until := KeyAt(s.tries[t], s.tries[t].stage.k), looked.tries[t].stage.until;
    if !OtherWrites(looked, actions, t, key, until) {
      LockStaysBelow(looked, actions, t, key, until);
    }
  }

  // ---- One attempt at a time ----

  predicate Below(s: State, key: string, bound: real) {
    LockOf(Alive(Get(s.keys, key), s.now)) <= Max(bound, 0.0)
  }

  /** What an attempt that runs alone knows of the locks. */
  predicate Knows(s: State, try_: Try) {
    var ip, email := KeyAt(try_, 0), KeyAt(try_, 1);
    match try_.stage
    case ReadIp => true
    case ReadEmail(ipLock) => Below(s, ip, ipLock)
    case Compare(ipLock, emailLock) => Below(s, ip, ipLock) && Below(s, email, emailLock)
    case Checked => Below(s, ip, s.now) && Below(s, email, s.now)
    case Count(k, start) => start >= 0.0 && Below(s, KeyAt(try_, k), start) && (k == 0 ==> Below(s, email, start))
    case Renew(k, start, _) => start >= 0.0 && Below(s, KeyAt(try_, k), start) && (k == 0 ==> Below(s, email, start))
    case Look(k, start, _) => start >= 0.0 && Below(s, KeyAt(try_, k), start) && (k == 0 ==> Below(s, email, start))
    case Write(k, start, _) => start >= 0.0 && (k == 0 ==> Below(s, email, start))
    case Reset(_) => true
  }

  ghost predicate Alone(s: State) {
    && (forall t, u | t in s.tries && u in s.tries :: t == u)
    && (forall t | t in s.tries :: Knows(s, s.tries[t]))
    && s.now >= 0.0
  }

  lemma KeysAreTwo(try_: Try, k: nat)
    ensures k != 0 ==> KeyAt(try_, k) != KeyAt(try_, 0)
    ensures k != 0 ==> KeyAt(try_, k) == KeyAt(try_, 1)
  {
    assert KeyAt(try_, 0)[0] == 'i' && KeyAt(try_, 1)[0] == 'e';
  }

  lemma StepKeepsKnowing(s: State, t: nat)
    requires Enabled(s, Step(t)) && Knows(s, s.tries[t]) && s.now >= 0.0
    ensures var stage := Continue(s, s.tries[t]);
            stage.Some? ==> Knows(s.(keys := WriteKey(s, t)), s.tries[t].(stage := stage.value))
  {
    KeysAreTwo(s.tries[t], 1);
    var key := Target(s.tries[t]);
    if key.Some? {
      assert Get(WriteKey(s, t), key.value) == Effect(Get(s.keys, key.value), s.tries[t].stage, s.now, s.window);
    }
  }

  lemma ActionKeepsAlone(s: State, a: Action)
    requires Alone(s) && Enabled(s, a) && (a.Begin? ==> s.tries == map[])
    ensures Alone(Apply(s, a)) && !Stacks(s, a)
  {
    if a.Step? {
      StepKeepsKnowing(s, a.t);
    }
  }

  /** No attempt begins while another is under way. */
  ghost predicate NoOverlap(s: State, actions: seq<Action>)
    requires Legal(s, actions)
    decreases |actions|
  {
    actions == [] || ((actions[0].Begin? ==> s.tries == map[]) && NoOverlap(Apply(s, actions[0]), actions[1..]))
  }

  /** Attempts that do not overlap extend no lock in force, so no expiry cuts one short. */
  lemma {:induction false} OneAtATimeNeverStacks(s: State, actions: seq<Action>)
    requires Alone(s) && Legal(s, actions) && NoOverlap(s, actions)
    ensures NeverStacks(s, actions)
    decreases |actions|
  {
    if actions != [] {
      ActionKeepsAlone(s, actions[0]);
      OneAtATimeNeverStacks(Apply(s, actions[0]), actions[1..]);
    }
  }

  function Empty(window: real): State {
    State(0.0, window, map[], map[])
  }

  lemma OneAtATimeIsSound(window: real, actions: seq<Action>)
    requires window >= 82800.0 && Legal(Empty(window), actions) && NoOverlap(Empty(window), actions)
    ensures AlwaysSound(Empty(window), actions)
  {
    OneAtATimeNeverStacks(Empty(window), actions);
    RunsWithoutStackingAreSound(Empty(window), actions);
  }
}
