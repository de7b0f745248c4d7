/** Overlapping login attempts that reach a lock beyond the expiry of its key, and a
    write that takes a lock back, both from the empty store (app/core/rate_limit.py). */
module LockoutReached {
  import opened Wrappers
  import opened Lockout
  import opened LockoutRuns

  // ---- Reaching ----

  ghost predicate Reaches(s: State, t: State) {
    exists actions :: Legal(s, actions) && RunAll(s, actions) == t
  }

  lemma {:induction false} RunConcat(s: State, first: seq<Action>, rest: seq<Action>)
    requires Legal(s, first) && Legal(RunAll(s, first), rest)
    ensures Legal(s, first + rest) && RunAll(s, first + rest) == RunAll(RunAll(s, first), rest)
    decreases |first|
  {
    if first == [] {
      assert first + rest == rest;
    } else {
      RunConcat(Apply(s, first[0]), first[1..], rest);
      assert first + rest == [first[0]] + (first[1..] + rest);
    }
  }

  lemma Chain(s: State, t: State, u: State)
    requires Reaches(s, t) && Reaches(t, u)
    ensures Reaches(s, u)
  {
    var first :| Legal(s, first) && RunAll(s, first) == t;
    var rest :| Legal(t, rest) && RunAll(t, rest) == u;
    RunConcat(s, first, rest);
  }

  lemma One(s: State, a: Action)
    requires Enabled(s, a)
    ensures Reaches(s, Apply(s, a))
  {
    var actions, rest: seq<Action> := [a], [];
    assert actions[1..] == rest;
    assert Legal(Apply(s, a), rest) && RunAll(Apply(s, a), rest) == Apply(s, a);
    assert Legal(s, actions);
    assert RunAll(s, actions) == RunAll(Apply(s, a), actions[1..]);
  }

  lemma StepTo(s: State, t: nat, u: State)
    requires Enabled(s, Step(t)) && u == Apply(s, Step(t))
    ensures Reaches(s, u)
  {
    One(s, Step(t));
  }

  // ---- An undisturbed recording ----

  /** The commands of one recording on one key, with nobody in between, do what one
      call does. */
  function AfterKey(s: State, t: nat): State
    requires t in s.tries && s.tries[t].stage.Count?
  {
    var try_, stage := s.tries[t], s.tries[t].stage;
    var key := KeyAt(try_, stage.k);
    s.(keys := Put(s.keys, key, Recorded(Get(s.keys, key), Moments(stage.start, s.now, s.now, s.now, s.now), s.window)),
       tries := Move(s, t, NextKey(stage.k, stage.start)))
  }

  function At(s: State, t: nat, key: string, value: Key, stage: Stage): State
    requires t in s.tries
  {
    s.(keys := Put(s.keys, key, value), tries := s.tries[t := s.tries[t].(stage := stage)])
  }

  lemma PutTwice(keys: Keys, key: string, first: Key, second: Key)
    ensures Put(Put(keys, key, first), key, second) == Put(keys, key, second)
  {
  }

  lemma UndisturbedRecording(s: State, t: nat)
    requires t in s.tries && s.tries[t].stage.Count?
    ensures Reaches(s, AfterKey(s, t))
  {
    var try_, k, start := s.tries[t], s.tries[t].stage.k, s.tries[t].stage.start;
    var key, now := KeyAt(try_, k), s.now;
    var counted := Increment(Get(s.keys, key), now);
    var kept := Expire(counted, now, s.window);
    var seconds := LockoutSeconds(FailuresOf(counted));
    var s1 := At(s, t, key, counted, Renew(k, start, seconds));
    StepTo(s, t, s1);
    PutTwice(s.keys, key, counted, kept);
    if seconds == 0 {
      StepTo(s1, t, AfterKey(s, t)) by { assert Continue(s1, s1.tries[t]) == NextKey(k, start); }
      Chain(s, s1, AfterKey(s, t));
    } else {
      var s2 := At(s, t, key, kept, Look(k, start, seconds));
      StepTo(s1, t, s2);
      Chain(s, s1, s2);
      FromLook(s, t, kept, seconds);
      Chain(s, s2, AfterKey(s, t));
    }
  }

  lemma FromLook(s: State, t: nat, kept: Key, seconds: int)
    requires t in s.tries && s.tries[t].stage.Count? && seconds > 0
    requires var key := KeyAt(s.tries[t], s.tries[t].stage.k);
             && var counted := Increment(Get(s.keys, key), s.now);
             && kept == Expire(counted, s.now, s.window) && seconds == LockoutSeconds(FailuresOf(counted))
    ensures var key := KeyAt(s.tries[t], s.tries[t].stage.k);
            Reaches(At(s, t, key, kept, Look(s.tries[t].stage.k, s.tries[t].stage.start, seconds)), AfterKey(s, t))
  {
    var k, start := s.tries[t].stage.k, s.tries[t].stage.start;
    var key := KeyAt(s.tries[t], k);
    var until := Max(start, LockOf(Alive(kept, s.now))) + seconds as real;
    var s2 := At(s, t, key, kept, Look(k, start, seconds));
    var s3 := At(s, t, key, kept, Write(k, start, until));
    StepTo(s2, t, s3);
    PutTwice(s.keys, key, kept, SetLock(kept, s.now, until));
    StepTo(s3, t, AfterKey(s, t));
    Chain(s2, s3, AfterKey(s, t));
  }

  /** A checked attempt that fails, with nobody in between, is recorded on both keys. */
  function AfterFailure(s: State, t: nat): State
    requires t in s.tries
  {
    var at := Moments(s.now, s.now, s.now, s.now, s.now);
    var ip, email := KeyAt(s.tries[t], 0), KeyAt(s.tries[t], 1);
    var first := Put(s.keys, ip, Recorded(Get(s.keys, ip), at, s.window));
    s.(keys := Put(first, email, Recorded(Get(first, email), at, s.window)), tries := s.tries - {t})
  }

  lemma UndisturbedFailure(s: State, t: nat)
    requires t in s.tries && s.tries[t].stage.Checked?
    ensures Reaches(s, AfterFailure(s, t))
  {
    var s1 := Apply(s, Finish(t, false));
    One(s, Finish(t, false));
    var s2 := AfterKey(s1, t);
    UndisturbedRecording(s1, t);
    Chain(s, s1, s2);
    UndisturbedRecording(s2, t);
    assert AfterKey(s2, t).tries == AfterFailure(s, t).tries;
    Chain(s, s2, AfterFailure(s, t));
  }

  lemma UndisturbedSuccess(s: State, t: nat)
    requires t in s.tries && s.tries[t].stage.Checked?
    ensures Reaches(s, s.(keys := s.keys - {"ip:" + s.tries[t].ip, "email:" + s.tries[t].email}, tries := s.tries - {t}))
  {
    var ip, email := KeyAt(s.tries[t], 0), KeyAt(s.tries[t], 1);
    var s1 := Apply(s, Finish(t, true));
    One(s, Finish(t, true));
    var s2 := s.(keys := s.keys - {ip}, tries := s1.tries[t := s1.tries[t].(stage := Reset(1))]);
    StepTo(s1, t, s2);
    Chain(s, s1, s2);
    var s3 := s.(keys := s.keys - {ip, email}, tries := s.tries - {t});
    assert Apply(s2, Step(t)).keys == s3.keys && Apply(s2, Step(t)).tries == s3.tries;
    StepTo(s2, t, s3);
    Chain(s, s2, s3);
  }

  /** The check reads the address, then the email, and compares. */
  lemma UndisturbedCheck(s: State, t: nat)
    requires t in s.tries && s.tries[t].stage.ReadIp?
    ensures var locked := Locked(s.keys, KeyAt(s.tries[t], 0), s.now) || Locked(s.keys, KeyAt(s.tries[t], 1), s.now);
            Reaches(s, s.(tries := if locked then s.tries - {t} else s.tries[t := s.tries[t].(stage := Checked)]))
  {
    var try_ := s.tries[t];
    var ip, email := LockOf(Alive(Get(s.keys, KeyAt(try_, 0)), s.now)), LockOf(Alive(Get(s.keys, KeyAt(try_, 1)), s.now));
    var s1 := s.(tries := s.tries[t := try_.(stage := ReadEmail(ip))]);
    StepTo(s, t, s1);
    var s2 := s.(tries := s.tries[t := try_.(stage := Compare(ip, email))]);
    assert Apply(s1, Step(t)).tries == s2.tries;
    StepTo(s1, t, s2);
    Chain(s, s1, s2);
    var s3 := Apply(s2, Step(t));
    One(s2, Step(t));
    Chain(s, s2, s3);
    assert s3.tries == if ip > s.now || email > s.now then s.tries - {t} else s.tries[t := try_.(stage := Checked)];
  }

  /** The commands of one attempt with nobody in between do what one call after the
      other does: a locked one nothing, a success resets both keys, a failure
      records both. */
  lemma UndisturbedAttempt(s: State, t: nat, ip: string, email: string, success: bool)
    requires t !in s.tries
    ensures var at := Moments(s.now, s.now, s.now, s.now, s.now);
            Reaches(s, s.(keys := Lockout.Step(s.keys, Attempt(ip, email, success, s.now, at, at), s.window)))
  {
    var at := Moments(s.now, s.now, s.now, s.now, s.now);
    var a := Attempt(ip, email, success, s.now, at, at);
    var end := s.(keys := Lockout.Step(s.keys, a, s.window));
    var s1 := Apply(s, Begin(t, ip, email));
    One(s, Begin(t, ip, email));
    UndisturbedCheck(s1, t);
    assert s.tries == s1.tries - {t};
    if Locked(s.keys, IpKey(a), s.now) || Locked(s.keys, EmailKey(a), s.now) {
      Chain(s, s1, end);
    } else {
      var s2 := s1.(tries := s1.tries[t := s1.tries[t].(stage := Checked)]);
      Chain(s, s1, s2);
      assert s.tries == s2.tries - {t};
      if success {
        UndisturbedSuccess(s2, t);
      } else {
        UndisturbedFailure(s2, t);
      }
      Chain(s, s2, end);
    }
  }

  // ---- A crowd that has passed the check ----

  const WINDOW := 86400.0

  const IP := "192.168.1.1"
  const EMAIL := "user"

  /** The attempts from `first` up to `last` have passed the check and wait. */
  function Waiting(first: nat, last: nat): map<nat, Try> {
    map t: nat | first <= t < last :: Passed(t)
  }

  function Passed(t: nat): Try {
    Try(IP, EMAIL, Checked)
  }

  /** The lock after so many recordings at the same moment. */
  function StackedLock(failures: nat): real
    requires failures <= 25
  {
    if failures <= 5 then 0.0
    else if failures <= 10 then (failures - 5) as real * 180.0
    else if failures <= 15 then 900.0 + (failures - 10) as real * 900.0
    else if failures <= 20 then 5400.0 + (failures - 15) as real * 3600.0
    else 23400.0 + (failures - 20) as real * 14400.0
  }

  function StackedBucket(failures: nat): Bucket
    requires failures <= 25
  {
    Bucket(failures, StackedLock(failures), Some(WINDOW + BUFFER))
  }

  function StackedKeys(failures: nat): Keys
    requires failures <= 25
  {
    if failures == 0 then map[]
    else map["ip:" + IP := StackedBucket(failures), "email:" + EMAIL := StackedBucket(failures)]
  }

  function Stacked(last: nat, recorded: nat): State
    requires recorded <= 25
  {
    State(0.0, WINDOW, StackedKeys(recorded), Waiting(recorded, last))
  }

  lemma OneMoreWaits(n: nat)
    ensures Reaches(Stacked(n, 0), Stacked(n + 1, 0))
  {
    var s := Stacked(n, 0);
    var begun := s.(tries := s.tries[n := Try(IP, EMAIL, ReadIp)]);
    One(s, Begin(n, IP, EMAIL));
    ChecksFresh(begun, n);
    assert begun.tries[n := Try(IP, EMAIL, Checked)] == Waiting(0, n + 1);
    Chain(s, begun, Stacked(n + 1, 0));
  }

  /** A check that finds no key passes. */
  lemma ChecksFresh(s: State, n: nat)
    requires s.keys == map[] && s.now == 0.0 && n in s.tries && s.tries[n].stage.ReadIp?
    ensures Reaches(s, s.(tries := s.tries[n := s.tries[n].(stage := Checked)]))
  {
    var try_ := s.tries[n];
    var s1 := s.(tries := s.tries[n := try_.(stage := ReadEmail(0.0))]);
    var s2 := s.(tries := s.tries[n := try_.(stage := Compare(0.0, 0.0))]);
    var s3 := s.(tries := s.tries[n := try_.(stage := Checked)]);
    StepTo(s, n, s1);
    StepTo(s1, n, s2);
    Chain(s, s1, s2);
    StepTo(s2, n, s3);
    Chain(s, s2, s3);
  }

  lemma {:induction false} CrowdIsReached(n: nat)
    ensures Reaches(Empty(WINDOW), Stacked(n, 0))
  {
    if n == 0 {
      var none: seq<Action> := [];
      assert Legal(Empty(WINDOW), none) && RunAll(Empty(WINDOW), none) == Empty(WINDOW);
      assert Stacked(0, 0) == Empty(WINDOW);
    } else {
      CrowdIsReached(n - 1);
      OneMoreWaits(n - 1);
      Chain(Empty(WINDOW), Stacked(n - 1, 0), Stacked(n, 0));
    }
  }

  lemma RecordedStacks(recorded: nat)
    requires recorded < 25
    ensures var key: Key := if recorded == 0 then None else Some(StackedBucket(recorded));
            Recorded(key, Moments(0.0, 0.0, 0.0, 0.0, 0.0), WINDOW) == Some(StackedBucket(recorded + 1))
  {
  }

  lemma OneMoreRecorded(last: nat, recorded: nat)
    requires recorded < 25 && recorded < last
    ensures Reaches(Stacked(last, recorded), Stacked(last, recorded + 1))
  {
    var s := Stacked(last, recorded);
    var ip, email := "ip:" + IP, "email:" + EMAIL;
    KeysAreTwo(s.tries[recorded], 1);
    RecordedStacks(recorded);
    UndisturbedFailure(s, recorded);
    assert Get(s.keys, ip) == Get(s.keys, email) == if recorded == 0 then None else Some(StackedBucket(recorded));
    assert AfterFailure(s, recorded).keys == StackedKeys(recorded + 1);
    assert AfterFailure(s, recorded).tries == Waiting(recorded + 1, last);
  }

  lemma {:induction false} StackedIsReached(last: nat, recorded: nat)
    requires recorded <= 25 && recorded <= last
    ensures Reaches(Empty(WINDOW), Stacked(last, recorded))
  {
    if recorded == 0 {
      CrowdIsReached(last);
    } else {
      StackedIsReached(last, recorded - 1);
      OneMoreRecorded(last, recorded - 1);
      Chain(Empty(WINDOW), Stacked(last, recorded - 1), Stacked(last, recorded));
    }
  }

  // ---- The two counterexamples ----

  /** Twenty-five failures that all passed the check stack a lock of 26.5 hours on a
      key that lives 25: the address is free again while its lock still runs. Fewer
      recorded at one moment do not. */
  lemma ConcurrentRecordsStack()
    ensures Reaches(Empty(WINDOW), Stacked(25, 25))
    ensures var key := Get(Stacked(25, 25).keys, "ip:" + IP);
            && !Sound(key)
            && Alive(key, 90000.0) == None && LockOf(key) == 95400.0
    ensures forall n | 1 <= n <= 25 :: Sound(Some(StackedBucket(n))) <==> n < 25
  {
    StackedIsReached(25, 25);
  }

  /** The tenth failure looked at the lock before the eleventh wrote it and has not
      written its own yet. */
  function Crossing(): State {
    State(0.0, WINDOW,
          map["ip:" + IP := Bucket(11, 1620.0, Some(WINDOW + BUFFER)), "email:" + EMAIL := StackedBucket(9)],
          map[9 := Try(IP, EMAIL, Write(0, 0.0, 900.0)), 10 := Try(IP, EMAIL, Count(1, 0.0))])
  }

  lemma CrossingIsReached()
    ensures Reaches(Empty(WINDOW), Crossing())
  {
    var s := Stacked(11, 9);
    var ip, email := "ip:" + IP, "email:" + EMAIL;
    StackedIsReached(11, 9);
    KeysAreTwo(s.tries[9], 1);
    assert s.tries == map[9 := Try(IP, EMAIL, Checked), 10 := Try(IP, EMAIL, Checked)];
    var s1 := s.(tries := map[9 := Try(IP, EMAIL, Count(0, 0.0)), 10 := Try(IP, EMAIL, Checked)]);
    assert s1.tries == s.tries[9 := Try(IP, EMAIL, Count(0, 0.0))];
    One(s, Finish(9, false));
    var s2 := s.(tries := map[9 := Try(IP, EMAIL, Count(0, 0.0)), 10 := Try(IP, EMAIL, Count(0, 0.0))]);
    assert s2.tries == s1.tries[10 := Try(IP, EMAIL, Count(0, 0.0))];
    One(s1, Finish(10, false));
    Chain(Empty(WINDOW), s, s1);
    Chain(Empty(WINDOW), s1, s2);
    FirstLooks(s2);
    Chain(Empty(WINDOW), s2, Looked());
    SecondRecords();
    Chain(Empty(WINDOW), Looked(), Crossing());
  }

  function Looked(): State {
    State(0.0, WINDOW,
          map["ip:" + IP := Bucket(10, 720.0, Some(WINDOW + BUFFER)), "email:" + EMAIL := StackedBucket(9)],
          map[9 := Try(IP, EMAIL, Write(0, 0.0, 900.0)), 10 := Try(IP, EMAIL, Count(0, 0.0))])
  }

  lemma FirstLooks(s: State)
    requires s == State(0.0, WINDOW, StackedKeys(9),
                        map[9 := Try(IP, EMAIL, Count(0, 0.0)), 10 := Try(IP, EMAIL, Count(0, 0.0))])
    ensures Reaches(s, Looked())
  {
    var ip := "ip:" + IP;
    var counted: Key := Some(Bucket(10, 720.0, Some(WINDOW + BUFFER)));
    var s3 := At(s, 9, ip, counted, Write(0, 0.0, 900.0));
    LooksAtLock(s, ip, counted);
    KeysAreTwo(s.tries[9], 1);
    assert s3.keys == Looked().keys;
    assert s3.tries == Looked().tries;
  }

  lemma LooksAtLock(s: State, ip: string, counted: Key)
    requires 9 in s.tries && s.tries[9].stage == Count(0, 0.0) && ip == KeyAt(s.tries[9], 0)
    requires s.now == 0.0 && s.window == WINDOW && counted == Some(Bucket(10, 720.0, Some(WINDOW + BUFFER)))
    requires Get(s.keys, ip) == Some(Bucket(9, 720.0, Some(WINDOW + BUFFER)))
    ensures Reaches(s, At(s, 9, ip, counted, Write(0, 0.0, 900.0)))
  {
    var s1, s2 := At(s, 9, ip, counted, Renew(0, 0.0, 180)), At(s, 9, ip, counted, Look(0, 0.0, 180));
    var s3 := At(s, 9, ip, counted, Write(0, 0.0, 900.0));
    PutTwice(s.keys, ip, counted, counted);
    StepTo(s, 9, s1);
    StepTo(s1, 9, s2);
    Chain(s, s1, s2);
    StepTo(s2, 9, s3);
    Chain(s, s2, s3);
  }

  lemma SecondRecords()
    ensures Reaches(Looked(), Crossing())
  {
    var s := Looked();
    UndisturbedRecording(s, 10);
    KeysAreTwo(s.tries[10], 1);
    assert AfterKey(s, 10).keys == Crossing().keys;
    assert AfterKey(s, 10).tries == Crossing().tries;
  }

  /** The write that comes late leaves the living lock 720 seconds shorter. */
  lemma LateWriteLowersLock()
    ensures Reaches(Empty(WINDOW), Crossing())
    ensures Enabled(Crossing(), Step(9)) && WritesLower(Crossing(), Step(9), "ip:" + IP)
    ensures var after := Apply(Crossing(), Step(9));
            && LockOf(Get(Crossing().keys, "ip:" + IP)) == 1620.0 && LockOf(Get(after.keys, "ip:" + IP)) == 900.0
            && LosesLock(Crossing(), Step(9), "ip:" + IP)
  {
    CrossingIsReached();
    StepLosesLockIff(Crossing(), Step(9), "ip:" + IP);
  }
}
