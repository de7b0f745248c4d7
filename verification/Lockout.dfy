/** The progressive lockout (app/core/rate_limit.py): one Redis hash per address
    and per email, with an expiry of its own. Times are seconds. */
module Lockout {
  import opened Wrappers

  /** Thresholds and seconds, ascending. */
  const TABLE: seq<(nat, int)> := [(5, 180), (10, 900), (15, 3600), (20, 14400), (25, 86400)]

  const BUFFER := 3600.0

  /** The seconds of the highest threshold that the failures exceed. */
  function LockoutSeconds(failures: nat): (seconds: int)
    ensures 0 <= seconds <= 86400
  {
    if failures > TABLE[4].0 then TABLE[4].1
    else if failures > TABLE[3].0 then TABLE[3].1
    else if failures > TABLE[2].0 then TABLE[2].1
    else if failures > TABLE[1].0 then TABLE[1].1
    else if failures > TABLE[0].0 then TABLE[0].1
    else 0
  }

  /** `_get_lockout_seconds`. */
  method GetLockoutSeconds(failures: nat) returns (result: int)
    ensures result == LockoutSeconds(failures)
    ensures failures <= 5 <==> result == 0
    ensures 5 < failures <= 10 <==> result == 3 * 60
    ensures 10 < failures <= 15 <==> result == 15 * 60
    ensures 15 < failures <= 20 <==> result == 60 * 60
    ensures 20 < failures <= 25 <==> result == 4 * 60 * 60
    ensures 25 < failures <==> result == 24 * 60 * 60
  {
    result := 0;
    var i := 0;
    while i < |TABLE|
      invariant 0 <= i <= |TABLE|
      invariant forall j | 0 <= j < i :: failures > TABLE[j].0
      invariant result == if i == 0 then 0 else TABLE[i - 1].1
    {
      if failures > TABLE[i].0 {
        result := TABLE[i].1;
      } else {
        break;
      }
      i := i + 1;
    }
  }

  // ---- One hash ----

  /** Absent fields read as 0; `expiry` None is a key without a time to live. */
  datatype Bucket = Bucket(failures: nat, lockedUntil: real, expiry: Option<real>)

  type Key = Option<Bucket>

  function Alive(key: Key, t: real): Key {
    if key.Some? && key.value.expiry.Some? && key.value.expiry.value <= t then None else key
  }

  function LockOf(key: Key): real {
    if key.Some? then key.value.lockedUntil else 0.0
  }

  function FailuresOf(key: Key): nat {
    if key.Some? then key.value.failures else 0
  }

  /** HINCRBY failures 1. */
  function Increment(key: Key, t: real): Key {
    var live := Alive(key, t);
    Some(if live.Some? then live.value.(failures := live.value.failures + 1) else Bucket(1, 0.0, None))
  }

  /** EXPIRE; nothing for a key that is gone. */
  function Expire(key: Key, t: real, window: real): Key {
    var live := Alive(key, t);
    if live.Some? then Some(live.value.(expiry := Some(t + window + BUFFER))) else None
  }

  /** HSET locked_until; a key that is gone comes back without an expiry. */
  function SetLock(key: Key, t: real, until: real): Key {
    var live := Alive(key, t);
    Some(if live.Some? then live.value.(lockedUntil := until) else Bucket(0, until, None))
  }

  function Max(a: real, b: real): real {
    if a >= b then a else b
  }

  /** The moments of the commands of one recording, after the limiter read its clock. */
  datatype Moments = Moments(now: real, increment: real, expire: real, read: real, write: real) {
    predicate Ordered() {
      0.0 <= now <= increment <= expire <= read <= write
    }
  }

  /** `record_failure` on one key, nobody else touching it meanwhile. */
  function Recorded(key: Key, at: Moments, window: real): Key {
    var counted := Increment(key, at.increment);
    var kept := Expire(counted, at.expire, window);
    var seconds := LockoutSeconds(FailuresOf(counted));
    if seconds == 0 then kept
    else SetLock(kept, at.write, Max(at.now, LockOf(Alive(kept, at.read))) + seconds as real)
  }

  /** A key that is there, or not, when the count goes up, and lives on until the lock
      is written: one more failure, an hour more than the window to live, and from the
      sixth failure on the seconds of the table behind the lock in force, or behind now. */
  lemma RecordedInFull(key: Key, at: Moments, window: real)
    requires at.Ordered() && at.write < at.expire + window + 3600.0
    requires key.Some? && key.value.expiry.Some? ==>
               !(at.increment < key.value.expiry.value <= at.expire)
    ensures var known := key.Some? && (key.value.expiry.Some? ==> key.value.expiry.value > at.increment);
            var failures := if known then key.value.failures + 1 else 1;
            var lock := if known then key.value.lockedUntil else 0.0;
            var base := if lock <= at.now then at.now else lock;
            Recorded(key, at, window)
            == Some(Bucket(failures,
                           if failures > 25 then base + 86400.0 else if failures > 20 then base + 14400.0
                           else if failures > 15 then base + 3600.0 else if failures > 10 then base + 900.0
                           else if failures > 5 then base + 180.0 else lock,
                           Some(at.expire + window + 3600.0)))
  {
  }

  /** A key that expires between the count and the EXPIRE is gone, and comes back, if
      it is locked, with no failures and no time to live. */
  lemma RecordedWhileExpiring(key: Key, at: Moments, window: real)
    requires at.Ordered() && key.Some? && key.value.expiry.Some? && at.increment < key.value.expiry.value <= at.expire
    ensures Recorded(key, at, window)
            == if key.value.failures < 5 then None
               else Some(Bucket(0, at.now + LockoutSeconds(key.value.failures + 1) as real, None))
  {
  }

  /** The time to live does not cut the lock short. */
  predicate Sound(key: Key) {
    key.Some? && key.value.expiry.Some? ==> key.value.lockedUntil <= key.value.expiry.value
  }

  /** A recording that finds no lock in force keeps the key sound, for every window
      of at least 23 hours, and does not take a lock back while the key lives. */
  lemma RecordKeepsSound(key: Key, at: Moments, window: real)
    requires at.Ordered() && Sound(key) && window >= 82800.0
    requires LockOf(Alive(key, at.now)) <= at.now
    ensures Sound(Recorded(key, at, window))
    ensures Alive(key, at.expire).Some? ==>
              Recorded(key, at, window).Some? && LockOf(Recorded(key, at, window)) >= LockOf(key)
  {
  }

  // ---- The limiter ----

  /** One login attempt: the check, and what is recorded if it is not rejected. */
  datatype Attempt = Attempt(ip: string, email: string, success: bool, check: real, ipAt: Moments, emailAt: Moments) {
    predicate Ordered() {
      0.0 <= check <= ipAt.now && ipAt.Ordered() && emailAt.Ordered() && emailAt.now == ipAt.now
      && ipAt.write <= emailAt.increment
    }
  }

  type Keys = map<string, Bucket>

  function Get(keys: Keys, key: string): Key {
    if key in keys then Some(keys[key]) else None
  }

  function Put(keys: Keys, key: string, value: Key): (after: Keys)
    ensures Get(after, key) == value && forall other | other != key :: Get(after, other) == Get(keys, other)
  {
    if value.Some? then keys[key := value.value] else keys - {key}
  }

  function IpKey(a: Attempt): string {
    "ip:" + a.ip
  }

  function EmailKey(a: Attempt): string {
    "email:" + a.email
  }

  lemma KeysDiffer(a: Attempt)
    ensures IpKey(a) != EmailKey(a)
  {
    assert IpKey(a)[0] == 'i' && EmailKey(a)[0] == 'e';
  }

  predicate Locked(keys: Keys, key: string, t: real) {
    LockOf(Alive(Get(keys, key), t)) > t
  }

  function Step(keys: Keys, a: Attempt, window: real): Keys {
    if Locked(keys, IpKey(a), a.check) || Locked(keys, EmailKey(a), a.check) then keys
    else if a.success then keys - {IpKey(a), EmailKey(a)}
    else
      var first := Put(keys, IpKey(a), Recorded(Get(keys, IpKey(a)), a.ipAt, window));
      Put(first, EmailKey(a), Recorded(Get(first, EmailKey(a)), a.emailAt, window))
  }

  datatype CheckResult = CheckResult(isLocked: bool, retryAfter: Option<int>, failures: nat)

  class RateLimiter {
    var keys: Keys

    /** `check`, both hashes read at one moment. */
    method Check(ip: string, email: string, t: real) returns (r: CheckResult)
      ensures var known, there := ip in keys && (keys[ip].expiry.Some? ==> keys[ip].expiry.value > t),
                                  email in keys && (keys[email].expiry.Some? ==> keys[email].expiry.value > t);
              var ipLocked, emailLocked := known && keys[ip].lockedUntil > t, there && keys[email].lockedUntil > t;
              var m, n := if known then keys[ip].failures else 0, if there then keys[email].failures else 0;
              t >= 0.0 ==>
                r == if ipLocked then CheckResult(true, Some((keys[ip].lockedUntil - t).Floor), m)
                     else if emailLocked then CheckResult(true, Some((keys[email].lockedUntil - t).Floor), n)
                     else CheckResult(false, None, if m >= n then m else n)
      ensures r.isLocked <==> Locked(keys, ip, t) || Locked(keys, email, t)
    {
      var a, b := Alive(Get(keys, ip), t), Alive(Get(keys, email), t);
      if LockOf(a) > t {
        return CheckResult(true, Some((LockOf(a) - t).Floor), FailuresOf(a));
      }
      if LockOf(b) > t {
        return CheckResult(true, Some((LockOf(b) - t).Floor), FailuresOf(b));
      }
      r := CheckResult(false, None, if FailuresOf(a) >= FailuresOf(b) then FailuresOf(a) else FailuresOf(b));
    }

    /** `record_failure` on one of its two keys, command by command. */
    method RecordKey(key: string, at: Moments, window: real)
      modifies this
      ensures keys == Put(old(keys), key, Recorded(Get(old(keys), key), at, window))
    {
      var counted := Increment(Get(keys, key), at.increment);
      keys := Put(keys, key, counted);
      var kept := Expire(counted, at.expire, window);
      keys := Put(keys, key, kept);
      var seconds := GetLockoutSeconds(FailuresOf(counted));
      if seconds > 0 {
        var current := LockOf(Alive(kept, at.read));
        keys := Put(keys, key, SetLock(kept, at.write, Max(at.now, current) + seconds as real));
      }
    }

    /** One login attempt as the router runs it. */
    method Attempt(a: Attempt, window: real) returns (rejected: bool)
      modifies this
      ensures keys == Step(old(keys), a, window)
      ensures a.check >= 0.0 ==>
                (rejected <==> exists key | key in {"ip:" + a.ip, "email:" + a.email} ::
                   && key in old(keys) && old(keys)[key].lockedUntil > a.check
                   && (old(keys)[key].expiry.Some? ==> old(keys)[key].expiry.value > a.check))
      ensures rejected ==> keys == old(keys)
      ensures !rejected && a.success ==> keys == old(keys) - {"ip:" + a.ip, "email:" + a.email}
      ensures !rejected && !a.success ==>
                && Get(keys, "ip:" + a.ip) == Recorded(Get(old(keys), "ip:" + a.ip), a.ipAt, window)
                && Get(keys, "email:" + a.email) == Recorded(Get(old(keys), "email:" + a.email), a.emailAt, window)
                && forall other | other !in {"ip:" + a.ip, "email:" + a.email} ::
                     (other in keys <==> other in old(keys)) && (other in keys ==> keys[other] == old(keys)[other])
    {
      KeysDiffer(a);
      var status := Check(IpKey(a), EmailKey(a), a.check);
      rejected := status.isLocked;
      if rejected {
        return;
      }
      if a.success {
        keys := keys - {IpKey(a), EmailKey(a)};
      } else {
        RecordKey(IpKey(a), a.ipAt, window);
        RecordKey(EmailKey(a), a.emailAt, window);
      }
    }
  }

  // ---- Sequential runs ----

  function RunAttempts(keys: Keys, attempts: seq<Attempt>, window: real): Keys
    decreases |attempts|
  {
    if attempts == [] then keys else RunAttempts(Step(keys, attempts[0], window), attempts[1..], window)
  }

  ghost predicate AllSound(keys: Keys) {
    forall key | key in keys :: Sound(Some(keys[key]))
  }

  /** One attempt: every key stays sound, and while it lives its lock does not go
      back, unless a successful login resets it. */
  lemma StepKeepsSound(keys: Keys, a: Attempt, window: real, key: string)
    requires a.Ordered() && window >= 82800.0 && AllSound(keys)
    ensures AllSound(Step(keys, a, window))
    ensures (!a.success || (key != IpKey(a) && key != EmailKey(a))) && Alive(Get(keys, key), a.emailAt.expire).Some? ==>
              key in Step(keys, a, window) && Step(keys, a, window)[key].lockedUntil >= keys[key].lockedUntil
  {
    KeysDiffer(a);
    if !Locked(keys, IpKey(a), a.check) && !Locked(keys, EmailKey(a), a.check) && !a.success {
      RecordKeepsSound(Get(keys, IpKey(a)), a.ipAt, window);
      RecordKeepsSound(Get(keys, EmailKey(a)), a.emailAt, window);
      StepKeys(keys, a, window);
      RecordedKeep(keys, Step(keys, a, window), a, key);
    }
  }

  /** Two keys have been recorded, the others stay. */
  lemma RecordedKeep(keys: Keys, after: Keys, a: Attempt, key: string)
    requires a.Ordered() && AllSound(keys)
    requires forall k | k != IpKey(a) && k != EmailKey(a) :: Get(after, k) == Get(keys, k)
    requires forall k | k == IpKey(a) || k == EmailKey(a) ::
               && Sound(Get(after, k))
               && (Alive(Get(keys, k), a.emailAt.expire).Some? ==>
                     Get(after, k).Some? && LockOf(Get(after, k)) >= LockOf(Get(keys, k)))
    ensures AllSound(after)
    ensures Alive(Get(keys, key), a.emailAt.expire).Some? ==> key in after && after[key].lockedUntil >= keys[key].lockedUntil
  {
    forall k | k in after ensures Sound(Some(after[k])) {
      assert Get(after, k) == Some(after[k]);
    }
  }

  lemma StepKeys(keys: Keys, a: Attempt, window: real)
    requires !Locked(keys, IpKey(a), a.check) && !Locked(keys, EmailKey(a), a.check) && !a.success
    ensures Get(Step(keys, a, window), IpKey(a)) == Recorded(Get(keys, IpKey(a)), a.ipAt, window)
    ensures Get(Step(keys, a, window), EmailKey(a)) == Recorded(Get(keys, EmailKey(a)), a.emailAt, window)
    ensures forall k | k != IpKey(a) && k != EmailKey(a) :: Get(Step(keys, a, window), k) == Get(keys, k)
  {
    KeysDiffer(a);
  }

  /** In every sequential run no expiry ever cuts a lock short. */
  lemma {:induction false} SequentialRunsAreSound(keys: Keys, attempts: seq<Attempt>, window: real)
    requires AllSound(keys) && window >= 82800.0 && forall a | a in attempts :: a.Ordered()
    ensures AllSound(RunAttempts(keys, attempts, window))
    decreases |attempts|
  {
    if attempts != [] {
      assert attempts[0] in attempts;
      StepKeepsSound(keys, attempts[0], window, "");
      SequentialRunsAreSound(Step(keys, attempts[0], window), attempts[1..], window);
    }
  }
}
