/** Revoking a user's access tokens in Redis (app/core/security.py). Times are
    microseconds; a token's identifier is numbered by its place in string order. */
module Revocation {
  import opened Wrappers

  const SECOND := 1_000_000

  /** The `exp` claim in whole seconds; `lifetime` is the configured life of a token
      and of its denylist entry. */
  function ExpOf(issuedAt: nat, lifetime: int): int {
    issuedAt / SECOND + lifetime
  }

  predicate Expired(issuedAt: nat, lifetime: int, now: nat) {
    ExpOf(issuedAt, lifetime) * SECOND <= now
  }

  type Denylist = map<nat, int>

  predicate Denylisted(denylist: Denylist, jti: nat, now: nat) {
    jti in denylist && now < denylist[jti]
  }

  /** An entry written no earlier than the token was issued outlives the token:
      from then on the token is denylisted or expired at every instant. */
  lemma EntryOutlivesToken(denylist: Denylist, jti: nat, issuedAt: nat, lifetime: int, setAt: nat, now: nat)
    requires jti in denylist && denylist[jti] >= setAt + lifetime * SECOND && issuedAt <= setAt
    ensures Denylisted(denylist, jti, now) || Expired(issuedAt, lifetime, now)
  {
  }

  // ---- sorted() ----

  lemma LeastOf(s: set<nat>) returns (m: nat)
    requires s != {}
    ensures m in s && forall x | x in s :: m <= x
    decreases |s|
  {
    var first :| first in s;
    m := first;
    assert s == {first} + (s - {first});
    if s != {first} {
      var rest := LeastOf(s - {first});
      m := if first <= rest then first else rest;
    }
  }

  lemma LeastExists(s: set<nat>)
    requires s != {}
    ensures exists m :: m in s && forall x | x in s :: m <= x
  {
    var m := LeastOf(s);
  }

  function Least(s: set<nat>): (m: nat)
    requires s != {}
    ensures m in s && forall x | x in s :: m <= x
  {
    LeastExists(s);
    var m :| m in s && forall x | x in s :: m <= x;
    m
  }

  function Sorted(s: set<nat>): (r: seq<nat>)
    ensures forall x :: x in r <==> x in s
    ensures forall i, j | 0 <= i < j < |r| :: r[i] < r[j]
    ensures r == [] <==> s == {}
  {
    if s == {} then []
    else
      var m := Least(s);
      [m] + Sorted(s - {m})
  }

  // ---- One call ----

  /** Which command raises, and whether the server had applied it. */
  datatype Fault = NoFault | ReadFails | SetFails(at: nat, applied: bool) | DeleteFails(applied: bool)

  datatype RevokeError = Outage

  /** The denylist after the entries of `jtis` were set at the moments of `clock`. */
  function SetAll(denylist: Denylist, jtis: seq<nat>, clock: nat -> nat, ttl: int): Denylist {
    if jtis == [] then denylist
    else
      var n := |jtis| - 1;
      SetAll(denylist, jtis[..n], clock, ttl)[jtis[n] := clock(n) + ttl * SECOND]
  }

  /** How many entries a call writes. Redis refuses a time to live that is not positive. */
  function Written(n: nat, ttl: int, fault: Fault): nat {
    if fault.ReadFails? || ttl <= 0 then 0
    else if fault.SetFails? && fault.at < n then fault.at + (if fault.applied then 1 else 0)
    else n
  }

  predicate Completes(n: nat, ttl: int, fault: Fault) {
    !fault.ReadFails? && (n == 0 || (ttl > 0 && !(fault.SetFails? && fault.at < n) && !fault.DeleteFails?))
  }

  predicate Clears(n: nat, ttl: int, fault: Fault) {
    n > 0 && (Completes(n, ttl, fault) || (fault == DeleteFails(true) && ttl > 0))
  }

  class AccessTokens {
    var denylist: Denylist
    var active: set<nat>

    /** The first phase: one SET after the other, up to the first that raises. */
    method DenyAll(jtis: seq<nat>, clock: nat -> nat, ttl: int, fault: Fault) returns (denylisted: nat)
      requires !fault.ReadFails?
      modifies this`denylist
      ensures denylist == SetAll(old(denylist), jtis[..Written(|jtis|, ttl, fault)], clock, ttl)
      ensures denylisted <= |jtis|
      ensures denylisted == |jtis| <==> jtis == [] || (ttl > 0 && !(fault.SetFails? && fault.at < |jtis|))
    {
      denylisted := 0;
      while denylisted < |jtis|
        invariant 0 <= denylisted <= |jtis|
        invariant denylisted > 0 ==> ttl > 0 && !(fault.SetFails? && fault.at < denylisted)
        invariant denylist == SetAll(old(denylist), jtis[..denylisted], clock, ttl)
      {
        SetAllStep(old(denylist), jtis, denylisted, clock, ttl);
        var fails := fault.SetFails? && fault.at == denylisted;
        if ttl > 0 && (!fails || fault.applied) {
          denylist := denylist[jtis[denylisted] := clock(denylisted) + ttl * SECOND];
        }
        if ttl <= 0 || fails {
          return;
        }
        denylisted := denylisted + 1;
      }
    }

    /** `revoke_all_user_access_tokens`. */
    method RevokeAll(clock: nat -> nat, ttl: int, fault: Fault) returns (r: Result<nat, RevokeError>)
      modifies this
      ensures var jtis := Sorted(old(active));
              && r == (if Completes(|jtis|, ttl, fault) then Ok(|jtis|) else Err(Outage))
              && denylist == SetAll(old(denylist), jtis[..Written(|jtis|, ttl, fault)], clock, ttl)
              && active == (if Clears(|jtis|, ttl, fault) then {} else old(active))
      ensures r.Ok? <==> && !fault.ReadFails?
                         && (old(active) == {} || (ttl > 0 && !fault.DeleteFails?
                                                   && !(fault.SetFails? && fault.at < |old(active)|)))
      ensures r.Ok? ==> r.value == |old(active)| && active == {}
    {
      SortedLength(active);
      if fault.ReadFails? {
        return Err(Outage);
      }
      var jtis := Sorted(active);
      if jtis == [] {
        return Ok(0);
      }
      var denylisted := DenyAll(jtis, clock, ttl, fault);
      if denylisted < |jtis| {
        return Err(Outage);
      }
      if fault == DeleteFails(false) {
        return Err(Outage);
      }
      active := {};
      if fault.DeleteFails? {
        return Err(Outage);
      }
      r := Ok(denylisted);
    }
  }

  lemma {:induction false} SortedLength(s: set<nat>)
    ensures |Sorted(s)| == |s|
  {
    if s != {} {
      SortedLength(s - {Least(s)});
    }
  }

  /** What a written prefix of the sorted identifiers does to the denylist. */
  lemma EntriesOf(denylist: Denylist, jtis: seq<nat>, n: nat, clock: nat -> nat, ttl: int)
    requires n <= |jtis| && forall i, j | 0 <= i < j < |jtis| :: jtis[i] < jtis[j]
    ensures var after := SetAll(denylist, jtis[..n], clock, ttl);
            && (forall jti | jti !in jtis :: (jti in after <==> jti in denylist) && (jti in after ==> after[jti] == denylist[jti]))
            && (n == |jtis| ==> forall jti | jti in jtis :: jti in after && exists i: nat :: after[jti] == clock(i) + ttl * 1_000_000)
  {
    var after := SetAll(denylist, jtis[..n], clock, ttl);
    forall jti | jti !in jtis ensures (jti in after <==> jti in denylist) && (jti in after ==> after[jti] == denylist[jti]) {
      SetAllEntries(denylist, jtis[..n], clock, ttl, jti);
    }
    if n == |jtis| {
      assert jtis[..n] == jtis;
      forall jti | jti in jtis ensures jti in after && exists i: nat :: after[jti] == clock(i) + ttl * 1_000_000 {
        EntryOfMember(denylist, jtis, clock, ttl, jti);
      }
    }
  }

  /** What a call leaves, whatever fails: the set is cleared exactly if nothing failed
      before its deletion took effect, and then every identifier in it has an entry of the
      full lifetime; no other entry changes. */
  lemma CallInFull(denylist: Denylist, active: set<nat>, clock: nat -> nat, ttl: int, fault: Fault)
    ensures var jtis := Sorted(active);
            var after := SetAll(denylist, jtis[..Written(|jtis|, ttl, fault)], clock, ttl);
            && (active != {} ==>
                  (Clears(|jtis|, ttl, fault) <==> && ttl > 0 && !fault.ReadFails? && fault != DeleteFails(false)
                                                   && !(fault.SetFails? && fault.at < |active|)))
            && (Clears(|jtis|, ttl, fault) ==>
                  forall jti | jti in active :: jti in after && exists i: nat :: after[jti] == clock(i) + ttl * 1_000_000)
            && (forall jti | jti !in active :: (jti in after <==> jti in denylist) && (jti in after ==> after[jti] == denylist[jti]))
  {
    SortedLength(active);
    var jtis := Sorted(active);
    EntriesOf(denylist, jtis, Written(|jtis|, ttl, fault), clock, ttl);
  }

  lemma SetAllStep(denylist: Denylist, jtis: seq<nat>, n: nat, clock: nat -> nat, ttl: int)
    requires n < |jtis|
    ensures SetAll(denylist, jtis[..n + 1], clock, ttl)
            == SetAll(denylist, jtis[..n], clock, ttl)[jtis[n] := clock(n) + ttl * SECOND]
  {
    assert jtis[..n + 1][..n] == jtis[..n];
  }

  /** What writing a list of distinct identifiers does to the denylist. */
  lemma {:induction false} SetAllEntries(denylist: Denylist, jtis: seq<nat>, clock: nat -> nat, ttl: int, jti: nat)
    requires forall i, j | 0 <= i < j < |jtis| :: jtis[i] < jtis[j]
    ensures jti !in jtis ==>
              && (jti in SetAll(denylist, jtis, clock, ttl) <==> jti in denylist)
              && (jti in denylist ==> SetAll(denylist, jtis, clock, ttl)[jti] == denylist[jti])
    ensures forall i | 0 <= i < |jtis| && jtis[i] == jti ::
              jti in SetAll(denylist, jtis, clock, ttl)
              && SetAll(denylist, jtis, clock, ttl)[jti] == clock(i) + ttl * SECOND
  {
    if jtis != [] {
      SetAllEntries(denylist, jtis[..|jtis| - 1], clock, ttl, jti);
    }
  }

  /** A call that fails leaves the active set as it was, unless the deletion was
      applied after every entry had been written; so no identifier is forgotten
      without an entry. */
  lemma FailureForgetsNothing(denylist: Denylist, active: set<nat>, clock: nat -> nat, ttl: int, fault: Fault, jti: nat)
    requires jti in active
    ensures var jtis := Sorted(active);
            var after := SetAll(denylist, jtis[..Written(|jtis|, ttl, fault)], clock, ttl);
            Clears(|jtis|, ttl, fault) ==> exists i | 0 <= i < |jtis| :: jti in after && after[jti] == clock(i) + ttl * SECOND
  {
    var jtis := Sorted(active);
    if Clears(|jtis|, ttl, fault) {
      ClearsAfterAll(|jtis|, ttl, fault);
      assert jtis[..|jtis|] == jtis;
      EntryOfMember(denylist, jtis, clock, ttl, jti);
    }
  }

  lemma ClearsAfterAll(n: nat, ttl: int, fault: Fault)
    requires Clears(n, ttl, fault)
    ensures Written(n, ttl, fault) == n
  {
  }

  lemma EntryOfMember(denylist: Denylist, jtis: seq<nat>, clock: nat -> nat, ttl: int, jti: nat)
    requires jti in jtis && forall i, j | 0 <= i < j < |jtis| :: jtis[i] < jtis[j]
    ensures var after := SetAll(denylist, jtis, clock, ttl);
            exists i | 0 <= i < |jtis| :: jti in after && after[jti] == clock(i) + ttl * SECOND
  {
    SetAllEntries(denylist, jtis, clock, ttl, jti);
    var i :| 0 <= i < |jtis| && jtis[i] == jti;
    assert SetAll(denylist, jtis, clock, ttl)[jti] == clock(i) + ttl * SECOND;
  }

  /** A retry that completes leaves every token it read denylisted or expired, at
      every later instant, whatever the failed attempts before it did. */
  lemma RetryRevokesAll(denylist: Denylist, active: set<nat>, clock: nat -> nat, lifetime: int, fault: Fault,
                        jti: nat, issuedAt: nat, now: nat)
    requires jti in active && Completes(|Sorted(active)|, lifetime, fault)
    requires forall i :: issuedAt <= clock(i)
    ensures var jtis := Sorted(active);
            var after := SetAll(denylist, jtis[..Written(|jtis|, lifetime, fault)], clock, lifetime);
            Denylisted(after, jti, now) || Expired(issuedAt, lifetime, now)
  {
    var jtis := Sorted(active);
    var i :| 0 <= i < |jtis| && jtis[i] == jti;
    assert jtis[..|jtis|] == jtis;
    SetAllEntries(denylist, jtis, clock, lifetime, jti);
    EntryOutlivesToken(SetAll(denylist, jtis, clock, lifetime), jti, issuedAt, lifetime, clock(i), now);
  }
}
