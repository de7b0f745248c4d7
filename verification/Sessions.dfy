/** The refresh tokens of one user (app/modules/auth/service.py): creation under
    the session cap, rotation, logout and revocation, one call at a time. */
module Sessions {
  import opened Wrappers

  const MAX_ACTIVE_SESSIONS := 5
  const REFRESH_TOKEN_EXPIRE_SECONDS := 7 * 86400

  datatype Token = Token(createdAt: int, expiresAt: int, revoked: bool)

  type Tokens = map<nat, Token>

  function Active(tokens: Tokens, now: int): set<nat> {
    set i | i in tokens && !tokens[i].revoked && tokens[i].expiresAt > now
  }

  function Unrevoked(tokens: Tokens): set<nat> {
    set i | i in tokens && !tokens[i].revoked
  }

  /** The row the eviction query may return: no unrevoked one is older. It does
      not look at the expiry. */
  predicate Oldest(tokens: Tokens, i: nat) {
    && i in tokens && !tokens[i].revoked
    && forall j | j in tokens && !tokens[j].revoked :: tokens[i].createdAt <= tokens[j].createdAt
  }

  function Revoke(tokens: Tokens, ids: set<nat>): (r: Tokens)
    ensures r.Keys == tokens.Keys
  {
    map i | i in tokens :: if i in ids then tokens[i].(revoked := true) else tokens[i]
  }

  function NewToken(start: int, now: int): Token {
    Token(start, now + REFRESH_TOKEN_EXPIRE_SECONDS, false)
  }

  lemma OldestExists(tokens: Tokens)
    requires Unrevoked(tokens) != {}
    ensures exists i :: Oldest(tokens, i)
  {
    var i := OldestOf(tokens, Unrevoked(tokens));
    assert Oldest(tokens, i);
  }

  lemma OldestOf(tokens: Tokens, ids: set<nat>) returns (i: nat)
    requires ids != {} && ids <= Unrevoked(tokens)
    ensures i in ids && forall j | j in ids :: tokens[i].createdAt <= tokens[j].createdAt
    decreases |ids|
  {
    i :| i in ids;
    if ids != {i} {
      var rest := OldestOf(tokens, ids - {i});
      i := if tokens[i].createdAt <= tokens[rest].createdAt then i else rest;
    }
  }

  /** What a creation may turn a table into; `victim` is the evicted row. */
  predicate Creates(before: Tokens, after: Tokens, id: nat, start: int, now: int, victim: Option<nat>) {
    && (victim.Some? <==> |Active(before, now)| >= MAX_ACTIVE_SESSIONS)
    && (victim.Some? ==> Oldest(before, victim.value))
    && after == Revoke(before, if victim.Some? then {victim.value} else {})[id := NewToken(start, now)]
  }

  lemma ActiveAfterCreation(before: Tokens, after: Tokens, id: nat, start: int, now: int, victim: Option<nat>)
    requires id !in before && Creates(before, after, id, start, now, victim)
    ensures Active(after, now) == Active(before, now) - (if victim.Some? then {victim.value} else {}) + {id}
    ensures |Active(after, now)|
            == |Active(before, now)| + (if victim.Some? && before[victim.value].expiresAt > now then 0 else 1)
  {
    ActiveOnes(before, after, id, start, now, victim);
    var gone := if victim.Some? then {victim.value} else {};
    if victim.Some? && victim.value in Active(before, now) {
      assert |Active(before, now) - gone| == |Active(before, now)| - 1;
    } else {
      assert Active(before, now) - gone == Active(before, now);
    }
  }

  lemma ActiveOnes(before: Tokens, after: Tokens, id: nat, start: int, now: int, victim: Option<nat>)
    requires id !in before && Creates(before, after, id, start, now, victim)
    ensures Active(after, now) == Active(before, now) - (if victim.Some? then {victim.value} else {}) + {id}
  {
  }

  /** One creation keeps the cap exactly when it does not evict, at a full cap, a
      row that has already expired. */
  lemma CreationKeepsCapIff(before: Tokens, after: Tokens, id: nat, start: int, now: int, victim: Option<nat>)
    requires id !in before && Creates(before, after, id, start, now, victim)
    requires |Active(before, now)| <= MAX_ACTIVE_SESSIONS
    ensures |Active(after, now)| <= MAX_ACTIVE_SESSIONS
            <==> !(victim.Some? && before[victim.value].expiresAt <= now)
  {
    ActiveAfterCreation(before, after, id, start, now, victim);
  }

  datatype AuthError = InvalidRefreshToken

  class SessionTable {
    var tokens: Tokens

    /** `_create_refresh_token`: a row is revoked exactly if five sessions are active,
        an oldest of those that are not revoked; the new row lives seven days. */
    method CreateRefreshToken(id: nat, start: int, now: int) returns (victim: Option<nat>)
      requires id !in tokens
      modifies this
      ensures Creates(old(tokens), tokens, id, start, now, victim)
      ensures victim.Some? <==>
                |set i | i in old(tokens) && !old(tokens)[i].revoked && old(tokens)[i].expiresAt > now| >= 5
      ensures victim.Some? ==>
                && victim.value in old(tokens) && !old(tokens)[victim.value].revoked
                && forall j | j in old(tokens) && !old(tokens)[j].revoked ::
                     old(tokens)[victim.value].createdAt <= old(tokens)[j].createdAt
      ensures tokens.Keys == old(tokens).Keys + {id} && tokens[id] == Token(start, now + 604800, false)
      ensures forall i | i in old(tokens) ::
                tokens[i] == if victim == Some(i) then old(tokens)[i].(revoked := true) else old(tokens)[i]
    {
      victim := None;
      ghost var gone: set<nat> := {};
      assert Active(tokens, now) == set i | i in tokens && !tokens[i].revoked && tokens[i].expiresAt > now;
      if |Active(tokens, now)| >= MAX_ACTIVE_SESSIONS {
        ghost var some :| some in Active(tokens, now);
        assert some in Unrevoked(tokens);
        OldestExists(tokens);
        var oldest :| oldest in tokens && Oldest(tokens, oldest);
        victim := Some(oldest);
        gone := {oldest};
        tokens := tokens[oldest := tokens[oldest].(revoked := true)];
      }
      assert tokens == Revoke(old(tokens), gone);
      tokens := tokens[id := NewToken(start, now)];
    }

    /** The rotation inside `refresh_tokens`: the presented row is revoked before
        the cap counts. */
    method RotateRefreshToken(presented: nat, id: nat, start: int, now: int) returns (r: Result<Option<nat>, AuthError>)
      requires id !in tokens
      modifies this
      ensures r.Ok? <==>
                presented in old(tokens) && !old(tokens)[presented].revoked && old(tokens)[presented].expiresAt > now
      ensures r.Err? ==> tokens == old(tokens)
      ensures r.Ok? ==>
                && tokens.Keys == old(tokens).Keys + {id} && tokens[id] == Token(start, now + 604800, false)
                && forall i | i in old(tokens) ::
                     tokens[i] == if i == presented || r.value == Some(i) then old(tokens)[i].(revoked := true)
                                  else old(tokens)[i]
      ensures r.Ok? ==> Creates(Revoke(old(tokens), {presented}), tokens, id, start, now, r.value)
    {
      if presented !in tokens || tokens[presented].revoked || tokens[presented].expiresAt <= now {
        return Err(InvalidRefreshToken);
      }
      tokens := tokens[presented := tokens[presented].(revoked := true)];
      assert tokens == Revoke(old(tokens), {presented});
      var victim := CreateRefreshToken(id, start, now);
      r := Ok(victim);
    }

    /** The refresh half of `logout`; no row is no error. */
    method Logout(presented: nat)
      modifies this
      ensures tokens == Revoke(old(tokens), {presented}) && tokens.Keys == old(tokens).Keys
      ensures forall i | i in tokens :: tokens[i] == old(tokens)[i].(revoked := old(tokens)[i].revoked || i == presented)
    {
      if presented in tokens && !tokens[presented].revoked {
        tokens := tokens[presented := tokens[presented].(revoked := true)];
      }
      assert tokens == Revoke(old(tokens), {presented});
    }

    /** `_revoke_all_user_tokens`. */
    method RevokeAll()
      modifies this
      ensures tokens == Revoke(old(tokens), old(tokens).Keys) && tokens.Keys == old(tokens).Keys
      ensures forall i | i in tokens :: tokens[i] == old(tokens)[i].(revoked := true)
    {
      tokens := map i | i in tokens :: tokens[i].(revoked := true);
    }
  }

  /** From a full cap rotation never needs an eviction. */
  lemma RotationNeedsNoEviction(before: Tokens, after: Tokens, presented: nat, id: nat, start: int, now: int,
                                victim: Option<nat>)
    requires id !in before && presented in Active(before, now) && |Active(before, now)| <= MAX_ACTIVE_SESSIONS
    requires Creates(Revoke(before, {presented}), after, id, start, now, victim)
    ensures victim == None && |Active(after, now)| == |Active(before, now)|
  {
    assert Active(Revoke(before, {presented}), now) == Active(before, now) - {presented};
    ActiveAfterCreation(Revoke(before, {presented}), after, id, start, now, victim);
  }

  // ---- The cap can be exceeded ----

  /** `n` rows created at the moment `now`, behind one that has expired by then. */
  function Crowd(first: int, now: int, n: nat): (tokens: Tokens)
    ensures forall i: nat :: i in tokens <==> i <= n
    ensures forall i | i in tokens :: tokens[i] == NewToken(if i == 0 then first else now, if i == 0 then first else now)
  {
    var start: Tokens := map[0 := NewToken(first, first)];
    assert 0 in start;
    if n == 0 then start else Crowd(first, now, n - 1)[n := NewToken(now, now)]
  }

  lemma {:induction false} CrowdIsActive(first: int, now: int, n: nat)
    requires first + REFRESH_TOKEN_EXPIRE_SECONDS <= now
    ensures |Active(Crowd(first, now, n), now)| == n
  {
    if n == 0 {
      assert Active(Crowd(first, now, 0), now) == {};
    } else {
      CrowdIsActive(first, now, n - 1);
      assert Active(Crowd(first, now, n), now) == Active(Crowd(first, now, n - 1), now) + {n};
    }
  }

  /** The first five logins find room. */
  lemma CrowdGrows(first: int, now: int, n: nat)
    requires first + REFRESH_TOKEN_EXPIRE_SECONDS <= now && n < MAX_ACTIVE_SESSIONS
    ensures Creates(Crowd(first, now, n), Crowd(first, now, n + 1), n + 1, now, now, None)
  {
    CrowdIsActive(first, now, n);
    assert Revoke(Crowd(first, now, n), {}) == Crowd(first, now, n);
  }

  /** The next one evicts the expired row instead of an active one. */
  lemma CapIsExceeded(first: int, now: int)
    requires first + REFRESH_TOKEN_EXPIRE_SECONDS <= now
    ensures var before := Crowd(first, now, MAX_ACTIVE_SESSIONS);
            var after := Revoke(before, {0})[6 := NewToken(now, now)];
            Creates(before, after, 6, now, now, Some(0)) && |Active(after, now)| == MAX_ACTIVE_SESSIONS + 1
  {
    var before := Crowd(first, now, MAX_ACTIVE_SESSIONS);
    CrowdIsActive(first, now, MAX_ACTIVE_SESSIONS);
    assert Oldest(before, 0);
    ActiveAfterCreation(before, Revoke(before, {0})[6 := NewToken(now, now)], 6, now, now, Some(0));
  }
}
