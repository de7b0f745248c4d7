/** Revocations of one user's tokens interleaved with logins, logouts and
    refreshes: every Redis command is one step. */
module RevocationRuns {
  import opened Revocation

  datatype Revoker = Revoker(read: seq<nat>, done: nat, finished: bool)

  datatype State = State(now: nat, lifetime: int, issued: map<nat, nat>, active: set<nat>, denylist: Denylist,
                         revokers: map<nat, Revoker>)

  datatype Action =
    | Tick(us: nat)
    | Issue(jti: nat)
    | Track(jti: nat)
    | Untrack(jti: nat)
    | Deny(jti: nat)
    | Read(r: nat)
    | Set(r: nat)
    | Delete(r: nat)

  /** A failed revocation is one that takes no further step; Redis refuses a time to
      live that is not positive. */
  predicate Enabled(s: State, a: Action) {
    match a
    case Tick(_) => true
    case Issue(jti) => jti !in s.issued
    case Track(jti) => jti in s.issued
    case Untrack(jti) => true
    case Deny(jti) => jti in s.issued && s.lifetime > 0
    case Read(r) => r !in s.revokers
    case Set(r) => s.lifetime > 0 && r in s.revokers && s.revokers[r].done < |s.revokers[r].read|
    case Delete(r) =>
      r in s.revokers && s.revokers[r].read != [] && s.revokers[r].done == |s.revokers[r].read| && !s.revokers[r].finished
  }

  function SetEntry(s: State, jti: nat): State {
    s.(denylist := s.denylist[jti := s.now + s.lifetime * SECOND])
  }

  function Apply(s: State, a: Action): State
    requires Enabled(s, a)
  {
    match a
    case Tick(us) => s.(now := s.now + us)
    case Issue(jti) => s.(issued := s.issued[jti := s.now])
    case Track(jti) => s.(active := s.active + {jti})
    case Untrack(jti) => s.(active := s.active - {jti})
    case Deny(jti) => SetEntry(s, jti)
    case Read(r) => s.(revokers := s.revokers[r := Revoker(Sorted(s.active), 0, s.active == {})])
    case Set(r) =>
      var revoker := s.revokers[r];
      SetEntry(s, revoker.read[revoker.done]).(revokers := s.revokers[r := revoker.(done := revoker.done + 1)])
    case Delete(r) => s.(active := {}, revokers := s.revokers[r := s.revokers[r].(finished := true)])
  }

  /** The token can no longer be used, now or later. */
  predicate Dead(s: State, jti: nat) {
    jti in s.issued && (Denylisted(s.denylist, jti, s.now) || Expired(s.issued[jti], s.lifetime, s.now))
  }

  /** Dead is: an entry that has not expired, or a token that has; both to the second the
      token was issued in. */
  lemma DeadInFull(s: State, jti: nat)
    ensures Dead(s, jti) <==>
            && jti in s.issued
            && (|| (jti in s.denylist && s.now < s.denylist[jti])
                || (s.issued[jti] / 1_000_000 + s.lifetime) * 1_000_000 <= s.now)
  {
  }

  ghost predicate Inv(s: State) {
    && (forall jti | jti in s.issued :: s.issued[jti] <= s.now)
    && (forall jti | jti in s.active :: jti in s.issued)
    && (forall jti | jti in s.denylist ::
          jti in s.issued && s.denylist[jti] >= s.issued[jti] + s.lifetime * SECOND)
    && (forall r | r in s.revokers :: RevokerOk(s, s.revokers[r]))
  }

  ghost predicate RevokerOk(s: State, revoker: Revoker) {
    && revoker.done <= |revoker.read|
    && (revoker.finished ==> revoker.done == |revoker.read|)
    && (forall i | 0 <= i < |revoker.read| :: revoker.read[i] in s.issued)
    && (forall i | 0 <= i < revoker.done :: revoker.read[i] in s.denylist)
  }

  lemma ActionKeeps(s: State, a: Action)
    requires Inv(s) && Enabled(s, a)
    ensures Inv(Apply(s, a))
  {
    var t := Apply(s, a);
    forall r | r in t.revokers ensures RevokerOk(t, t.revokers[r]) {
      if r in s.revokers {
        assert RevokerOk(s, s.revokers[r]);
      }
    }
    if a.Set? {
      assert RevokerOk(s, s.revokers[a.r]);
    }
  }

  ghost predicate Legal(s: State, actions: seq<Action>)
    decreases |actions|
  {
    actions == [] || (Enabled(s, actions[0]) && Legal(Apply(s, actions[0]), actions[1..]))
  }

  ghost function RunAll(s: State, actions: seq<Action>): State
    requires Legal(s, actions)
    decreases |actions|
  {
    if actions == [] then s else RunAll(Apply(s, actions[0]), actions[1..])
  }

  predicate Initial(s: State) {
    s.issued == map[] && s.active == {} && s.denylist == map[] && s.revokers == map[]
  }

  lemma {:induction false} RunKeeps(s: State, actions: seq<Action>)
    requires Inv(s) && Legal(s, actions)
    ensures Inv(RunAll(s, actions))
    decreases |actions|
  {
    if actions != [] {
      ActionKeeps(s, actions[0]);
      RunKeeps(Apply(s, actions[0]), actions[1..]);
    }
  }

  /** In every run, whoever else runs beside it and whenever it stopped: the tokens
      a revocation has come past are dead from then on, and a finished revocation
      has come past every token it read. */
  lemma RevokedTokensStayDead(s: State, actions: seq<Action>, r: nat, i: nat)
    requires Initial(s) && Legal(s, actions) && r in RunAll(s, actions).revokers
    requires var revoker := RunAll(s, actions).revokers[r];
             i < |revoker.read| && (i < revoker.done || revoker.finished)
    ensures Dead(RunAll(s, actions), RunAll(s, actions).revokers[r].read[i])
  {
    RunKeeps(s, actions);
    var t := RunAll(s, actions);
    assert RevokerOk(t, t.revokers[r]);
    var jti := t.revokers[r].read[i];
    EntryOutlivesToken(t.denylist, jti, t.issued[jti], t.lifetime, t.issued[jti], t.now);
  }

  // ---- What a deletion forgets ----

  /** Tracked, usable, and out of reach of the next revocation. */
  predicate Forgotten(s: State, t: State, jti: nat) {
    jti in s.active && jti !in t.active && !Dead(t, jti)
  }

  /** Whether the commands leave the identifier in the active set. */
  predicate LeftTracked(actions: seq<Action>, jti: nat, before: bool)
    decreases |actions|
  {
    if actions == [] then before
    else
      LeftTracked(actions[1..], jti, actions[0] == Track(jti) || (before && actions[0] != Untrack(jti) && !actions[0].Delete?))
  }

  lemma {:induction false} ActiveIffLeftTracked(s: State, actions: seq<Action>, jti: nat)
    requires Legal(s, actions)
    ensures jti in RunAll(s, actions).active <==> LeftTracked(actions, jti, jti in s.active)
    decreases |actions|
  {
    if actions != [] {
      ActiveIffLeftTracked(Apply(s, actions[0]), actions[1..], jti);
    }
  }

  lemma {:induction false} ReadStays(s: State, actions: seq<Action>, r: nat)
    requires Legal(s, actions) && r in s.revokers
    ensures r in RunAll(s, actions).revokers && RunAll(s, actions).revokers[r].read == s.revokers[r].read
    decreases |actions|
  {
    if actions != [] {
      ReadStays(Apply(s, actions[0]), actions[1..], r);
    }
  }

  lemma ReadTokensAreDead(s: State, r: nat, jti: nat)
    requires Inv(s) && Enabled(s, Delete(r)) && jti in s.revokers[r].read
    ensures Dead(s, jti)
  {
    assert RevokerOk(s, s.revokers[r]);
    var i :| 0 <= i < |s.revokers[r].read| && s.revokers[r].read[i] == jti;
    EntryOutlivesToken(s.denylist, jti, s.issued[jti], s.lifetime, s.issued[jti], s.now);
  }

  /** From a revocation's read to its deletion, whatever runs in between: it forgets
      exactly the identifiers the commands in between have left tracked and that have
      neither been denied nor expired by then. */
  lemma DeletionForgets(s: State, r: nat, actions: seq<Action>, jti: nat)
    requires Inv(s) && Enabled(s, Read(r)) && Legal(Apply(s, Read(r)), actions)
    requires Enabled(RunAll(Apply(s, Read(r)), actions), Delete(r))
    ensures var end := RunAll(Apply(s, Read(r)), actions);
            Forgotten(end, Apply(end, Delete(r)), jti) <==> LeftTracked(actions, jti, false) && !Dead(end, jti)
  {
    var first := Apply(s, Read(r));
    var end := RunAll(first, actions);
    ActionKeeps(s, Read(r));
    RunKeeps(first, actions);
    ReadStays(first, actions, r);
    ActiveIffLeftTracked(first, actions, jti);
    if jti in s.active {
      ReadTokensAreDead(end, r, jti);
    }
  }

  /** Tracking is the only way to be left tracked. */
  lemma {:induction false} LeftTrackedWasTracked(actions: seq<Action>, jti: nat)
    requires LeftTracked(actions, jti, false)
    ensures Track(jti) in actions
    decreases |actions|
  {
    if actions[0] != Track(jti) {
      LeftTrackedWasTracked(actions[1..], jti);
    }
  }

  /** So nothing is forgotten exactly if every identifier tracked since the read has
      been taken out again, denied, or has expired. */
  lemma NothingForgottenIff(s: State, r: nat, actions: seq<Action>)
    requires Inv(s) && Enabled(s, Read(r)) && Legal(Apply(s, Read(r)), actions)
    requires Enabled(RunAll(Apply(s, Read(r)), actions), Delete(r))
    ensures var end := RunAll(Apply(s, Read(r)), actions);
            (forall jti :: !Forgotten(end, Apply(end, Delete(r)), jti))
            <==> forall jti | Track(jti) in actions :: !LeftTracked(actions, jti, false) || Dead(end, jti)
  {
    var end := RunAll(Apply(s, Read(r)), actions);
    forall jti
      ensures Forgotten(end, Apply(end, Delete(r)), jti) <==> LeftTracked(actions, jti, false) && !Dead(end, jti)
    {
      DeletionForgets(s, r, actions, jti);
    }
    forall jti | LeftTracked(actions, jti, false) ensures Track(jti) in actions {
      LeftTrackedWasTracked(actions, jti);
    }
  }

  /** No other command but untracking forgets anything. */
  lemma OthersForgetNothing(s: State, a: Action, jti: nat)
    requires Inv(s) && Enabled(s, a) && !a.Delete? && a != Untrack(jti)
    ensures !Forgotten(s, Apply(s, a), jti)
  {
  }

  function LateLogin(): seq<Action> {
    [Issue(1), Track(1), Read(0), Issue(2), Track(2), Set(0), Delete(0)]
  }

  /** One token has been read, nothing set yet. */
  function AfterRead(now: nat, lifetime: int): State {
    State(now, lifetime, map[1 := now], {1}, map[], map[0 := Revoker([1], 0, false)])
  }

  lemma EarlyHalf(now: nat, lifetime: int, rest: seq<Action>)
    requires Legal(AfterRead(now, lifetime), rest)
    ensures var s, actions := State(now, lifetime, map[], {}, map[], map[]), [Issue(1)] + ([Track(1)] + ([Read(0)] + rest));
            Legal(s, actions) && RunAll(s, actions) == RunAll(AfterRead(now, lifetime), rest)
  {
    var s := State(now, lifetime, map[], {}, map[], map[]);
    var s1 := Apply(s, Issue(1));
    var s2 := Apply(s1, Track(1));
    assert s2.active == {1};
    OneIsSorted(1);
    assert Apply(s2, Read(0)) == AfterRead(now, lifetime);
    OneStep(s2, Read(0), rest);
    OneStep(s1, Track(1), [Read(0)] + rest);
    OneStep(s, Issue(1), [Track(1)] + ([Read(0)] + rest));
  }

  lemma LateHalf(now: nat, lifetime: int)
    requires lifetime > 0
    ensures var s, actions := AfterRead(now, lifetime), [Issue(2)] + ([Track(2)] + ([Set(0)] + ([Delete(0)] + [])));
            && Legal(s, actions)
            && var t := RunAll(s, actions);
            && 2 in t.issued && !Dead(t, 2) && t.active == {} && 0 in t.revokers && t.revokers[0].finished
  {
    var s := AfterRead(now, lifetime);
    var s1 := Apply(s, Issue(2));
    var s2 := Apply(s1, Track(2));
    var s3 := Apply(s2, Set(0));
    assert !Dead(Apply(s3, Delete(0)), 2);
    OneStep(s3, Delete(0), []);
    OneStep(s2, Set(0), [Delete(0)] + []);
    OneStep(s1, Track(2), [Set(0)] + ([Delete(0)] + []));
    OneStep(s, Issue(2), [Track(2)] + ([Set(0)] + ([Delete(0)] + [])));
  }

  /** A login between the read and the deletion leaves a usable token that no later
      revocation will find. */
  lemma LateLoginIsForgotten(now: nat, lifetime: int)
    requires lifetime > 0
    ensures var s := State(now, lifetime, map[], {}, map[], map[]);
            && Legal(s, LateLogin())
            && var t := RunAll(s, LateLogin());
            && 2 in t.issued && !Dead(t, 2) && t.active == {} && t.revokers[0].finished
  {
    var late := [Issue(2)] + ([Track(2)] + ([Set(0)] + ([Delete(0)] + [])));
    LateHalf(now, lifetime);
    EarlyHalf(now, lifetime, late);
    assert LateLogin() == [Issue(1)] + ([Track(1)] + ([Read(0)] + late));
  }

  lemma OneIsSorted(x: nat)
    ensures Sorted({x}) == [x]
  {
    assert Least({x}) == x;
    assert {x} - {x} == {};
  }

  lemma OneStep(s: State, a: Action, rest: seq<Action>)
    requires Enabled(s, a) && Legal(Apply(s, a), rest)
    ensures Legal(s, [a] + rest) && RunAll(s, [a] + rest) == RunAll(Apply(s, a), rest)
  {
    assert ([a] + rest)[1..] == rest;
  }

  // ---- A revocation without interference ----

  ghost predicate Reaches(s: State, t: State) {
    exists actions :: Legal(s, actions) && RunAll(s, actions) == t
  }

  lemma Then(s: State, a: Action, t: State)
    requires Enabled(s, a) && Reaches(Apply(s, a), t)
    ensures Reaches(s, t)
  {
    var rest :| Legal(Apply(s, a), rest) && RunAll(Apply(s, a), rest) == t;
    OneStep(s, a, rest);
  }

  lemma Stay(s: State)
    ensures Reaches(s, s)
  {
    var none: seq<Action> := [];
    assert Legal(s, none) && RunAll(s, none) == s;
  }

  /** The entries that are still to be set, then the deletion. */
  lemma {:induction false} SetsAndDelete(s: State, r: nat, denylist: Denylist, n: nat)
    requires s.lifetime > 0 && r in s.revokers && s.revokers[r].read != [] && n <= |s.revokers[r].read|
    requires s.revokers[r] == Revoker(s.revokers[r].read, n, false)
    requires s.denylist == SetAll(denylist, s.revokers[r].read[..n], _ => s.now, s.lifetime)
    ensures var read := s.revokers[r].read;
            Reaches(s, s.(active := {}, denylist := SetAll(denylist, read, _ => s.now, s.lifetime),
                          revokers := s.revokers[r := Revoker(read, |read|, true)]))
    decreases |s.revokers[r].read| - n
  {
    var read := s.revokers[r].read;
    var end := s.(active := {}, denylist := SetAll(denylist, read, _ => s.now, s.lifetime),
                  revokers := s.revokers[r := Revoker(read, |read|, true)]);
    if n == |read| {
      assert read[..n] == read && Apply(s, Delete(r)) == end;
      Stay(end);
      Then(s, Delete(r), end);
    } else {
      var t := Apply(s, Set(r));
      SetAllStep(denylist, read, n, _ => s.now, s.lifetime);
      SetsAndDelete(t, r, denylist, n + 1);
      assert end == t.(active := {}, denylist := SetAll(denylist, read, _ => s.now, s.lifetime),
                       revokers := t.revokers[r := Revoker(read, |read|, true)]);
      Then(s, Set(r), end);
    }
  }

  /** The commands of one revocation with nobody in between do what one call of the
      method does: an entry for each tracked identifier, then the set is cleared. */
  lemma UndisturbedRevocation(s: State, r: nat)
    requires Enabled(s, Read(r)) && s.lifetime > 0 && s.active != {}
    ensures var read := Sorted(s.active);
            Reaches(s, s.(active := {}, denylist := SetAll(s.denylist, read, _ => s.now, s.lifetime),
                          revokers := s.revokers[r := Revoker(read, |read|, true)]))
  {
    var read := Sorted(s.active);
    var first := Apply(s, Read(r));
    SetsAndDelete(first, r, s.denylist, 0);
    var end := s.(active := {}, denylist := SetAll(s.denylist, read, _ => s.now, s.lifetime),
                  revokers := s.revokers[r := Revoker(read, |read|, true)]);
    assert end == first.(active := {}, denylist := SetAll(s.denylist, read, _ => s.now, s.lifetime),
                         revokers := first.revokers[r := Revoker(read, |read|, true)]);
    Then(s, Read(r), end);
  }
}
