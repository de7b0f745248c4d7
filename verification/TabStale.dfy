/** When exactly a refresh sends a rotated cookie although the tabs use Web Locks:
    the jar is stale, that is, the response that would have replaced its cookie has
    been lost and nobody has signed in or out since. And when exactly, with Web Locks
    or without, a cookie is rotated on its way (frontend/src/api/session.ts). */
module TabStale {
  import opened Wrappers
  import opened TabSession

  predicate Brought(s: State) {
    exists t | t in s.tabs :: BringsCookie(s, t)
  }

  /** The jar holds a rotated cookie and no response is on its way that replaces it. */
  predicate Stale(s: State) {
    s.jar.Some? && s.jar.value in s.rotated && !Brought(s)
  }

  /** A cookie on its way to the jar is new to everybody. */
  predicate NewToAll(s: State, cookie: nat) {
    cookie !in s.rotated && cookie !in s.orphans && s.jar != Some(cookie)
  }

  predicate RepliesFresh(s: State) {
    forall t | t in s.tabs && BringsCookie(s, t) :: NewToAll(s, StageOf(s, t).reply.cookie)
  }

  ghost predicate Ok(s: State) {
    s.locks && Inv(s) && RepliesFresh(s)
  }

  /** The step loses the response that would have replaced the jar's cookie: a request
      its tab had given up on is served, or a tab gives up on an answer that has not
      been stored. */
  predicate Strands(s: State, a: Action)
    requires Enabled(s, a)
  {
    match a
    case ServeOrphan(cookie) => s.jar == Some(cookie) && cookie in s.valid && !Brought(s)
    case GiveUp(t, cookieStored) =>
      BringsCookie(s, t) && !cookieStored && s.jar.Some? && s.jar.value in s.rotated
    case _ => false
  }

  /** The step replaces the jar's cookie, or brings a new one on its way. */
  predicate Heals(s: State, a: Action)
    requires Enabled(s, a)
  {
    match a
    case Login(_) => true
    case Logout(_) => true
    case Serve(t, answer) =>
      var cookie := StageOf(s, t).cookie;
      !answer.Down? && cookie.Some? && cookie.value in s.valid
    case _ => false
  }

  // ---- One step ----

  /** Without a new request, answer or loss: who brings a cookie stays the same. */
  lemma SameBrought(s: State, after: State)
    requires after.tabs.Keys >= s.tabs.Keys
    requires forall t :: BringsCookie(after, t) <==> BringsCookie(s, t)
    requires forall t | BringsCookie(s, t) :: Busy(after, t) && StageOf(after, t) == StageOf(s, t)
    ensures Brought(after) <==> Brought(s)
    ensures RepliesFresh(s) && (forall c: nat | NewToAll(s, c) && c < s.next :: NewToAll(after, c)) && IdsOk(s) ==> RepliesFresh(after)
  {
    if RepliesFresh(s) && IdsOk(s) && forall c: nat | NewToAll(s, c) && c < s.next :: NewToAll(after, c) {
      forall t | t in after.tabs && BringsCookie(after, t) ensures NewToAll(after, StageOf(after, t).reply.cookie) {
        assert FlightIds(StageOf(s, t), s.next);
        assert NewToAll(s, StageOf(s, t).reply.cookie);
      }
    }
  }

  lemma OnlySender(s: State, t: nat)
    requires s.locks && Inv(s) && Sending(s, t)
    ensures Brought(s) <==> BringsCookie(s, t)
    ensures forall u | BringsCookie(s, u) :: u == t
  {
  }

  lemma QuietStale(s: State, a: Action)
    requires Ok(s) && Enabled(s, a) && (a.Open? || a.Call? || a.Deliver? || a.Clear? || a.Login? || a.Logout? || a.Revoke?)
    ensures RepliesFresh(Apply(s, a))
    ensures Stale(Apply(s, a)) <==> Strands(s, a) || (Stale(s) && !Heals(s, a))
  {
    var after := Apply(s, a);
    QuietShape(s, a);
    SameBrought(s, after);
    if a.Login? {
      assert after.jar == Some(s.next) && s.next !in s.rotated;
    }
  }

  lemma QuietShape(s: State, a: Action)
    requires Enabled(s, a) && (a.Open? || a.Call? || a.Deliver? || a.Clear? || a.Login? || a.Logout? || a.Revoke?)
    ensures var after := Apply(s, a);
            && after.rotated == s.rotated && after.orphans == s.orphans && after.tabs.Keys >= s.tabs.Keys
            && after.jar == (if a.Login? then Some(s.next) else if a.Logout? then None else s.jar)
            && (forall t :: BringsCookie(after, t) <==> BringsCookie(s, t))
            && (forall t | BringsCookie(s, t) :: Busy(after, t) && StageOf(after, t) == StageOf(s, t))
  {
  }

  lemma GrantStale(s: State, t: nat)
    requires Ok(s) && Enabled(s, Grant(t))
    ensures RepliesFresh(Apply(s, Grant(t)))
    ensures Stale(Apply(s, Grant(t))) <==> Stale(s)
  {
    var after := Apply(s, Grant(t));
    GrantShape(s, t);
    assert forall u :: !BringsCookie(s, u);
    assert forall u :: !BringsCookie(after, u);
  }

  lemma ServeStale(s: State, t: nat, answer: Answer)
    requires Ok(s) && Enabled(s, Serve(t, answer))
    ensures RepliesFresh(Apply(s, Serve(t, answer)))
    ensures Stale(Apply(s, Serve(t, answer))) <==> Stale(s) && !Heals(s, Serve(t, answer))
  {
    var after := Apply(s, Serve(t, answer));
    OnlySender(s, t);
    ServeShape(s, t, answer);
    ServeReply(s, t, answer);
    assert forall u | BringsCookie(after, u) :: u == t;
    assert Brought(after) <==> BringsCookie(after, t);
  }

  lemma ServeReply(s: State, t: nat, answer: Answer)
    requires IdsOk(s) && Enabled(s, Serve(t, answer))
    ensures var after := Apply(s, Serve(t, answer));
            && (BringsCookie(after, t) <==> Heals(s, Serve(t, answer)))
            && (BringsCookie(after, t) ==> NewToAll(after, StageOf(after, t).reply.cookie))
            && (!BringsCookie(after, t) ==> after.rotated == s.rotated)
  {
    assert FlightIds(StageOf(s, t), s.next);
  }

  lemma OrphanStale(s: State, cookie: nat)
    requires Ok(s) && Enabled(s, ServeOrphan(cookie))
    ensures RepliesFresh(Apply(s, ServeOrphan(cookie)))
    ensures Stale(Apply(s, ServeOrphan(cookie))) <==> Strands(s, ServeOrphan(cookie)) || Stale(s)
  {
    var after := Apply(s, ServeOrphan(cookie));
    assert after.tabs == s.tabs;
    SameBrought(s, after);
  }

  lemma EndStale(s: State, a: Action)
    requires Ok(s) && Enabled(s, a) && (a.Receive? || a.GiveUp?)
    ensures RepliesFresh(Apply(s, a))
    ensures Stale(Apply(s, a)) <==> Strands(s, a) || Stale(s)
  {
    var after := Apply(s, a);
    OnlySender(s, a.t);
    EndShape(s, a);
    forall u ensures !BringsCookie(after, u) {
      assert u != a.t && u in after.tabs ==> (BringsCookie(after, u) <==> BringsCookie(s, u));
    }
    assert BringsCookie(s, a.t) ==> NewToAll(s, StageOf(s, a.t).reply.cookie);
  }

  lemma EndShape(s: State, a: Action)
    requires Enabled(s, a) && (a.Receive? || a.GiveUp?)
    ensures var after := Apply(s, a);
            && after.rotated == s.rotated && !Busy(after, a.t)
            && (forall u | u in after.tabs && u != a.t :: u in s.tabs && after.tabs[u] == s.tabs[u])
            && after.jar == if BringsCookie(s, a.t) && (a.GiveUp? ==> a.cookieStored)
                            then Some(StageOf(s, a.t).reply.cookie) else s.jar
  {
    if a.Receive? {
      AcceptShape(s, a.t);
    }
  }

  /** One step: afterwards the jar is stale exactly if the step has lost the response
      that would have replaced its cookie, or it was stale and has not been replaced. */
  lemma StepStaleIff(s: State, a: Action)
    requires Ok(s) && Enabled(s, a)
    ensures Ok(Apply(s, a))
    ensures Stale(Apply(s, a)) <==> Strands(s, a) || (Stale(s) && !Heals(s, a))
  {
    ActionKeeps(s, a);
    LocksStay(s, a);
    match a
    case Grant(t) => GrantStale(s, t);
    case Serve(t, answer) => ServeStale(s, t, answer);
    case ServeOrphan(cookie) => OrphanStale(s, cookie);
    case Receive(_) => EndStale(s, a);
    case GiveUp(_, _) => EndStale(s, a);
    case _ => QuietStale(s, a);
  }

  lemma LocksStay(s: State, a: Action)
    requires Enabled(s, a)
    ensures Apply(s, a).locks == s.locks
  {
    if a.Receive? {
      AcceptShape(s, a.t);
    }
  }

  // ---- Runs ----

  /** A response has been lost and nothing has replaced the cookie since. */
  ghost predicate LeftStale(s: State, actions: seq<Action>, before: bool)
    requires Legal(s, actions)
    decreases |actions|
  {
    if actions == [] then before
    else
      LeftStale(Apply(s, actions[0]), actions[1..], Strands(s, actions[0]) || (before && !Heals(s, actions[0])))
  }

  lemma {:induction false} RunStaleIff(s: State, actions: seq<Action>)
    requires Ok(s) && Legal(s, actions)
    ensures Ok(RunAll(s, actions))
    ensures Stale(RunAll(s, actions)) <==> LeftStale(s, actions, Stale(s))
    decreases |actions|
  {
    if actions != [] {
      StepStaleIff(s, actions[0]);
      RunStaleIff(Apply(s, actions[0]), actions[1..]);
    }
  }

  /** In every run of tabs that use Web Locks: a tab that is granted the lock sends a
      rotated cookie exactly if a response has been lost and the cookie has not been
      replaced since, and no bearer arrived while the tab waited. */
  lemma SendsRotatedIff(actions: seq<Action>, t: nat)
    requires Legal(Initial(true), actions) && Enabled(RunAll(Initial(true), actions), Grant(t))
    ensures var s := RunAll(Initial(true), actions);
            var after := Apply(s, Grant(t));
            (Sending(after, t) && StageOf(after, t).cookie.Some? && StageOf(after, t).cookie.value in after.rotated)
            <==> LeftStale(Initial(true), actions, false) && s.tabs[t].revision == StageOf(s, t).revisionAtStart
  {
    var s := RunAll(Initial(true), actions);
    RunStaleIff(Initial(true), actions);
    GrantShape(s, t);
    assert forall u :: !BringsCookie(s, u);
  }

  // ---- Under way, with and without locks ----

  /** The step rotates the cookie that another request carries: a request with the same
      valid cookie is served first, one under way or one its tab has given up on. */
  predicate Overtakes(s: State, a: Action, t: nat, cookie: nat)
    requires Enabled(s, a)
  {
    && cookie in s.valid
    && (|| a == ServeOrphan(cookie)
        || (a.Serve? && a.t != t && !a.answer.Down? && StageOf(s, a.t).cookie == Some(cookie)))
  }

  predicate Carries(s: State, t: nat, cookie: nat) {
    Busy(s, t) && StageOf(s, t) == Sent(Some(cookie))
  }

  lemma OvertakenIff(s: State, a: Action, t: nat, cookie: nat)
    requires Enabled(s, a) && Carries(s, t, cookie) && Carries(Apply(s, a), t, cookie)
    ensures cookie in Apply(s, a).rotated <==> cookie in s.rotated || Overtakes(s, a, t, cookie)
  {
    if a.Receive? {
      AcceptShape(s, a.t);
    }
  }

  /** The steps that end the request of the tab. */
  predicate EndsRequest(a: Action, t: nat) {
    (a.Serve? || a.GiveUp?) && a.t == t
  }

  lemma CarriesOn(s: State, a: Action, t: nat, cookie: nat)
    requires Enabled(s, a) && Carries(s, t, cookie) && !EndsRequest(a, t)
    ensures Carries(Apply(s, a), t, cookie)
  {
    if a.Receive? {
      AcceptShape(s, a.t);
    }
  }

  predicate Overtaken(s: State, actions: seq<Action>, t: nat, cookie: nat)
    requires Legal(s, actions)
    decreases |actions|
  {
    actions != [] && (Overtakes(s, actions[0], t, cookie) || Overtaken(Apply(s, actions[0]), actions[1..], t, cookie))
  }

  lemma {:induction false} RunOvertakenIff(s: State, actions: seq<Action>, t: nat, cookie: nat)
    requires Legal(s, actions) && Carries(s, t, cookie) && forall a | a in actions :: !EndsRequest(a, t)
    ensures Carries(RunAll(s, actions), t, cookie)
    ensures cookie in RunAll(s, actions).rotated <==> cookie in s.rotated || Overtaken(s, actions, t, cookie)
    decreases |actions|
  {
    if actions != [] {
      var a := actions[0];
      assert a in actions && forall b | b in actions[1..] :: b in actions;
      CarriesOn(s, a, t, cookie);
      OvertakenIff(s, a, t, cookie);
      RunOvertakenIff(Apply(s, a), actions[1..], t, cookie);
    }
  }

  /** From the moment a request is sent, with Web Locks or without, over every run: it
      presents a rotated cookie exactly if the jar held one when it was sent, or another
      request with the same cookie has been served in between. */
  lemma PresentsRotatedIff(s: State, send: Action, t: nat, cookie: nat, actions: seq<Action>)
    requires Enabled(s, send) && (send.Call? || send.Grant?) && !Sending(s, t) && Carries(Apply(s, send), t, cookie)
    requires Legal(Apply(s, send), actions) && forall a | a in actions :: !EndsRequest(a, t)
    ensures s.jar == Some(cookie) && Carries(RunAll(Apply(s, send), actions), t, cookie)
    ensures cookie in RunAll(Apply(s, send), actions).rotated
            <==> cookie in s.rotated || Overtaken(Apply(s, send), actions, t, cookie)
  {
    RunOvertakenIff(Apply(s, send), actions, t, cookie);
  }
}
