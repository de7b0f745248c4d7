/** Refreshing the session from several tabs (frontend/src/api/session.ts). The
    tabs share the refresh cookie; the backend rotates it with every refresh. A
    tab's promise, the Web Lock and the delayed broadcasts are the steps. */
module TabSession {
  import opened Wrappers

  datatype Message = TokenMessage(bearer: nat) | ClearedMessage

  /** Garbled: a success whose body is no token response. */
  datatype Reply = Issued(cookie: nat, bearer: nat) | Garbled(cookie: nat) | Rejected | Unavailable

  datatype Stage = Waiting(revisionAtStart: nat) | Sent(cookie: Option<nat>) | Answered(reply: Reply)

  datatype Flight = Flight(id: nat, stage: Stage)

  /** The variables of one tab. */
  datatype Tab = Tab(bearer: Option<nat>, revision: nat, inFlight: Option<Flight>)

  /** `posted`: broadcasts, which may be delivered late, in any order and again.
      `orphans`: cookies of requests whose tab has given up, which the server may
      still serve. `lost`: a tab has given up on a request it had sent. */
  datatype State = State(locks: bool, tabs: map<nat, Tab>, posted: set<Message>, jar: Option<nat>,
                         valid: set<nat>, rotated: set<nat>, orphans: set<nat>, next: nat, lost: bool,
                         callers: map<nat, nat>, settled: map<nat, Option<nat>>)

  datatype Answer = Normal | BadBody | Down

  datatype Action =
    | Open(t: nat)
    | Call(t: nat, caller: nat)
    | Grant(t: nat)
    | Serve(t: nat, answer: Answer)
    | ServeOrphan(cookie: nat)
    | Receive(t: nat)
    | GiveUp(t: nat, cookieStored: bool)
    | Deliver(t: nat, message: Message)
    | Clear(t: nat)
    | Login(t: nat)
    | Logout(t: nat)
    | Revoke(cookie: nat)

  predicate Busy(s: State, t: nat) {
    t in s.tabs && s.tabs[t].inFlight.Some?
  }

  function StageOf(s: State, t: nat): Stage
    requires Busy(s, t)
  {
    s.tabs[t].inFlight.value.stage
  }

  /** The tab has a request of its own under way. */
  predicate Sending(s: State, t: nat) {
    Busy(s, t) && !StageOf(s, t).Waiting?
  }

  predicate Enabled(s: State, a: Action) {
    match a
    case Open(t) => t !in s.tabs
    case Call(t, caller) => t in s.tabs && caller !in s.callers
    case Grant(t) => Busy(s, t) && StageOf(s, t).Waiting? && forall u | u in s.tabs :: !Sending(s, u)
    case Serve(t, _) => Busy(s, t) && StageOf(s, t).Sent?
    case ServeOrphan(cookie) => cookie in s.orphans
    case Receive(t) => Busy(s, t) && StageOf(s, t).Answered?
    case GiveUp(t, _) => Sending(s, t)
    case Deliver(t, message) => t in s.tabs && message in s.posted
    case Clear(t) => t in s.tabs
    case Login(t) => t in s.tabs
    case Logout(t) => t in s.tabs
    case Revoke(cookie) => true
  }

  function Adopt(tab: Tab, bearer: Option<nat>): Tab {
    tab.(bearer := bearer, revision := tab.revision + 1)
  }

  function Put(s: State, t: nat, tab: Tab): State {
    s.(tabs := s.tabs[t := tab])
  }

  /** The promise of the tab settles and the lock is released. */
  function Settle(s: State, t: nat, tab: Tab, value: Option<nat>): State
    requires tab.inFlight.Some?
  {
    s.(tabs := s.tabs[t := tab.(inFlight := None)], settled := s.settled[tab.inFlight.value.id := value])
  }

  /** What the backend does with a presented cookie. */
  function Rotate(s: State, cookie: nat): State {
    if cookie in s.valid then
      s.(valid := s.valid - {cookie} + {s.next}, rotated := s.rotated + {cookie}, next := s.next + 2)
    else s
  }

  function ReplyTo(s: State, cookie: Option<nat>, answer: Answer): Reply {
    if answer.Down? then Unavailable
    else if cookie.None? || cookie.value !in s.valid then Rejected
    else if answer.Normal? then Issued(s.next, s.next + 1)
    else Garbled(s.next)
  }

  /** `startRefresh`: with locks the request waits, without them it is sent. */
  function Start(s: State, t: nat): State
    requires t in s.tabs
  {
    var stage := if s.locks then Waiting(s.tabs[t].revision) else Sent(s.jar);
    Put(s, t, s.tabs[t].(inFlight := Some(Flight(s.next, stage)))).(next := s.next + 1)
  }

  function Accept(s: State, t: nat): State
    requires Busy(s, t) && StageOf(s, t).Answered?
  {
    var tab := s.tabs[t];
    match tab.inFlight.value.stage.reply
    case Issued(cookie, bearer) =>
      Settle(s, t, Adopt(tab, Some(bearer)), Some(bearer)).(jar := Some(cookie), posted := s.posted + {TokenMessage(bearer)})
    case Garbled(cookie) => Settle(s, t, tab, None).(jar := Some(cookie))
    case Rejected => Settle(s, t, Adopt(tab, None), None).(posted := s.posted + {ClearedMessage})
    case Unavailable => Settle(s, t, tab, None)
  }

  function Abandon(s: State, t: nat, cookieStored: bool): State
    requires Sending(s, t)
  {
    var tab := s.tabs[t];
    var ended := Settle(s, t, tab, None);
    var stage := tab.inFlight.value.stage;
    if stage.Sent? then
      ended.(lost := true, orphans := s.orphans + if stage.cookie.Some? then {stage.cookie.value} else {})
    else if (stage.reply.Issued? || stage.reply.Garbled?) && cookieStored then ended.(jar := Some(stage.reply.cookie))
    else ended.(lost := s.lost || stage.reply.Issued? || stage.reply.Garbled?)
  }

  function Apply(s: State, a: Action): State
    requires Enabled(s, a)
  {
    match a
    case Open(t) => Put(s, t, Tab(None, 0, None))
    case Call(t, caller) =>
      var started := if s.tabs[t].inFlight.Some? then s else Start(s, t);
      started.(callers := s.callers[caller := started.tabs[t].inFlight.value.id])
    case Grant(t) =>
      var tab := s.tabs[t];
      if tab.revision != tab.inFlight.value.stage.revisionAtStart then Settle(s, t, tab, tab.bearer)
      else Put(s, t, tab.(inFlight := Some(tab.inFlight.value.(stage := Sent(s.jar)))))
    case Serve(t, answer) =>
      var tab := s.tabs[t];
      var cookie := tab.inFlight.value.stage.cookie;
      var served := if answer.Down? || cookie.None? then s else Rotate(s, cookie.value);
      Put(served, t, tab.(inFlight := Some(tab.inFlight.value.(stage := Answered(ReplyTo(s, cookie, answer))))))
    case ServeOrphan(cookie) => Rotate(s, cookie).(orphans := s.orphans - {cookie})
    case Receive(t) => Accept(s, t)
    case GiveUp(t, cookieStored) => Abandon(s, t, cookieStored)
    case Deliver(t, message) =>
      Put(s, t, Adopt(s.tabs[t], if message.TokenMessage? then Some(message.bearer) else None))
    case Clear(t) => Put(s, t, Adopt(s.tabs[t], None)).(posted := s.posted + {ClearedMessage})
    case Login(t) =>
      Put(s, t, Adopt(s.tabs[t], Some(s.next + 1))).(posted := s.posted + {TokenMessage(s.next + 1)},
        jar := Some(s.next), valid := s.valid + {s.next}, next := s.next + 2)
    case Logout(t) =>
      Put(s, t, Adopt(s.tabs[t], None)).(posted := s.posted + {ClearedMessage}, jar := None,
        valid := s.valid - if s.jar.Some? then {s.jar.value} else {})
    case Revoke(cookie) => s.(valid := s.valid - {cookie})
  }

  // ---- Invariants ----

  ghost predicate OneSender(s: State) {
    forall t, u | Sending(s, t) && Sending(s, u) :: t == u
  }

  ghost predicate IdsOk(s: State) {
    && (forall c | c in s.valid || c in s.rotated || c in s.orphans :: c < s.next)
    && s.valid !! s.rotated
    && (s.jar.Some? ==> s.jar.value < s.next)
    && forall t | t in s.tabs && s.tabs[t].inFlight.Some? ::
         s.tabs[t].inFlight.value.id < s.next && FlightIds(s.tabs[t].inFlight.value.stage, s.next)
  }

  predicate FlightIds(stage: Stage, next: nat) {
    match stage
    case Waiting(_) => true
    case Sent(cookie) => cookie.Some? ==> cookie.value < next
    case Answered(reply) => reply.Issued? || reply.Garbled? ==> reply.cookie < next
  }

  /** The cookie a request carries or a response brings has not been rotated. */
  predicate FlightFresh(stage: Stage, rotated: set<nat>) {
    match stage
    case Waiting(_) => true
    case Sent(cookie) => cookie.Some? ==> cookie.value !in rotated
    case Answered(reply) => reply.Issued? || reply.Garbled? ==> reply.cookie !in rotated
  }

  predicate BringsCookie(s: State, t: nat) {
    Sending(s, t) && s.tabs[t].inFlight.value.stage.Answered? &&
    var reply := s.tabs[t].inFlight.value.stage.reply; reply.Issued? || reply.Garbled?
  }

  /** A rotated cookie lies in the jar only while the response that replaces it is
      on its way. */
  ghost predicate CookiesFresh(s: State) {
    && s.orphans == {}
    && (forall t | t in s.tabs && s.tabs[t].inFlight.Some? ::
          FlightFresh(s.tabs[t].inFlight.value.stage, s.rotated))
    && (s.jar.Some? && s.jar.value in s.rotated ==> exists t | t in s.tabs :: BringsCookie(s, t))
  }

  ghost predicate Inv(s: State) {
    IdsOk(s) && (s.locks ==> OneSender(s)) && (s.locks && !s.lost ==> CookiesFresh(s))
  }

  // ---- Every step keeps them ----

  lemma CallKeeps(s: State, t: nat, caller: nat)
    requires Inv(s) && Enabled(s, Call(t, caller))
    ensures Inv(Apply(s, Call(t, caller)))
  {
    var after := Apply(s, Call(t, caller));
    if s.locks {
      assert forall u :: Sending(after, u) ==> Sending(s, u);
      if !s.lost && s.jar.Some? && s.jar.value in s.rotated {
        var u :| u in s.tabs && BringsCookie(s, u);
        assert BringsCookie(after, u);
      }
    }
  }

  lemma GrantShape(s: State, t: nat)
    requires Enabled(s, Grant(t))
    ensures var after := Apply(s, Grant(t));
            && after.(tabs := s.tabs, settled := s.settled) == s && after.tabs.Keys == s.tabs.Keys
            && (forall u | u in s.tabs && u != t :: after.tabs[u] == s.tabs[u])
            && (Busy(after, t) ==> StageOf(after, t) == Sent(s.jar)
                                   && after.tabs[t].inFlight.value.id == s.tabs[t].inFlight.value.id)
  {
  }

  /** A tab has been granted the lock that no other tab uses. */
  lemma GrantedKeeps(s: State, t: nat, after: State)
    requires Inv(s) && Enabled(s, Grant(t)) && after.(tabs := s.tabs, settled := s.settled) == s
    requires after.tabs.Keys == s.tabs.Keys && forall u | u in s.tabs && u != t :: after.tabs[u] == s.tabs[u]
    requires Busy(after, t) ==>
               StageOf(after, t) == Sent(s.jar) && after.tabs[t].inFlight.value.id == s.tabs[t].inFlight.value.id
    ensures Inv(after)
  {
    assert forall u | Sending(after, u) :: u == t;
    assert forall u | u in s.tabs :: !BringsCookie(s, u);
  }

  lemma GrantKeeps(s: State, t: nat)
    requires Inv(s) && Enabled(s, Grant(t))
    ensures Inv(Apply(s, Grant(t)))
  {
    GrantShape(s, t);
    GrantedKeeps(s, t, Apply(s, Grant(t)));
  }

  lemma ServeShape(s: State, t: nat, answer: Answer)
    requires Enabled(s, Serve(t, answer))
    ensures var after := Apply(s, Serve(t, answer));
            && (forall u :: Busy(after, u) <==> Busy(s, u))
            && (forall u | u in s.tabs && u != t :: after.tabs[u] == s.tabs[u])
            && after.jar == s.jar && after.orphans == s.orphans && after.lost == s.lost && after.locks == s.locks
  {
  }

  lemma ServeKeepsIds(s: State, t: nat, answer: Answer)
    requires IdsOk(s) && Enabled(s, Serve(t, answer))
    ensures IdsOk(Apply(s, Serve(t, answer)))
  {
    ServeShape(s, t, answer);
    var after := Apply(s, Serve(t, answer));
    assert FlightIds(StageOf(s, t), s.next);
    forall u | Busy(after, u) && u != t ensures FlightIds(StageOf(after, u), after.next) {
      assert FlightIds(StageOf(s, u), s.next);
    }
  }

  lemma ServeKeepsCookies(s: State, t: nat, answer: Answer)
    requires IdsOk(s) && s.locks && OneSender(s) && CookiesFresh(s) && Enabled(s, Serve(t, answer))
    ensures CookiesFresh(Apply(s, Serve(t, answer)))
  {
    var after := Apply(s, Serve(t, answer));
    ServeShape(s, t, answer);
    assert Sending(s, t);
    forall u | u in after.tabs && after.tabs[u].inFlight.Some?
      ensures FlightFresh(StageOf(after, u), after.rotated)
    {
      assert FlightFresh(StageOf(s, u), s.rotated);
      assert u != t ==> !Sending(s, u);
    }
    if after.jar.Some? && after.jar.value in after.rotated {
      JarAfterServe(s, t, answer);
    }
  }

  lemma ServeKeeps(s: State, t: nat, answer: Answer)
    requires Inv(s) && Enabled(s, Serve(t, answer))
    ensures Inv(Apply(s, Serve(t, answer)))
  {
    var after := Apply(s, Serve(t, answer));
    ServeShape(s, t, answer);
    ServeKeepsIds(s, t, answer);
    assert forall u | Sending(after, u) :: Sending(s, u);
    if s.locks && !s.lost {
      ServeKeepsCookies(s, t, answer);
    }
  }

  lemma JarAfterServe(s: State, t: nat, answer: Answer)
    requires s.locks && OneSender(s) && CookiesFresh(s) && Enabled(s, Serve(t, answer))
    requires s.jar.Some? && s.jar.value in Apply(s, Serve(t, answer)).rotated
    ensures BringsCookie(Apply(s, Serve(t, answer)), t)
  {
    assert Sending(s, t);
    assert !BringsCookie(s, t);
    assert forall u | u in s.tabs && BringsCookie(s, u) :: u == t;
  }

  /** The flight of one tab has ended. */
  lemma EndedKeeps(s: State, t: nat, after: State)
    requires Inv(s) && Sending(s, t) && after.locks == s.locks && after.next == s.next
    requires after.valid == s.valid && after.rotated == s.rotated
    requires after.tabs.Keys == s.tabs.Keys && !Busy(after, t) && forall u | u in s.tabs && u != t :: after.tabs[u] == s.tabs[u]
    requires after.orphans == s.orphans || (after.lost && forall c | c in after.orphans :: c < s.next)
    requires after.lost || (after.lost == s.lost && (BringsCookie(s, t) ==> after.jar == Some(StageOf(s, t).reply.cookie)))
    requires after.jar == s.jar || (BringsCookie(s, t) && after.jar == Some(StageOf(s, t).reply.cookie))
    ensures Inv(after)
  {
    assert forall u | Busy(after, u) :: u != t && Busy(s, u);
    assert forall u | Sending(after, u) :: Sending(s, u);
    assert FlightIds(StageOf(s, t), s.next);
    if s.locks && !after.lost {
      assert FlightFresh(StageOf(s, t), s.rotated);
      assert forall u | u in s.tabs && BringsCookie(s, u) :: u == t;
      forall u | u in after.tabs && after.tabs[u].inFlight.Some?
        ensures FlightFresh(StageOf(after, u), after.rotated)
      {
        assert FlightFresh(StageOf(s, u), s.rotated);
      }
    }
  }

  lemma AcceptShape(s: State, t: nat)
    requires Enabled(s, Receive(t))
    ensures var after := Accept(s, t);
            && after.locks == s.locks && after.next == s.next && after.valid == s.valid && after.rotated == s.rotated
            && after.orphans == s.orphans && after.lost == s.lost && after.callers == s.callers
            && after.tabs.Keys == s.tabs.Keys && !Busy(after, t)
            && (forall u | u in s.tabs && u != t :: after.tabs[u] == s.tabs[u])
            && after.jar == (if BringsCookie(s, t) then Some(StageOf(s, t).reply.cookie) else s.jar)
  {
    match StageOf(s, t).reply
    case Issued(_, _) =>
    case Garbled(_) =>
    case Rejected =>
    case Unavailable =>
  }

  lemma ReceiveKeeps(s: State, t: nat)
    requires Inv(s) && Enabled(s, Receive(t))
    ensures Inv(Apply(s, Receive(t)))
  {
    AcceptShape(s, t);
    ReceivedKeeps(s, t, Accept(s, t));
  }

  lemma ReceivedKeeps(s: State, t: nat, after: State)
    requires Inv(s) && Sending(s, t) && after.locks == s.locks && after.next == s.next
    requires after.valid == s.valid && after.rotated == s.rotated && after.orphans == s.orphans && after.lost == s.lost
    requires after.tabs.Keys == s.tabs.Keys && !Busy(after, t) && forall u | u in s.tabs && u != t :: after.tabs[u] == s.tabs[u]
    requires after.jar == if BringsCookie(s, t) then Some(StageOf(s, t).reply.cookie) else s.jar
    ensures Inv(after)
  {
    EndedKeeps(s, t, after);
  }

  lemma GiveUpKeeps(s: State, t: nat, cookieStored: bool)
    requires Inv(s) && Enabled(s, GiveUp(t, cookieStored))
    ensures Inv(Apply(s, GiveUp(t, cookieStored)))
  {
    assert FlightIds(StageOf(s, t), s.next);
    EndedKeeps(s, t, Apply(s, GiveUp(t, cookieStored)));
  }

  /** A step that starts, ends and answers no request. */
  lemma LocalKeeps(s: State, t: nat, tab: Tab, after: State)
    requires Inv(s) && after.locks == s.locks && after.lost == s.lost && after.orphans == s.orphans
    requires after.tabs == s.tabs[t := tab] && after.rotated == s.rotated && s.next <= after.next
    requires tab.inFlight == if t in s.tabs then s.tabs[t].inFlight else None
    requires after.valid <= s.valid + {s.next} && (after.valid != s.valid ==> s.next in after.valid ==> s.next < after.next)
    requires s.next in after.valid ==> s.next < after.next
    requires after.jar == s.jar || after.jar == None || (after.jar == Some(s.next) && s.next < after.next)
    ensures Inv(after)
  {
    assert forall u :: Busy(after, u) <==> Busy(s, u);
    assert forall u | Busy(s, u) :: StageOf(after, u) == StageOf(s, u);
    assert forall u :: Sending(after, u) <==> Sending(s, u);
    assert forall u :: BringsCookie(after, u) <==> BringsCookie(s, u);
    if s.locks && !s.lost {
      forall u | u in after.tabs && after.tabs[u].inFlight.Some?
        ensures FlightFresh(StageOf(after, u), after.rotated)
      {
        assert FlightFresh(StageOf(s, u), s.rotated);
      }
    }
  }

  lemma QuietKeeps(s: State, a: Action)
    requires Inv(s) && Enabled(s, a) && (a.Open? || a.Deliver? || a.Clear? || a.Login? || a.Logout?)
    ensures Inv(Apply(s, a))
  {
    LocalKeeps(s, a.t, Apply(s, a).tabs[a.t], Apply(s, a));
  }

  lemma RevokeKeeps(s: State, cookie: nat)
    requires Inv(s)
    ensures Inv(Apply(s, Revoke(cookie)))
  {
    var after := Apply(s, Revoke(cookie));
    assert forall u :: Sending(after, u) <==> Sending(s, u);
    assert forall u :: BringsCookie(after, u) <==> BringsCookie(s, u);
  }

  lemma OrphanKeeps(s: State, cookie: nat)
    requires Inv(s) && Enabled(s, ServeOrphan(cookie))
    ensures Inv(Apply(s, ServeOrphan(cookie)))
  {
    var after := Apply(s, ServeOrphan(cookie));
    assert forall u :: Sending(after, u) <==> Sending(s, u);
  }

  lemma ActionKeeps(s: State, a: Action)
    requires Inv(s) && Enabled(s, a)
    ensures Inv(Apply(s, a))
  {
    match a
    case Call(t, caller) => CallKeeps(s, t, caller);
    case Grant(t) => GrantKeeps(s, t);
    case Serve(t, answer) => ServeKeeps(s, t, answer);
    case ServeOrphan(cookie) => OrphanKeeps(s, cookie);
    case Receive(t) => ReceiveKeeps(s, t);
    case GiveUp(t, cookieStored) => GiveUpKeeps(s, t, cookieStored);
    case Revoke(cookie) => RevokeKeeps(s, cookie);
    case _ => QuietKeeps(s, a);
  }

  // ---- Runs ----

  ghost predicate Legal(s: State, actions: seq<Action>)
    decreases |actions|
  {
    actions == [] || (Enabled(s, actions[0]) && Legal(Apply(s, actions[0]), actions[1..]))
  }

  ghost function RunAll(s: State, actions: seq<Action>): State
    requires Legal(s, actions)
    decreases |actions|
  {
    if actions == [] then s else RunAll(Apply(s, actions[0]), actions[1..])
  }

  function Initial(locks: bool): State {
    State(locks, map[], {}, None, {}, {}, {}, 0, false, map[], map[])
  }

  lemma {:induction false} RunKeeps(s: State, actions: seq<Action>)
    requires Inv(s) && Legal(s, actions)
    ensures Inv(RunAll(s, actions)) && RunAll(s, actions).locks == s.locks
    decreases |actions|
  {
    if actions != [] {
      ActionKeeps(s, actions[0]);
      RunKeeps(Apply(s, actions[0]), actions[1..]);
    }
  }

  /** With Web Locks at most one refresh is under way across all tabs, in every run. */
  lemma OneRefreshAtATime(actions: seq<Action>, t: nat, u: nat)
    requires Legal(Initial(true), actions)
    requires Sending(RunAll(Initial(true), actions), t) && Sending(RunAll(Initial(true), actions), u)
    ensures t == u
  {
    RunKeeps(Initial(true), actions);
  }

  /** And no refresh that reaches the backend presents a cookie that was already
      rotated, unless a tab has given up on a request it had sent. */
  lemma NoRotatedCookieIsPresented(actions: seq<Action>, t: nat)
    requires Legal(Initial(true), actions)
    requires var s := RunAll(Initial(true), actions); Busy(s, t) && StageOf(s, t).Sent? && StageOf(s, t).cookie.Some?
    ensures var s := RunAll(Initial(true), actions); s.lost || StageOf(s, t).cookie.value !in s.rotated
  {
    RunKeeps(Initial(true), actions);
    var s := RunAll(Initial(true), actions);
    assert !s.lost ==> FlightFresh(StageOf(s, t), s.rotated);
  }

  // ---- One promise per tab ----

  /** The steps that settle the promise of the tab. */
  predicate Settles(a: Action, t: nat) {
    (a.Grant? || a.Receive? || a.GiveUp?) && a.t == t
  }

  lemma {:induction false} PromiseStays(s: State, actions: seq<Action>, t: nat)
    requires Legal(s, actions) && Busy(s, t) && forall a | a in actions :: !Settles(a, t)
    ensures Busy(RunAll(s, actions), t) && RunAll(s, actions).tabs[t].inFlight.value.id == s.tabs[t].inFlight.value.id
    decreases |actions|
  {
    if actions != [] {
      assert actions[0] in actions;
      PromiseStaysStep(s, actions[0], t);
      PromiseStays(Apply(s, actions[0]), actions[1..], t);
    }
  }

  lemma PromiseStaysStep(s: State, a: Action, t: nat)
    requires Enabled(s, a) && Busy(s, t) && !Settles(a, t)
    ensures Busy(Apply(s, a), t) && Apply(s, a).tabs[t].inFlight.value.id == s.tabs[t].inFlight.value.id
  {
    if !a.Call? {
      if SettlesWith(s, a).Some? {
        EndingShape(s, a);
      } else {
        OtherShape(s, a);
      }
      assert IdOf(Apply(s, a), t) == IdOf(s, t);
    }
  }

  /** All who call in a tab before its refresh settles share one promise. */
  lemma CallersShareOnePromise(s: State, t: nat, first: nat, actions: seq<Action>, second: nat)
    requires Enabled(s, Call(t, first)) && Legal(Apply(s, Call(t, first)), actions)
    requires forall a | a in actions :: !Settles(a, t)
    requires Enabled(RunAll(Apply(s, Call(t, first)), actions), Call(t, second))
    ensures var before := Apply(s, Call(t, first));
            var after := Apply(RunAll(before, actions), Call(t, second));
            after.callers[second] == before.callers[first]
  {
    PromiseStays(Apply(s, Call(t, first)), actions, t);
  }

  function IdOf(s: State, t: nat): nat
    requires Busy(s, t)
  {
    s.tabs[t].inFlight.value.id
  }

  /** The promise is settled, or some tab will settle it. */
  ghost predicate Kept(s: State, id: nat) {
    id in s.settled || exists t :: Busy(s, t) && IdOf(s, t) == id
  }

  /** Every promise belongs to one tab, has been settled or will be, and never both. */
  ghost predicate PromisesOk(s: State) {
    && (forall t | Busy(s, t) :: IdOf(s, t) < s.next && IdOf(s, t) !in s.settled)
    && (forall t, u | Busy(s, t) && Busy(s, u) && IdOf(s, t) == IdOf(s, u) :: t == u)
    && (forall id | id in s.settled :: id < s.next)
    && (forall c | c in s.callers :: Kept(s, s.callers[c]))
  }

  lemma SameFlightsKeep(s: State, after: State)
    requires PromisesOk(s) && SameFlights(s, after)
    ensures PromisesOk(after)
  {
    forall c | c in after.callers ensures Kept(after, after.callers[c]) {
      assert Kept(s, s.callers[c]);
    }
  }

  /** The flight of the tab has ended with this value, the others go on. */
  ghost predicate Ended(s: State, t: nat, value: Option<nat>, after: State)
    requires Busy(s, t)
  {
    && after.settled == s.settled[IdOf(s, t) := value] && after.callers == s.callers && after.next == s.next
    && (forall u :: Busy(after, u) <==> Busy(s, u) && u != t)
    && (forall u | Busy(s, u) && u != t :: IdOf(after, u) == IdOf(s, u))
  }

  lemma EndedFlightKeeps(s: State, t: nat, value: Option<nat>, after: State)
    requires PromisesOk(s) && Busy(s, t) && Ended(s, t, value, after)
    ensures PromisesOk(after)
  {
    forall c | c in after.callers ensures Kept(after, after.callers[c]) {
      assert Kept(s, s.callers[c]);
      if s.callers[c] !in after.settled {
        var u :| Busy(s, u) && IdOf(s, u) == s.callers[c];
        assert Busy(after, u);
      }
    }
  }

  lemma CallKeepsPromises(s: State, t: nat, caller: nat)
    requires PromisesOk(s) && Enabled(s, Call(t, caller))
    ensures PromisesOk(Apply(s, Call(t, caller)))
  {
    var after := Apply(s, Call(t, caller));
    assert Busy(after, t) && IdOf(after, t) == after.callers[caller];
    assert forall u | u != t :: Busy(after, u) <==> Busy(s, u);
    assert forall u | Busy(s, u) :: Busy(after, u) && IdOf(after, u) == IdOf(s, u);
    forall c | c in after.callers ensures Kept(after, after.callers[c]) {
      assert c != caller ==> Kept(s, s.callers[c]);
    }
  }

  /** The value a step settles the tab's promise with, if it does. */
  function SettlesWith(s: State, a: Action): Option<Option<nat>>
    requires Enabled(s, a)
  {
    match a
    case Grant(t) =>
      if s.tabs[t].revision != StageOf(s, t).revisionAtStart then Some(s.tabs[t].bearer) else None
    case Receive(t) =>
      Some(if StageOf(s, t).reply.Issued? then Some(StageOf(s, t).reply.bearer) else None)
    case GiveUp(_, _) => Some(None)
    case _ => None
  }

  lemma GrantEnds(s: State, t: nat)
    requires Enabled(s, Grant(t)) && s.tabs[t].revision != StageOf(s, t).revisionAtStart
    ensures Ended(s, t, s.tabs[t].bearer, Apply(s, Grant(t)))
  {
  }

  lemma ReceiveEnds(s: State, t: nat)
    requires Enabled(s, Receive(t))
    ensures Ended(s, t, SettlesWith(s, Receive(t)).value, Accept(s, t))
  {
    match StageOf(s, t).reply
    case Issued(_, _) =>
    case Garbled(_) =>
    case Rejected =>
    case Unavailable =>
  }

  lemma GiveUpEnds(s: State, t: nat, cookieStored: bool)
    requires Enabled(s, GiveUp(t, cookieStored))
    ensures Ended(s, t, None, Abandon(s, t, cookieStored))
  {
  }

  lemma EndingShape(s: State, a: Action)
    requires Enabled(s, a) && (a.Grant? || a.Receive? || a.GiveUp?) && SettlesWith(s, a).Some?
    ensures Ended(s, a.t, SettlesWith(s, a).value, Apply(s, a))
  {
    match a
    case Grant(t) => GrantEnds(s, t);
    case Receive(t) => ReceiveEnds(s, t);
    case GiveUp(t, cookieStored) => GiveUpEnds(s, t, cookieStored);
    case _ =>
  }

  /** Nothing has been settled, promised or begun. */
  ghost predicate SameFlights(s: State, after: State) {
    && after.settled == s.settled && after.callers == s.callers && after.next >= s.next
    && (forall u :: Busy(after, u) <==> Busy(s, u))
    && (forall u | Busy(s, u) :: IdOf(after, u) == IdOf(s, u))
  }

  lemma GrantGoesOn(s: State, t: nat)
    requires Enabled(s, Grant(t)) && s.tabs[t].revision == StageOf(s, t).revisionAtStart
    ensures SameFlights(s, Apply(s, Grant(t)))
  {
  }

  lemma ServedGoesOn(s: State, t: nat, answer: Answer)
    requires Enabled(s, Serve(t, answer))
    ensures SameFlights(s, Apply(s, Serve(t, answer)))
  {
    ServeShape(s, t, answer);
  }

  lemma OtherShape(s: State, a: Action)
    requires Enabled(s, a) && !a.Call? && SettlesWith(s, a).None?
    ensures SameFlights(s, Apply(s, a))
  {
    match a
    case Grant(t) => GrantGoesOn(s, t);
    case Serve(t, answer) => ServedGoesOn(s, t, answer);
    case _ =>
  }

  lemma ActionKeepsPromises(s: State, a: Action)
    requires PromisesOk(s) && Enabled(s, a)
    ensures PromisesOk(Apply(s, a))
    ensures forall id | id in s.settled :: id in Apply(s, a).settled && Apply(s, a).settled[id] == s.settled[id]
  {
    if a.Call? {
      CallKeepsPromises(s, a.t, a.caller);
    } else if SettlesWith(s, a).Some? {
      EndingShape(s, a);
      EndedFlightKeeps(s, a.t, SettlesWith(s, a).value, Apply(s, a));
    } else {
      OtherShape(s, a);
      SameFlightsKeep(s, Apply(s, a));
    }
  }

  lemma {:induction false} RunKeepsPromises(s: State, actions: seq<Action>)
    requires PromisesOk(s) && Legal(s, actions)
    ensures PromisesOk(RunAll(s, actions))
    ensures forall id | id in s.settled ::
              id in RunAll(s, actions).settled && RunAll(s, actions).settled[id] == s.settled[id]
    decreases |actions|
  {
    if actions != [] {
      ActionKeepsPromises(s, actions[0]);
      RunKeepsPromises(Apply(s, actions[0]), actions[1..]);
    }
  }

  /** In every run, with and without locks: a settled promise keeps its value for
      ever, and no tab has it under way again. */
  lemma SettledOnce(locks: bool, before: seq<Action>, rest: seq<Action>, id: nat)
    requires Legal(Initial(locks), before) && Legal(RunAll(Initial(locks), before), rest)
    requires id in RunAll(Initial(locks), before).settled
    ensures var s, t := RunAll(Initial(locks), before), RunAll(RunAll(Initial(locks), before), rest);
            && id in t.settled && t.settled[id] == s.settled[id]
            && forall tab | Busy(t, tab) :: IdOf(t, tab) != id
  {
    RunKeepsPromises(Initial(locks), before);
    RunKeepsPromises(RunAll(Initial(locks), before), rest);
  }

  /** In every run each caller's promise is settled or one tab has it under way,
      never both. */
  lemma CallersArePromised(locks: bool, actions: seq<Action>, caller: nat)
    requires Legal(Initial(locks), actions) && caller in RunAll(Initial(locks), actions).callers
    ensures var s := RunAll(Initial(locks), actions);
            var id := s.callers[caller];
            id in s.settled <==> !exists t :: Busy(s, t) && IdOf(s, t) == id
    ensures var s := RunAll(Initial(locks), actions);
            forall t, u | Busy(s, t) && Busy(s, u) && IdOf(s, t) == IdOf(s, u) :: t == u
  {
    RunKeepsPromises(Initial(locks), actions);
    assert Kept(RunAll(Initial(locks), actions), RunAll(Initial(locks), actions).callers[caller]);
  }

  // ---- What goes wrong otherwise ----

  lemma OneStep(s: State, a: Action, rest: seq<Action>)
    requires Enabled(s, a) && Legal(Apply(s, a), rest)
    ensures Legal(s, [a] + rest) && RunAll(s, [a] + rest) == RunAll(Apply(s, a), rest)
  {
    assert ([a] + rest)[1..] == rest;
  }

  lemma TwoSteps(s: State, a: Action, b: Action, rest: seq<Action>)
    requires Enabled(s, a) && Enabled(Apply(s, a), b) && Legal(Apply(Apply(s, a), b), rest)
    ensures Legal(s, [a, b] + rest) && RunAll(s, [a, b] + rest) == RunAll(Apply(Apply(s, a), b), rest)
  {
    OneStep(Apply(s, a), b, rest);
    OneStep(s, a, [b] + rest);
    assert [a] + ([b] + rest) == [a, b] + rest;
  }

  /** Two tabs whose requests both carry cookie 0. */
  function Racing(): State {
    State(false, map[1 := Tab(Some(1), 1, Some(Flight(2, Sent(Some(0))))), 2 := Tab(None, 0, Some(Flight(3, Sent(Some(0)))))],
          {TokenMessage(1)}, Some(0), {0}, {}, {}, 4, false, map[7 := 2, 8 := 3], map[])
  }

  lemma RacingIsReached()
    ensures var actions := [Open(1), Open(2)] + ([Login(1), Call(1, 7)] + ([Call(2, 8)] + []));
            Legal(Initial(false), actions) && RunAll(Initial(false), actions) == Racing()
  {
    var s2 := Apply(Apply(Initial(false), Open(1)), Open(2));
    var s4 := Apply(Apply(s2, Login(1)), Call(1, 7));
    assert Apply(s4, Call(2, 8)) == Racing();
    OneStep(s4, Call(2, 8), []);
    TwoSteps(s2, Login(1), Call(1, 7), [Call(2, 8)] + []);
    TwoSteps(Initial(false), Open(1), Open(2), [Login(1), Call(1, 7)] + ([Call(2, 8)] + []));
  }

  /** Without Web Locks the second request presents a rotated cookie, is rejected,
      and the session is cleared although nothing was lost. */
  lemma WithoutLocksRefreshesRace()
    ensures var s := Racing();
            && Enabled(s, Serve(1, Normal))
            && var after := Apply(s, Serve(1, Normal));
            && Enabled(after, Serve(2, Normal)) && 0 in after.rotated && !after.lost
            && StageOf(Apply(after, Serve(2, Normal)), 2) == Answered(Rejected)
            && var ended := Apply(Apply(after, Serve(2, Normal)), Receive(2));
            && ClearedMessage in ended.posted && ended.settled[3] == None
  {
  }

  /** One tab has given up on a request the backend had answered with a rotation. */
  function Stale(): State {
    State(true, map[1 := Tab(Some(1), 1, Some(Flight(5, Waiting(1))))], {TokenMessage(1)}, Some(0), {3}, {0}, {}, 6, true,
          map[7 := 2, 8 := 5], map[2 := None])
  }

  /** The second half of the run: served, given up, called again. */
  lemma StaleFromSent(s: State)
    requires s == State(true, map[1 := Tab(Some(1), 1, Some(Flight(2, Sent(Some(0)))))], {TokenMessage(1)}, Some(0), {0}, {},
                        {}, 3, false, map[7 := 2], map[])
    ensures var rest := [Serve(1, Normal), GiveUp(1, false)] + ([Call(1, 8)] + []);
            Legal(s, rest) && RunAll(s, rest) == Stale()
  {
    var served := Apply(s, Serve(1, Normal));
    var ended := Apply(served, GiveUp(1, false));
    assert Apply(ended, Call(1, 8)) == Stale();
    OneStep(ended, Call(1, 8), []);
    TwoSteps(s, Serve(1, Normal), GiveUp(1, false), [Call(1, 8)] + []);
  }

  lemma StaleIsReached()
    ensures var actions := [Open(1), Login(1)] + ([Call(1, 7), Grant(1)] + ([Serve(1, Normal), GiveUp(1, false)] + ([Call(1, 8)] + [])));
            Legal(Initial(true), actions) && RunAll(Initial(true), actions) == Stale()
  {
    var rest := [Serve(1, Normal), GiveUp(1, false)] + ([Call(1, 8)] + []);
    var s2 := Apply(Apply(Initial(true), Open(1)), Login(1));
    var s4 := Apply(Apply(s2, Call(1, 7)), Grant(1));
    assert s4.tabs[1].inFlight == Some(Flight(2, Sent(Some(0))));
    StaleFromSent(s4);
    TwoSteps(s2, Call(1, 7), Grant(1), rest);
    TwoSteps(Initial(true), Open(1), Login(1), [Call(1, 7), Grant(1)] + rest);
  }

  /** After a lost response the next refresh presents the rotated cookie and ends
      the session, with Web Locks too. */
  lemma LostResponseEndsSession()
    ensures var s := Stale();
            && Enabled(s, Grant(1))
            && var sent := Apply(s, Grant(1));
            && Enabled(sent, Serve(1, Normal)) && StageOf(sent, 1) == Sent(Some(0)) && 0 in sent.rotated
            && StageOf(Apply(sent, Serve(1, Normal)), 1) == Answered(Rejected)
            && ClearedMessage in Apply(Apply(sent, Serve(1, Normal)), Receive(1)).posted
  {
  }
}
