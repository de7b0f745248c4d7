/** The module variables of one tab and the functions that update them
    (frontend/src/api/session.ts), one method per stretch between two awaits. Each is
    a step of `TabSession`. */
module TabModule {
  import opened Wrappers
  import T = TabSession

  /** What `fetch` and `response.json` bring: a transport failure, or a status
      with the token of the body, if the body is a token response. */
  datatype Response = TransportFailure | Http(status: int, token: Option<nat>)

  predicate Succeeds(response: Response) {
    response.Http? && 200 <= response.status < 300 && response.token.Some?
  }

  predicate Refused(response: Response) {
    response.Http? && (response.status == 401 || response.status == 403)
  }

  /** The response the browser hands over is the backend's reply, or the request was lost. */
  predicate Brings(response: Response, stage: T.Stage) {
    response.Http? ==>
      && stage.Answered?
      && match stage.reply
         case Issued(_, bearer) => Succeeds(response) && response.token == Some(bearer)
         case Garbled(_) => 200 <= response.status < 300 && response.token.None?
         case Rejected => Refused(response)
         case Unavailable => !(200 <= response.status < 300) && !Refused(response)
  }

  /** Which responses an answer of the backend can look like. */
  lemma BringsInFull(status: int, token: Option<nat>, cookie: nat, bearer: nat)
    ensures var response := Http(status, token);
            && (Brings(response, T.Answered(T.Issued(cookie, bearer))) <==> 200 <= status < 300 && token == Some(bearer))
            && (Brings(response, T.Answered(T.Garbled(cookie))) <==> 200 <= status < 300 && token.None?)
            && (Brings(response, T.Answered(T.Rejected)) <==> status == 401 || status == 403)
            && (Brings(response, T.Answered(T.Unavailable)) <==> !(200 <= status < 300) && status != 401 && status != 403)
            && !Brings(response, T.Sent(Some(cookie)))
    ensures Brings(TransportFailure, T.Sent(Some(cookie)))
  {
  }

  /** The promise kept in `inFlight`; it may still wait for the lock, since a revision. */
  datatype Pending = Pending(id: nat, waitsSince: Option<nat>)

  /** What the module can see of a tab: whether its request has been answered it cannot. */
  datatype View = View(bearer: Option<nat>, revision: nat, inFlight: Option<Pending>)

  function ViewOf(tab: T.Tab): View {
    View(tab.bearer, tab.revision,
         match tab.inFlight
         case None => None
         case Some(flight) =>
           Some(Pending(flight.id, if flight.stage.Waiting? then Some(flight.stage.revisionAtStart) else None)))
  }

  /** The tab whose module runs in a step, if any. */
  function Runs(a: T.Action): Option<nat> {
    match a
    case Serve(_, _) => None
    case ServeOrphan(_) => None
    case Revoke(_) => None
    case _ => Some(a.t)
  }

  /** Between two calls of a tab's functions nothing it can see changes, whatever the
      other tabs and the backend do. */
  lemma OthersLeaveView(s: T.State, a: T.Action, t: nat)
    requires T.Enabled(s, a) && t in s.tabs && Runs(a) != Some(t)
    ensures t in T.Apply(s, a).tabs && ViewOf(T.Apply(s, a).tabs[t]) == ViewOf(s.tabs[t])
  {
    if a.Receive? {
      T.AcceptShape(s, a.t);
    }
  }

  class Session {
    var bearer: Option<nat>
    var revision: nat
    var inFlight: Option<Pending>
    /** Broadcast, in order. */
    var posted: seq<T.Message>
    /** How often the user interface was told that the session is gone. */
    var notified: nat

    function Visible(): View
      reads this
    {
      View(bearer, revision, inFlight)
    }

    /** The object is tab `t` of the state. */
    ghost predicate Shows(s: T.State, t: nat)
      reads this
    {
      t in s.tabs && Visible() == ViewOf(s.tabs[t])
    }

    method Adopt(value: nat)
      modifies this`bearer, this`revision
      ensures bearer == Some(value) && revision == old(revision) + 1
    {
      bearer := Some(value);
      revision := revision + 1;
    }

    method SetBearer(value: nat)
      modifies this`bearer, this`revision, this`posted
      ensures bearer == Some(value) && revision == old(revision) + 1 && posted == old(posted) + [T.TokenMessage(value)]
    {
      Adopt(value);
      posted := posted + [T.TokenMessage(value)];
    }

    method Drop()
      modifies this`bearer, this`revision
      ensures bearer == None && revision == old(revision) + 1
    {
      bearer := None;
      revision := revision + 1;
    }

    method Forget()
      modifies this`bearer, this`revision, this`posted, this`notified
      ensures bearer == None && revision == old(revision) + 1
      ensures posted == old(posted) + [T.ClearedMessage] && notified == old(notified) + 1
    {
      Drop();
      posted := posted + [T.ClearedMessage];
      notified := notified + 1;
    }

    /** `clearSession`, also the end of `signOut`: the tab's part of both steps. */
    method ClearSession(ghost s: T.State, ghost t: nat)
      requires Shows(s, t)
      modifies this`bearer, this`revision, this`posted, this`notified
      ensures Shows(T.Apply(s, T.Clear(t)), t) && Shows(T.Apply(s, T.Logout(t)), t)
      ensures posted == old(posted) + [T.ClearedMessage] && notified == old(notified) + 1
      ensures bearer == None && revision == old(revision) + 1
      ensures T.Apply(s, T.Clear(t)).posted == s.posted + {T.ClearedMessage}
      ensures T.Apply(s, T.Logout(t)).posted == s.posted + {T.ClearedMessage}
    {
      Forget();
    }

    /** The token response of a login. */
    method AcceptLogin(token: Option<nat>, ghost s: T.State, ghost t: nat)
      requires Shows(s, t) && (token.Some? ==> token.value == s.next + 1)
      modifies this`bearer, this`revision, this`posted
      ensures Shows(if token.Some? then T.Apply(s, T.Login(t)) else s, t)
      ensures posted == old(posted) + if token.Some? then [T.TokenMessage(token.value)] else []
      ensures bearer == (if token.Some? then token else old(bearer))
      ensures revision == old(revision) + if token.Some? then 1 else 0
      ensures token.Some? ==> T.Apply(s, T.Login(t)).posted == s.posted + {T.TokenMessage(token.value)}
    {
      if token.Some? {
        SetBearer(token.value);
      }
    }

    /** The channel listener: a received message is not broadcast again. */
    method OnMessage(message: T.Message, ghost s: T.State, ghost t: nat)
      requires Shows(s, t) && T.Enabled(s, T.Deliver(t, message))
      modifies this`bearer, this`revision, this`notified
      ensures Shows(T.Apply(s, T.Deliver(t, message)), t) && T.Apply(s, T.Deliver(t, message)).posted == s.posted
      ensures notified == old(notified) + if bearer.None? then 1 else 0
      ensures bearer == (if message.TokenMessage? then Some(message.bearer) else None) && revision == old(revision) + 1
    {
      match message
      case TokenMessage(value) => Adopt(value);
      case ClearedMessage =>
        Drop();
        notified := notified + 1;
    }

    /** `performRefresh` after its request: only a token response changes the bearer, only
        a refusal ends the session, everything else leaves both alone. */
    method PerformRefresh(response: Response) returns (result: Option<nat>)
      modifies this`bearer, this`revision, this`posted, this`notified
      ensures response.Http? && 200 <= response.status < 300 && response.token.Some? ==>
                && result == bearer == response.token && revision == old(revision) + 1
                && posted == old(posted) + [T.TokenMessage(response.token.value)] && notified == old(notified)
      ensures response.Http? && response.status in {401, 403} ==>
                && result == bearer == None && revision == old(revision) + 1
                && posted == old(posted) + [T.ClearedMessage] && notified == old(notified) + 1
      ensures response.TransportFailure? || (200 <= response.status < 300 && response.token.None?)
              || (!(200 <= response.status < 300) && response.status !in {401, 403}) ==>
                && result == None && bearer == old(bearer) && revision == old(revision)
                && posted == old(posted) && notified == old(notified)
    {
      if response.TransportFailure? {
        return None;
      }
      if response.status == 401 || response.status == 403 {
        Forget();
        return None;
      }
      if response.status < 200 || response.status >= 300 || response.token.None? {
        return None;
      }
      SetBearer(response.token.value);
      result := response.token;
    }

    /** The request is over: the promise settles and is no longer kept. */
    method FinishRefresh(response: Response, ghost s: T.State, ghost t: nat, ghost cookieStored: bool)
      returns (result: Option<nat>)
      requires Shows(s, t) && T.Sending(s, t) && Brings(response, T.StageOf(s, t))
      modifies this
      ensures old(posted) <= posted && inFlight.None?
      ensures var a := if response.Http? then T.Receive(t) else T.GiveUp(t, cookieStored);
              && T.Enabled(s, a) && Shows(T.Apply(s, a), t) && T.SettlesWith(s, a) == Some(result)
              && T.Apply(s, a).posted == s.posted + set m | m in posted[|old(posted)|..]
      ensures response.Http? && response.status in {401, 403} ==>
                result == bearer == None && notified == old(notified) + 1 && posted == old(posted) + [T.ClearedMessage]
      ensures !(response.Http? && response.status in {401, 403}) ==> notified == old(notified)
      ensures result.Some? <==> response.Http? && 200 <= response.status < 300 && response.token.Some?
      ensures result.Some? ==> result == bearer == response.token && posted == old(posted) + [T.TokenMessage(result.value)]
    {
      result := PerformRefresh(response);
      inFlight := None;
    }

    /** The callback of the lock: a change of revision while waiting settles the promise
        with the bearer, otherwise the request goes out with the cookie of the jar. */
    method LockGranted(ghost s: T.State, ghost t: nat) returns (settled: Option<Option<nat>>)
      requires Shows(s, t) && T.Enabled(s, T.Grant(t))
      modifies this`inFlight
      ensures Shows(T.Apply(s, T.Grant(t)), t) && settled == T.SettlesWith(s, T.Grant(t))
      ensures settled.None? ==> T.Sending(T.Apply(s, T.Grant(t)), t)
      ensures T.Apply(s, T.Grant(t)).posted == s.posted
      ensures old(inFlight).Some? && old(inFlight).value.waitsSince.Some?
      ensures if revision != old(inFlight).value.waitsSince.value then settled == Some(bearer) && inFlight == None
              else settled == None && inFlight == Some(Pending(old(inFlight).value.id, None))
    {
      var pending := inFlight.value;
      if revision != pending.waitsSince.value {
        settled := Some(bearer);
        inFlight := None;
      } else {
        settled := None;
        inFlight := Some(pending.(waitsSince := None));
      }
    }

    /** `refreshSession`: the promise under way, or a new one that waits for the lock or
        sends at once. */
    method RefreshSession(locks: bool, next: nat, ghost s: T.State, ghost t: nat, ghost caller: nat)
      returns (promise: nat)
      requires Shows(s, t) && T.Enabled(s, T.Call(t, caller)) && locks == s.locks && next == s.next
      modifies this`inFlight
      ensures Shows(T.Apply(s, T.Call(t, caller)), t) && promise == T.Apply(s, T.Call(t, caller)).callers[caller]
      ensures T.Apply(s, T.Call(t, caller)).posted == s.posted
      ensures if old(inFlight).Some? then promise == old(inFlight).value.id && inFlight == old(inFlight)
              else promise == next && inFlight == Some(Pending(next, if locks then Some(revision) else None))
    {
      if inFlight.Some? {
        return inFlight.value.id;
      }
      inFlight := Some(Pending(next, if locks then Some(revision) else None));
      promise := next;
    }
  }
}
