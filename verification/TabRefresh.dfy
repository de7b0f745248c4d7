/** What one refresh comes to, from the tab that sends it to the jar and the other
    tabs (frontend/src/api/session.ts). */
module TabRefresh {
  import opened Wrappers
  import opened TabSession

  /** The request of the tab has gone out and nobody disturbs it: sent with the jar's
      cookie, answered, and received. */
  ghost predicate Goes(s: State, t: nat, answer: Answer) {
    Busy(s, t) && StageOf(s, t) == Sent(s.jar) && Enabled(s, Serve(t, answer)) && Enabled(Apply(s, Serve(t, answer)), Receive(t))
  }

  lemma SentGoes(s: State, t: nat, answer: Answer)
    requires Busy(s, t) && StageOf(s, t) == Sent(s.jar)
    ensures Goes(s, t, answer)
  {
    ServeShape(s, t, answer);
  }

  /** A cookie the backend knows is spent and replaced, in the jar too; the new bearer is
      the tab's, the promise's and the broadcast's. */
  lemma AcceptedRefresh(s: State, t: nat)
    requires Goes(s, t, Normal) && s.jar.Some? && s.jar.value in s.valid
    ensures var after := Apply(Apply(s, Serve(t, Normal)), Receive(t));
            var cookie, bearer := s.next, s.next + 1;
            && after.valid == s.valid - {s.jar.value} + {cookie} && after.rotated == s.rotated + {s.jar.value}
            && after.jar == Some(cookie) && after.posted == s.posted + {TokenMessage(bearer)}
            && after.tabs == s.tabs[t := Tab(Some(bearer), s.tabs[t].revision + 1, None)]
            && after.settled == s.settled[s.tabs[t].inFlight.value.id := Some(bearer)]
            && after.orphans == s.orphans && after.lost == s.lost && after.callers == s.callers
  {
    var served := Apply(s, Serve(t, Normal));
    assert StageOf(served, t) == Answered(Issued(s.next, s.next + 1));
    assert Apply(served, Receive(t)).tabs == s.tabs[t := Tab(Some(s.next + 1), s.tabs[t].revision + 1, None)];
  }

  /** A success without a token in its body has spent the cookie, but the tab keeps its
      bearer. */
  lemma GarbledRefresh(s: State, t: nat)
    requires Goes(s, t, BadBody) && s.jar.Some? && s.jar.value in s.valid
    ensures var after := Apply(Apply(s, Serve(t, BadBody)), Receive(t));
            && after.valid == s.valid - {s.jar.value} + {s.next} && after.rotated == s.rotated + {s.jar.value}
            && after.jar == Some(s.next) && after.posted == s.posted
            && after.tabs == s.tabs[t := Tab(s.tabs[t].bearer, s.tabs[t].revision, None)]
            && after.settled == s.settled[s.tabs[t].inFlight.value.id := None]
  {
    var served := Apply(s, Serve(t, BadBody));
    assert StageOf(served, t) == Answered(Garbled(s.next));
    assert Apply(served, Receive(t)).tabs == s.tabs[t := Tab(s.tabs[t].bearer, s.tabs[t].revision, None)];
  }

  /** A cookie the backend does not know, or none, ends the session in every tab. */
  lemma RefusedRefresh(s: State, t: nat, answer: Answer)
    requires Goes(s, t, answer) && !answer.Down? && (s.jar.None? || s.jar.value !in s.valid)
    ensures var after := Apply(Apply(s, Serve(t, answer)), Receive(t));
            && after.valid == s.valid && after.rotated == s.rotated && after.jar == s.jar
            && after.posted == s.posted + {ClearedMessage}
            && after.tabs == s.tabs[t := Tab(None, s.tabs[t].revision + 1, None)]
            && after.settled == s.settled[s.tabs[t].inFlight.value.id := None]
  {
    var served := Apply(s, Serve(t, answer));
    assert StageOf(served, t) == Answered(Rejected);
    assert Apply(served, Receive(t)).tabs == s.tabs[t := Tab(None, s.tabs[t].revision + 1, None)];
  }

  /** A backend that is down changes nothing but the promise. */
  lemma FailedRefresh(s: State, t: nat)
    requires Goes(s, t, Down)
    ensures var after := Apply(Apply(s, Serve(t, Down)), Receive(t));
            && after.valid == s.valid && after.rotated == s.rotated && after.jar == s.jar && after.posted == s.posted
            && after.tabs == s.tabs[t := Tab(s.tabs[t].bearer, s.tabs[t].revision, None)]
            && after.settled == s.settled[s.tabs[t].inFlight.value.id := None]
  {
    var served := Apply(s, Serve(t, Down));
    assert StageOf(served, t) == Answered(Unavailable);
    assert Apply(served, Receive(t)).tabs == s.tabs[t := Tab(s.tabs[t].bearer, s.tabs[t].revision, None)];
  }

  /** A tab that gives up keeps its bearer and settles its promise with nothing; a request
      not served yet may still be served, and rotates its cookie then. */
  lemma GivenUpRefresh(s: State, t: nat, cookie: nat)
    requires Busy(s, t) && StageOf(s, t) == Sent(Some(cookie)) && cookie in s.valid
    ensures var gone := Apply(s, GiveUp(t, false));
            && gone.tabs == s.tabs[t := Tab(s.tabs[t].bearer, s.tabs[t].revision, None)]
            && gone.settled == s.settled[s.tabs[t].inFlight.value.id := None]
            && gone.jar == s.jar && gone.posted == s.posted && gone.valid == s.valid && gone.lost
            && Enabled(gone, ServeOrphan(cookie))
            && var late := Apply(gone, ServeOrphan(cookie));
            && late.valid == s.valid - {cookie} + {s.next} && late.rotated == s.rotated + {cookie}
            && late.jar == s.jar && late.tabs == gone.tabs && cookie !in late.orphans
  {
  }

  /** Signing in and out: the cookie the jar gets is the one the backend knows, and
      signing out takes it from both. */
  lemma SignInAndOut(s: State, t: nat)
    requires t in s.tabs
    ensures var signed, left := Apply(s, Login(t)), Apply(s, Logout(t));
            && signed.jar == Some(s.next) && signed.valid == s.valid + {s.next}
            && signed.tabs == s.tabs[t := s.tabs[t].(bearer := Some(s.next + 1), revision := s.tabs[t].revision + 1)]
            && signed.posted == s.posted + {TokenMessage(s.next + 1)}
            && left.jar == None && left.valid == (if s.jar.Some? then s.valid - {s.jar.value} else s.valid)
            && left.tabs == s.tabs[t := s.tabs[t].(bearer := None, revision := s.tabs[t].revision + 1)]
            && left.posted == s.posted + {ClearedMessage}
  {
    assert s.jar.None? ==> s.valid - {} == s.valid;
  }
}
