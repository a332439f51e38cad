/**
 The session every clone of a client shares, while any number of requests are out.

 A request takes its token when it is built and is answered at any later time, so a refusal can
 arrive after the session it speaks of has ended and another has begun.
 */
module Session {
  import opened Wire

  datatype Session = Session(token: string, username: string, expiresAt: nat)

  datatype Auth = Required | NoAuth

  const UNAUTHORIZED: nat := 401

  /** Why a request failed, once it was built. */
  datatype Refusal = SessionExpired | Refused(status: nat)

  predicate Succeeded(status: nat) {
    200 <= status < 300
  }

  /** The session after a reply: gone only if the reply refuses the very token it holds. */
  function AfterReply(session: Option<Session>, sent: Option<string>, status: nat): Option<Session> {
    if status == UNAUTHORIZED && sent.Some? && session.Some? && session.value.token == sent.value
    then None else session
  }

  class ChatClient {
    var session: Option<Session>

    constructor ()
      ensures session == None
    {
      session := None;
    }

    /** The token a request is built with, or `None` for the request that may not be sent. */
    method Build(auth: Auth) returns (built: Result<Option<string>, ()>)
      ensures auth == NoAuth ==> built == Ok(None)
      ensures auth == Required ==>
                built == if session.Some? then Ok(Some(session.value.token)) else Err(())
    {
      if auth == Required {
        match session
        case None => return Err(());
        case Some(current) => return Ok(Some(current.token));
      }
      return Ok(None);
    }

    /** Ends the session exactly when `refused` is the token it holds. */
    method ForgetIfCurrent(refused: string)
      modifies this
      ensures session == AfterReply(old(session), Some(refused), UNAUTHORIZED)
    {
      if session.Some? && session.value.token == refused {
        session := None;
      }
    }

    /** Turns a reply into what the caller sees, and a refused token into no session. */
    method Finish(sent: Option<string>, status: nat) returns (r: Result<(), Refusal>)
      modifies this
      ensures session == AfterReply(old(session), sent, status)
      ensures r.Ok? <==> Succeeded(status)
      ensures r == Err(SessionExpired) <==> status == UNAUTHORIZED && sent.Some?
      ensures r.Err? && r.error.Refused? ==> r.error.status == status
    {
      if Succeeded(status) {
        return Ok(());
      }
      if status == UNAUTHORIZED && sent.Some? {
        ForgetIfCurrent(sent.value);
        return Err(SessionExpired);
      }
      return Err(Refused(status));
    }

    method StoreSession(token: string, username: string, expiresAt: nat)
      modifies this
      ensures session == Some(Session(token, username, expiresAt))
    {
      session := Some(Session(token, username, expiresAt));
    }

    method Logout()
      modifies this
      ensures session == None
    {
      session := None;
    }
  }

  // ---- Runs ----

  /** What a request carries, and the length of the history when it was built. */
  datatype InFlight = InFlight(sent: Option<string>, builtAt: nat)

  /** What happened to the session, in order. `Quiet` is a reply that could not touch it. */
  datatype Effect = LoggedIn(session: Session) | LoggedOut | TokenRefused(token: string) | Quiet

  datatype State = State(session: Option<Session>, wire: map<nat, InFlight>, history: seq<Effect>)

  datatype Event =
    | Send(id: nat, auth: Auth)
    | Reply(id: nat, status: nat)
    | Login(session: Session)
    | Logout

  function Step(s: State, e: Event): State {
    match e
    case Send(id, auth) =>
      if id in s.wire || (auth == Required && s.session.None?) then s
      else s.(wire := s.wire[id := InFlight(if auth == Required then Some(s.session.value.token) else None,
                                            |s.history|)])
    case Reply(id, status) =>
      if id !in s.wire then s
      else
        var sent := s.wire[id].sent;
        State(AfterReply(s.session, sent, status),
              s.wire - {id},
              s.history + [if status == UNAUTHORIZED && sent.Some? then TokenRefused(sent.value) else Quiet])
    case Login(session) => s.(session := Some(session), history := s.history + [LoggedIn(session)])
    case Logout => s.(session := None, history := s.history + [LoggedOut])
  }

  function Run(events: seq<Event>): State {
    if events == [] then State(None, map[], []) else Step(Run(events[..|events| - 1]), events[|events| - 1])
  }

  /** A request goes out with the session's token exactly when it needs one, and without a session it does not go. */
  lemma SendCarriesToken(s: State, id: nat, auth: Auth)
    requires id !in s.wire
    ensures auth == NoAuth ==> id in Step(s, Send(id, auth)).wire && Step(s, Send(id, auth)).wire[id].sent.None?
    ensures auth == Required && s.session.Some? ==>
              && id in Step(s, Send(id, auth)).wire
              && Step(s, Send(id, auth)).wire[id].sent == Some(s.session.value.token)
    ensures auth == Required && s.session.None? ==> Step(s, Send(id, auth)) == s
  {
  }

  /** A request that some event built, with a token exactly if it needs one. */
  ghost predicate Built(events: seq<Event>, id: nat, flight: InFlight) {
    exists i :: 0 <= i < |events| && Builds(Run(events[..i]), events[i], id, flight)
  }

  predicate Builds(s: State, e: Event, id: nat, flight: InFlight) {
    && e.Send? && e.id == id && flight.builtAt == |s.history|
    && (e.auth == Required ==> s.session.Some? && flight.sent == Some(s.session.value.token))
    && (e.auth == NoAuth ==> flight.sent.None?)
  }

  lemma BuiltPush(events: seq<Event>, id: nat, flight: InFlight)
    requires events != []
    requires var front := events[..|events| - 1];
             Built(front, id, flight) || Builds(Run(front), events[|events| - 1], id, flight)
    ensures Built(events, id, flight)
  {
    hide Run, Builds;
    var front := events[..|events| - 1];
    if i :| 0 <= i < |front| && Builds(Run(front[..i]), front[i], id, flight) {
      assert front[..i] == events[..i] && front[i] == events[i];
    } else {
      assert Builds(Run(events[..|front|]), events[|front|], id, flight);
    }
  }

  /** Nothing is on the wire but what a caller sent, as it was built. */
  lemma {:induction false} EveryRequestWasBuilt(events: seq<Event>, id: nat)
    requires id in Run(events).wire
    ensures Built(events, id, Run(events).wire[id])
  {
    var front, e := events[..|events| - 1], events[|events| - 1];
    var s := Run(front);
    assert Run(events) == Step(s, e);
    hide Run, Built;
    if id in s.wire && Step(s, e).wire[id] == s.wire[id] {
      EveryRequestWasBuilt(front, id);
    } else {
      assert Builds(s, e, id, Step(s, e).wire[id]);
    }
    hide Step, Builds;
    BuiltPush(events, id, Step(s, e).wire[id]);
  }

  /** Login `i` is the newest, and nothing since has logged out or refused its token. */
  ghost predicate Stands(history: seq<Effect>, i: int) {
    && 0 <= i < |history| && history[i].LoggedIn?
    && forall j :: i < j < |history| ==>
         history[j] != LoggedOut && !history[j].LoggedIn?
         && history[j] != TokenRefused(history[i].session.token)
  }

  /** The session a history should leave: that of the login still standing. */
  ghost predicate Explains(history: seq<Effect>, session: Option<Session>) {
    && (session.Some? ==> exists i :: Stands(history, i) && history[i].session == session.value)
    && (session.None? ==> forall i :: !Stands(history, i))
  }

  lemma StandsPush(history: seq<Effect>, e: Effect, i: int)
    ensures Stands(history + [e], i) <==>
              if e.LoggedIn? then i == |history|
              else Stands(history, i) && e != LoggedOut
                   && e != TokenRefused(history[i].session.token)
  {
    var after := history + [e];
    assert forall k :: 0 <= k < |history| ==> after[k] == history[k];
    assert after[|history|] == e;
  }

  lemma ExplainsPush(history: seq<Effect>, e: Effect, before: Option<Session>, after: Option<Session>)
    requires Explains(history, before)
    requires match e
             case LoggedIn(session) => after == Some(session)
             case LoggedOut => after == None
             case TokenRefused(token) => after == AfterReply(before, Some(token), UNAUTHORIZED)
             case Quiet => after == before
    ensures Explains(history + [e], after)
  {
    if e.LoggedIn? {
      StandsPush(history, e, |history|);
      assert (history + [e])[|history|] == e;
    } else if before.Some? {
      var i :| Stands(history, i) && history[i].session == before.value;
      StandsPush(history, e, i);
      assert (history + [e])[i] == history[i];
      forall k | Stands(history + [e], k) ensures k == i {
        StandsPush(history, e, k);
      }
    } else {
      forall k ensures !Stands(history + [e], k) {
        StandsPush(history, e, k);
      }
    }
  }

  /** Every token on the wire belonged to the login standing when its request was built. */
  ghost predicate Honest(s: State) {
    forall id :: id in s.wire && s.wire[id].sent.Some? ==>
      && s.wire[id].builtAt <= |s.history|
      && exists i :: Stands(s.history[..s.wire[id].builtAt], i)
                     && s.history[i].session.token == s.wire[id].sent.value
  }

  lemma StepIsHonest(s: State, e: Event)
    requires Honest(s) && Explains(s.history, s.session)
    ensures Honest(Step(s, e))
  {
    var t := Step(s, e);
    assert s.history <= t.history;
    forall id | id in t.wire && t.wire[id].sent.Some?
      ensures t.wire[id].builtAt <= |t.history|
      ensures exists i :: Stands(t.history[..t.wire[id].builtAt], i)
                          && t.history[i].session.token == t.wire[id].sent.value
    {
      if id in s.wire {
        assert t.wire[id] == s.wire[id];
        var at := s.wire[id].builtAt;
        var i :| Stands(s.history[..at], i) && s.history[i].session.token == s.wire[id].sent.value;
        assert t.history[..at] == s.history[..at];
        assert t.history[i] == s.history[i];
      } else {
        var i :| Stands(s.history, i) && s.history[i].session == s.session.value;
        assert t.history[..|s.history|] == s.history;
      }
    }
  }

  /**
   In every interleaving of logins, logouts and replies, a session is held exactly when some login
   stands: only a newer login, a logout, or a 401 to a request carrying exactly its token ends it.
   And every request went out with the token of the login standing when it was built.
   */
  lemma {:induction false} SessionIsTheLoginStanding(events: seq<Event>)
    ensures var s := Run(events);
            Explains(s.history, s.session) && Honest(s)
  {
    if events != [] {
      var front := events[..|events| - 1];
      SessionIsTheLoginStanding(front);
      var s, e := Run(front), events[|events| - 1];
      StepIsHonest(s, e);
      var t := Step(s, e);
      if t.history != s.history {
        ExplainsPush(s.history, t.history[|s.history|], s.session, t.session);
        assert t.history == s.history + [t.history[|s.history|]];
      }
    }
  }

  lemma {:induction false} RunJoins(first: seq<Event>, next: seq<Event>, i: nat)
    requires i < |next|
    ensures Run(first + next[..i + 1]) == Step(Run(first + next[..i]), next[i])
  {
    assert (first + next[..i + 1])[..|first| + i] == first + next[..i];
  }

  /** A 401 to a request that carried this token. */
  predicate Refuses(s: State, e: Event, token: string) {
    e.Reply? && e.status == UNAUTHORIZED && e.id in s.wire && s.wire[e.id].sent == Some(token)
  }

  /** Some event of `next`, run after `first`, refuses the token. */
  ghost predicate RefusedAmong(first: seq<Event>, next: seq<Event>, token: string) {
    exists i :: 0 <= i < |next| && Refuses(Run(first + next[..i]), next[i], token)
  }

  /**
   Between a login and whatever login or logout follows, any number of requests may be answered,
   however old and in any order. The session outlasts them all exactly when none of them refuses its
   own token, and if one does nothing brings it back.
   */
  lemma {:induction false} LateRefusalSpares(first: seq<Event>, next: seq<Event>)
    requires Run(first).session.Some? && forall i :: 0 <= i < |next| ==> !next[i].Login? && !next[i].Logout?
    ensures Run(first + next).session
         == if RefusedAmong(first, next, Run(first).session.value.token) then None else Run(first).session
  {
    hide Run, RefusedAmong, Step;
    var token := Run(first).session.value.token;
    if next == [] {
      assert first + next == first;
      NoneRefused(first, token);
    } else {
      var front, e := next[..|next| - 1], next[|next| - 1];
      assert next[..|front| + 1] == next;
      LateRefusalSpares(first, front);
      RunJoins(first, next, |front|);
      RefusedPush(first, next, token);
      StepSpares(Run(first + front), e, token);
    }
  }

  lemma NoneRefused(first: seq<Event>, token: string)
    ensures !RefusedAmong(first, [], token)
  {
  }

  /** One reply ends a session by refusing its token, and none begins one. */
  lemma StepSpares(s: State, e: Event, token: string)
    requires !e.Login? && !e.Logout?
    ensures s.session.None? ==> Step(s, e).session.None?
    ensures s.session.Some? && s.session.value.token == token ==>
              Step(s, e).session == if Refuses(s, e, token) then None else s.session
  {
  }

  lemma RefusedPush(first: seq<Event>, next: seq<Event>, token: string)
    requires next != []
    ensures var front := next[..|next| - 1];
            RefusedAmong(first, next, token)
            <==> RefusedAmong(first, front, token) || Refuses(Run(first + front), next[|next| - 1], token)
  {
    hide Run, Refuses;
    var front := next[..|next| - 1];
    assert forall i :: 0 <= i < |front| ==> front[..i] == next[..i] && front[i] == next[i];
    if i :| 0 <= i < |next| && Refuses(Run(first + next[..i]), next[i], token) {
      assert i < |front| ==> Refuses(Run(first + front[..i]), front[i], token);
    }
    if i :| 0 <= i < |front| && Refuses(Run(first + front[..i]), front[i], token) {
      assert Refuses(Run(first + next[..i]), next[i], token);
    }
  }
}
