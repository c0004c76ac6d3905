/** What the session layer promises: how each kind of reply is handled, that
    every request leaves with the current token as its only session id, that
    a NOT_LOGGED_IN reply leads to a login and two re-sends, and that only a
    reply the client accepts is ever handed back to the caller. */
module SessionProperties {
  import opened Json
  import opened SessionLayer

  // ---------------------------------------------------------------------
  // One reply: the five outcomes of QueryApi that need no login.

  /** Without a server URI nothing is posted and the call fails. */
  lemma NoUriNoPost(settings: Settings, s: Session, json: Object)
    requires settings.instanceUri.None?
    ensures Query(settings, s, json) == (s, Failure(InvalidConfiguration("URI not set")))
  {
  }

  /** The session after one POST of `json` that consumed the next reply. */
  function AfterOnePost(s: Session, json: Object): (t: Session)
    requires s.pending != []
    ensures |t.sent| == |s.sent| + 1 && |t.pending| == |s.pending| - 1 && t.token == s.token
  {
    Session(s.token, s.pending[1..], s.sent + [Posted(WithSession(s.token, json), s.token)])
  }

  /** One POST of an already prepared request: with no reply left the call
      fails; otherwise the verdict on the reply it consumed decides the rest. */
  lemma SendStep(settings: Settings, s: Session, request: Object)
    ensures s.pending == [] ==>
      Send(settings, s, request) == (s.(sent := s.sent + [Posted(request, s.token)]), Failure(NoResponse))
    ensures s.pending != [] ==>
      Send(settings, s, request) ==
        Respond(settings, Session(s.token, s.pending[1..], s.sent + [Posted(request, s.token)]), request, Classify(s.pending[0]))
  {
  }

  /** One POST, then the verdict on the reply it consumed decides the rest. */
  lemma QueryFirstReply(settings: Settings, s: Session, json: Object)
    requires settings.instanceUri.Some? && s.pending != []
    ensures Query(settings, s, json) ==
      Respond(settings, AfterOnePost(s, json), WithSession(s.token, json), Classify(s.pending[0]))
  {
  }

  /** A reply that is not a JSON object fails the call as "Not JSON", after
      exactly one POST. */
  lemma UnparsableIsNotJson(settings: Settings, s: Session, json: Object)
    requires settings.instanceUri.Some?
    requires s.pending != [] && !(s.pending[0].Body? && s.pending[0].doc.JObject?)
    ensures Query(settings, s, json) == (AfterOnePost(s, json), Failure(InvalidConfiguration("Not JSON")))
  {
    QueryFirstReply(settings, s, json);
  }

  /** A reply the client accepts is returned after exactly one POST. */
  lemma QueryAnswered(settings: Settings, s: Session, json: Object, response: Object)
    requires settings.instanceUri.Some?
    requires s.pending != [] && Classify(s.pending[0]) == Done(response)
    ensures Query(settings, s, json) == (AfterOnePost(s, json), Success(response))
  {
    QueryFirstReply(settings, s, json);
  }

  /** Status 0: the parsed reply is returned as it is, after exactly one POST;
      no login, no re-send, the token is kept. */
  lemma StatusZeroReturnsReply(settings: Settings, s: Session, json: Object, response: Object)
    requires settings.instanceUri.Some?
    requires s.pending != [] && s.pending[0] == Body(JObject(response))
    requires "status" in response && response["status"] == JNumber(0)
    ensures Query(settings, s, json) == (AfterOnePost(s, json), Success(response))
  {
    QueryFirstReply(settings, s, json);
  }

  /** LOGIN_ERROR: the credentials are refused; the call fails with a
      configuration error after exactly one POST, without re-sending. */
  lemma LoginErrorIsFatal(settings: Settings, s: Session, json: Object, response: Object)
    requires settings.instanceUri.Some?
    requires s.pending != [] && s.pending[0] == Body(JObject(response))
    requires GetNamedNumber(response, "status").Success? && GetNamedNumber(response, "status").value != 0
    requires ErrorCode(response) == Success(LoginFailed)
    ensures Query(settings, s, json) == (AfterOnePost(s, json), Failure(InvalidConfiguration("Login error")))
  {
    QueryFirstReply(settings, s, json);
  }

  /** Any other error code: the reply is handed back unchanged, as if it were
      a success, after exactly one POST. */
  lemma OtherErrorReturned(settings: Settings, s: Session, json: Object, response: Object, code: string)
    requires settings.instanceUri.Some?
    requires s.pending != [] && s.pending[0] == Body(JObject(response))
    requires GetNamedNumber(response, "status").Success? && GetNamedNumber(response, "status").value != 0
    requires ErrorCode(response) == Success(code) && code != NotLoggedIn && code != LoginFailed
    ensures Query(settings, s, json) == (AfterOnePost(s, json), Success(response))
  {
    QueryFirstReply(settings, s, json);
  }

  // ---------------------------------------------------------------------
  // NOT_LOGGED_IN: log in, re-send twice, return the second answer.

  /** Attaching a token replaces whatever session id the request carried:
      re-sending a request that already went out with an older token sends
      the same thing as sending the original. */
  lemma InjectOverrides(older: Option<string>, token: Option<string>, json: Object)
    requires token.Some?
    ensures WithSession(token, WithSession(older, json)) == WithSession(token, json)
  {
  }

  /** A successful re-login is followed by two sends of the request; the
      second one's outcome is the call's, the first one's answer is dropped. */
  lemma RespondReloginSucceeded(settings: Settings, s: Session, request: Object,
                                s2: Session, id: string, s3: Session, dropped: Object, s4: Session, r: Result<Object>)
    requires Login(settings, s) == (s2, Success(id))
    requires Query(settings, s2, request) == (s3, Success(dropped))
    requires Query(settings, s3, request) == (s4, r)
    ensures Respond(settings, s, request, Relogin) == (s4, r)
  {
  }

  /** A JSON reply with a non-zero status and content.error NOT_LOGGED_IN,
      answering the first POST, starts the re-login path for the request as
      it was sent. */
  lemma NotLoggedInStartsRelogin(settings: Settings, s: Session, json: Object, response: Object)
    requires settings.instanceUri.Some?
    requires s.pending != [] && s.pending[0] == Body(JObject(response))
    requires NonZeroStatus(response) && ErrorCode(response) == Success(NotLoggedIn)
    ensures Query(settings, s, json) == Respond(settings, AfterOnePost(s, json), WithSession(s.token, json), Relogin)
  {
    QueryFirstReply(settings, s, json);
  }

  /** Whatever makes the login fail (no reply, a body that is not JSON,
      LOGIN_ERROR, a missing session id, ...) fails the call with the same
      error, and the request is not sent again. */
  lemma LoginFailurePropagates(settings: Settings, s: Session, request: Object)
    requires Login(settings, s).1.Failure?
    ensures Respond(settings, s, request, Relogin) == (Login(settings, s).0, Failure(Login(settings, s).1.error))
  {
  }

  /** After a granted login, a failure of the first re-send fails the call
      with the same error; the second send is not made. */
  lemma ResendFailurePropagates(settings: Settings, s: Session, request: Object, s2: Session, id: string)
    requires Login(settings, s) == (s2, Success(id))
    requires Query(settings, s2, request).1.Failure?
    ensures Respond(settings, s, request, Relogin) ==
              (Query(settings, s2, request).0, Failure(Query(settings, s2, request).1.error))
  {
  }

  /** After NOT_LOGGED_IN the client logs in with its stored credentials, keeps
      the session id the server grants, sends the original request twice with
      that id, and returns the answer to the second: four POSTs in all, where
      the first is answered with NOT_LOGGED_IN and the others with replies the
      client accepts. */
  lemma ReloginResendsTwice(settings: Settings, s: Session, json: Object, id: string,
                            granted: Object, dropped: Object, kept: Object)
    requires settings.instanceUri.Some?
    requires |s.pending| >= 4 && Classify(s.pending[0]) == Relogin
    requires Classify(s.pending[1]) == Done(granted) && SessionId(granted) == Success(id)
    requires Classify(s.pending[2]) == Done(dropped)
    requires Classify(s.pending[3]) == Done(kept)
    ensures Query(settings, s, json) ==
      (Session(Some(id), s.pending[4..],
               s.sent + [Posted(WithSession(s.token, json), s.token),
                         Posted(WithSession(s.token, LoginRequest(settings)), s.token),
                         Posted(WithSession(Some(id), json), Some(id)),
                         Posted(WithSession(Some(id), json), Some(id))]),
       Success(kept))
  {
    ReloginOutcome(settings, s, json, id, granted, dropped, kept);
    ReloginLog(settings, s, json, id);
  }

  /** The outcome of the re-login path, reached through the first reply. */
  lemma ReloginOutcome(settings: Settings, s: Session, json: Object, id: string,
                       granted: Object, dropped: Object, kept: Object)
    requires settings.instanceUri.Some?
    requires |s.pending| >= 4 && Classify(s.pending[0]) == Relogin
    requires Classify(s.pending[1]) == Done(granted) && SessionId(granted) == Success(id)
    requires Classify(s.pending[2]) == Done(dropped)
    requires Classify(s.pending[3]) == Done(kept)
    ensures Query(settings, s, json) ==
      (AfterRelogin(settings, AfterOnePost(s, json), WithSession(s.token, json), id), Success(kept))
  {
    QueryFirstReply(settings, s, json);
    ReloginRespond(settings, AfterOnePost(s, json), WithSession(s.token, json), id, granted, dropped, kept);
  }

  /** The four POSTs of a call that meets one expired session: the request
      with the old token, the login with the old token, then the request
      twice with the new token. */
  lemma ReloginLog(settings: Settings, s: Session, json: Object, id: string)
    requires |s.pending| >= 4
    ensures AfterRelogin(settings, AfterOnePost(s, json), WithSession(s.token, json), id) ==
      Session(Some(id), s.pending[4..],
              s.sent + [Posted(WithSession(s.token, json), s.token),
                        Posted(WithSession(s.token, LoginRequest(settings)), s.token),
                        Posted(WithSession(Some(id), json), Some(id)),
                        Posted(WithSession(Some(id), json), Some(id))])
  {
    InjectOverrides(s.token, Some(id), json);
    assert AfterOnePost(s, json).pending[3..] == s.pending[4..];
  }

  /** The session after a granted login and two re-sends of `request`. */
  function AfterRelogin(settings: Settings, s: Session, request: Object, id: string): (t: Session)
    requires |s.pending| >= 3
    ensures t.token == Some(id) && t.pending == s.pending[3..] && |t.sent| == |s.sent| + 3
  {
    Session(Some(id), s.pending[3..],
            s.sent + [Posted(WithSession(s.token, LoginRequest(settings)), s.token),
                      Posted(WithSession(Some(id), request), Some(id)),
                      Posted(WithSession(Some(id), request), Some(id))])
  }

  /** The re-login path itself: one login POST and two re-sends. */
  lemma ReloginRespond(settings: Settings, s1: Session, request: Object, id: string,
                       granted: Object, dropped: Object, kept: Object)
    requires settings.instanceUri.Some?
    requires |s1.pending| >= 3
    requires Classify(s1.pending[0]) == Done(granted) && SessionId(granted) == Success(id)
    requires Classify(s1.pending[1]) == Done(dropped)
    requires Classify(s1.pending[2]) == Done(kept)
    ensures Respond(settings, s1, request, Relogin) == (AfterRelogin(settings, s1, request, id), Success(kept))
  {
    LoginGranted(settings, s1, granted, id);
    var s2 := AfterOnePost(s1, LoginRequest(settings)).(token := Some(id));
    QueryAnswered(settings, s2, request, dropped);
    var s3 := AfterOnePost(s2, request);
    QueryAnswered(settings, s3, request, kept);
    var s4 := AfterOnePost(s3, request);
    RespondReloginSucceeded(settings, s1, request, s2, id, s3, dropped, s4, Success(kept));
    assert s4.pending == s1.pending[3..];
    assert s4.sent == AfterRelogin(settings, s1, request, id).sent;
  }

  /** A login answered with a reply the client accepts keeps
      content.session_id as the token, after one POST of the login request. */
  lemma LoginGranted(settings: Settings, s: Session, granted: Object, id: string)
    requires settings.instanceUri.Some?
    requires s.pending != [] && Classify(s.pending[0]) == Done(granted)
    requires SessionId(granted) == Success(id)
    ensures Login(settings, s) == (AfterOnePost(s, LoginRequest(settings)).(token := Some(id)), Success(id))
  {
    QueryAnswered(settings, s, LoginRequest(settings), granted);
  }

  /** When the login that NOT_LOGGED_IN triggers is itself refused, the call
      fails with the login's error; the original request is not re-sent. */
  lemma ReloginRefused(settings: Settings, s: Session, json: Object, refusal: Object)
    requires settings.instanceUri.Some?
    requires |s.pending| >= 2 && Classify(s.pending[0]) == Relogin && s.pending[1] == Body(JObject(refusal))
    requires GetNamedNumber(refusal, "status").Success? && GetNamedNumber(refusal, "status").value != 0
    requires ErrorCode(refusal) == Success(LoginFailed)
    ensures var (t, r) := Query(settings, s, json);
            && r == Failure(InvalidConfiguration("Login error"))
            && t.token == s.token
            && t.pending == s.pending[2..]
            && t.sent == s.sent + [Posted(WithSession(s.token, json), s.token),
                                   Posted(WithSession(s.token, LoginRequest(settings)), s.token)]
  {
    var s1 := AfterOnePost(s, json);
    QueryFirstReply(settings, s, json);
    var login := LoginRequest(settings);
    assert s1.pending[0] == Body(JObject(refusal));
    LoginErrorIsFatal(settings, s1, login, refusal);
    var s2 := AfterOnePost(s1, login);
    assert Login(settings, s1) == (s2, Failure(InvalidConfiguration("Login error")));
    assert Respond(settings, s1, WithSession(s.token, json), Relogin) == (s2, Failure(InvalidConfiguration("Login error")));
  }

  // ---------------------------------------------------------------------
  // Token injection, over every POST a call makes.

  /** The requests posted between two sessions. */
  function NewPosts(before: Session, after: Session): (p: seq<Posted>)
    ensures before.sent <= after.sent ==> after.sent == before.sent + p
  {
    if |before.sent| <= |after.sent| then after.sent[|before.sent|..] else []
  }

  lemma NewPostsSplit(a: Session, b: Session, c: Session, p: Posted)
    requires a.sent <= b.sent <= c.sent
    requires p in NewPosts(a, c)
    ensures p in NewPosts(a, b) || p in NewPosts(b, c)
  {
  }

  /** A POST made on behalf of `body`: apart from "sid" it is `body`; with a
      token held its one "sid" is that token; without one it is `body` as it
      was given. */
  ghost predicate Carries(p: Posted, body: Object) {
    && p.request - {SessionField} == body - {SessionField}
    && (p.heldToken.Some? ==> SessionField in p.request && p.request[SessionField] == JString(p.heldToken.value))
    && (p.heldToken.None? ==> p.request == body)
  }

  /** Every POST of a call is the caller's request or the login request, each
      carrying the token held at that moment; once a token is held, no later
      POST goes out without one. */
  ghost predicate PostsFor(settings: Settings, body: Object, before: Session, after: Session) {
    && (forall p :: p in NewPosts(before, after) ==> Carries(p, body) || Carries(p, LoginRequest(settings)))
    && (before.token.Some? ==> forall p :: p in NewPosts(before, after) ==> p.heldToken.Some?)
  }

  lemma {:induction false} QueryPosts(settings: Settings, s: Session, json: Object)
    ensures PostsFor(settings, json, s, Query(settings, s, json).0)
    decreases |s.pending|, 3
  {
    if settings.instanceUri.Some? {
      SendPosts(settings, s, WithSession(s.token, json), json);
    }
  }

  /** The request as first posted carries the caller's request. */
  lemma FirstPostCarries(token: Option<string>, json: Object)
    ensures Carries(Posted(WithSession(token, json), token), json)
  {
  }

  /** A POST that carries a request with a token also carries what that
      request was before the token was attached. */
  lemma CarriesBeneath(p: Posted, request: Object, json: Object)
    requires request - {SessionField} == json - {SessionField}
    requires Carries(p, request) && p.heldToken.Some?
    ensures Carries(p, json)
  {
  }

  /** The posts of two consecutive stretches, the second made for a request
      that is `json` with a token attached, all carry `json` or the login. */
  lemma PostsForJoin(settings: Settings, json: Object, request: Object, a: Session, b: Session, c: Session)
    requires a.sent <= b.sent <= c.sent && b.token == a.token
    requires request - {SessionField} == json - {SessionField}
    requires PostsFor(settings, json, a, b) && PostsFor(settings, request, b, c)
    requires forall p :: p in NewPosts(b, c) && !Carries(p, LoginRequest(settings)) ==> p.heldToken.Some?
    ensures PostsFor(settings, json, a, c)
  {
  }

  lemma {:induction false} SendPosts(settings: Settings, s: Session, request: Object, json: Object)
    requires request == WithSession(s.token, json)
    ensures PostsFor(settings, json, s, Send(settings, s, request).0)
    decreases |s.pending|, 2
  {
    var first := Posted(request, s.token);
    FirstPostCarries(s.token, json);
    var s1 := Session(s.token, if s.pending == [] then [] else s.pending[1..], s.sent + [first]);
    assert NewPosts(s, s1) == [first];
    assert PostsFor(settings, json, s, s1);
    SendStep(settings, s, request);
    if s.pending != [] {
      var verdict := Classify(s.pending[0]);
      RespondPosts(settings, s1, request, verdict);
      PostsForJoin(settings, json, request, s, s1, Respond(settings, s1, request, verdict).0);
    }
  }

  /** The POSTs a verdict leads to carry the request only with a token. */
  lemma {:induction false} RespondPosts(settings: Settings, s: Session, request: Object, verdict: Verdict)
    ensures var t := Respond(settings, s, request, verdict).0;
            && PostsFor(settings, request, s, t)
            && forall p :: p in NewPosts(s, t) && !Carries(p, LoginRequest(settings)) ==> p.heldToken.Some?
    decreases |s.pending| + 1, 1
  {
    if verdict == Relogin {
      var (s2, login) := Login(settings, s);
      LoginPosts(settings, s);
      if login.Success? {
        var (s3, dropped) := Query(settings, s2, request);
        QueryPosts(settings, s2, request);
        AdvancesTransitive(s, s2, s3);
        if dropped.Success? {
          var t := Query(settings, s3, request).0;
          QueryPosts(settings, s3, request);
          AdvancesTransitive(s, s3, t);
          forall p | p in NewPosts(s, t)
            ensures Carries(p, request) || Carries(p, LoginRequest(settings))
            ensures s.token.Some? ==> p.heldToken.Some?
            ensures !Carries(p, LoginRequest(settings)) ==> p.heldToken.Some?
          {
            NewPostsSplit(s, s3, t, p);
            if p in NewPosts(s, s3) {
              NewPostsSplit(s, s2, s3, p);
            }
          }
        } else {
          forall p | p in NewPosts(s, s3)
            ensures Carries(p, request) || Carries(p, LoginRequest(settings))
            ensures s.token.Some? ==> p.heldToken.Some?
            ensures !Carries(p, LoginRequest(settings)) ==> p.heldToken.Some?
          {
            NewPostsSplit(s, s2, s3, p);
          }
        }
      }
    }
  }

  lemma {:induction false} LoginPosts(settings: Settings, s: Session)
    ensures var t := Login(settings, s).0;
            && (forall p :: p in NewPosts(s, t) ==> Carries(p, LoginRequest(settings)))
            && (s.token.Some? ==> forall p :: p in NewPosts(s, t) ==> p.heldToken.Some?)
    decreases |s.pending|, 4
  {
    var t := Query(settings, s, LoginRequest(settings)).0;
    QueryPosts(settings, s, LoginRequest(settings));
    assert NewPosts(s, Login(settings, s).0) == NewPosts(s, t);
  }

  /** Token injection for a whole call of QueryApi: every POST is the
      caller's request or the login request apart from "sid"; each POST made
      while a token is held has exactly that token as its one "sid"; and a
      request the caller sends without a "sid" leaves without one while no
      token is held. */
  lemma TokenInjection(settings: Settings, s: Session, json: Object)
    requires SessionField !in json
    ensures var t := Query(settings, s, json).0;
            forall p :: p in NewPosts(s, t) ==>
              && (p.request - {SessionField} == json - {SessionField}
                  || p.request - {SessionField} == LoginRequest(settings))
              && (p.heldToken.Some? <==> SessionField in p.request)
              && (p.heldToken.Some? ==> p.request[SessionField] == JString(p.heldToken.value))
  {
    QueryPosts(settings, s, json);
    var t := Query(settings, s, json).0;
    forall p | p in NewPosts(s, t)
      ensures p.request - {SessionField} == json - {SessionField}
              || p.request - {SessionField} == LoginRequest(settings)
      ensures p.heldToken.Some? <==> SessionField in p.request
      ensures p.heldToken.Some? ==> p.request[SessionField] == JString(p.heldToken.value)
    {
      CarriedShape(settings, p, json);
    }
  }

  /** What carrying a request without a "sid", or the login request, means
      for one POST. */
  lemma CarriedShape(settings: Settings, p: Posted, json: Object)
    requires SessionField !in json
    requires Carries(p, json) || Carries(p, LoginRequest(settings))
    ensures p.request - {SessionField} == json - {SessionField}
            || p.request - {SessionField} == LoginRequest(settings)
    ensures p.heldToken.Some? <==> SessionField in p.request
    ensures p.heldToken.Some? ==> p.request[SessionField] == JString(p.heldToken.value)
  {
  }

  // ---------------------------------------------------------------------
  // What a successful call hands back.

  lemma AdvancedPending(a: Session, b: Session, x: Reply)
    requires Advances(a, b) && x in b.pending
    ensures x in a.pending
  {
  }

  /** A call that succeeds returns one of the server's replies, and one the
      client accepts: status 0, or an error other than NOT_LOGGED_IN and
      LOGIN_ERROR. A NOT_LOGGED_IN reply never reaches the caller. */
  lemma {:induction false} QueryReturnsAccepted(settings: Settings, s: Session, json: Object)
    ensures var r := Query(settings, s, json).1;
            r.Success? ==> Body(JObject(r.value)) in s.pending && Classify(Body(JObject(r.value))) == Done(r.value)
    decreases |s.pending|, 3
  {
    if settings.instanceUri.Some? {
      SendReturnsAccepted(settings, s, WithSession(s.token, json));
    }
  }

  lemma {:induction false} SendReturnsAccepted(settings: Settings, s: Session, request: Object)
    ensures var r := Send(settings, s, request).1;
            r.Success? ==> Body(JObject(r.value)) in s.pending && Classify(Body(JObject(r.value))) == Done(r.value)
    decreases |s.pending|, 2
  {
    if s.pending != [] {
      var s1 := s.(sent := s.sent + [Posted(request, s.token)], pending := s.pending[1..]);
      var verdict := Classify(s.pending[0]);
      RespondReturnsAccepted(settings, s1, request, verdict);
      var r := Respond(settings, s1, request, verdict).1;
      if r.Success? && verdict.Relogin? {
        AdvancedPending(s, s1, Body(JObject(r.value)));
      }
    }
  }

  lemma {:induction false} RespondReturnsAccepted(settings: Settings, s: Session, request: Object, verdict: Verdict)
    ensures var r := Respond(settings, s, request, verdict).1;
            && (verdict.Done? ==> r == Success(verdict.response))
            && (verdict.Relogin? && r.Success? ==> Body(JObject(r.value)) in s.pending && Classify(Body(JObject(r.value))) == Done(r.value))
    decreases |s.pending| + 1, 1
  {
    if verdict == Relogin {
      var (s2, login) := Login(settings, s);
      if login.Success? {
        var (s3, dropped) := Query(settings, s2, request);
        if dropped.Success? {
          var r := Query(settings, s3, request).1;
          QueryReturnsAccepted(settings, s3, request);
          AdvancesTransitive(s, s2, s3);
          if r.Success? {
            AdvancedPending(s, s3, Body(JObject(r.value)));
          }
        }
      }
    }
  }
}
