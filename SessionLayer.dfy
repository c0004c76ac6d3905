/** The session layer of TTRssDataSource as pure functions: QueryApi
    (`Query`) and GetToken (`Login`) over an explicit session value. The
    methods of DataSource.TTRssDataSource are proved to compute exactly these
    functions, and SessionProperties proves what they promise. */
module SessionLayer {
  import opened Json

  /** The three read-only settings the client consults. */
  datatype Settings = Settings(instanceUri: Option<string>, username: string, password: string)

  /** The server base URI as concatenated into icon paths: `instanceUri`
      stands for the text InstanceUri.ToString() prints (System.Uri's
      normalised form, e.g. with a trailing "/" after a bare host), and
      concatenating a null Uri in C# gives "". */
  function UriText(settings: Settings): string {
    if settings.instanceUri.Some? then settings.instanceUri.value else ""
  }

  /** One HTTP response body, as JsonObject.TryParse sees it. */
  datatype Reply = Body(doc: Json) | Unparsable

  /** One POST: the request as serialised, and the token the client held
      when it sent it. */
  datatype Posted = Posted(request: Object, heldToken: Option<string>)

  /** The client's session token, the server's replies still to come (one is
      consumed per POST), and every request sent so far. */
  datatype Session = Session(token: Option<string>, pending: seq<Reply>, sent: seq<Posted>)

  const SessionField := "sid"
  const NotLoggedIn := "NOT_LOGGED_IN"
  const LoginFailed := "LOGIN_ERROR"

  /** The request as it leaves the client: with a token held, its "sid" is
      replaced by the token (removed first, then added); without one the
      request is left as it is. Nothing but "sid" is touched. */
  function WithSession(token: Option<string>, json: Object): (r: Object)
    ensures token.None? ==> r == json
    ensures token.Some? ==> SessionField in r && r[SessionField] == JString(token.value)
    ensures r - {SessionField} == json - {SessionField}
    ensures r.Keys == if token.Some? then json.Keys + {SessionField} else json.Keys
  {
    if token.Some? then
      var removed := if SessionField in json then json - {SessionField} else json;
      removed[SessionField := JString(token.value)]
    else
      json
  }

  /** What the client makes of one reply. */
  datatype Verdict =
    | Done(response: Object)   // returned to the caller as it is
    | Relogin                  // NOT_LOGGED_IN: log in and send again
    | Rejected(error: Error)   // raised to the caller

  /** The error code of a response whose status is not 0. */
  function ErrorCode(response: Object): Result<string> {
    var content :- GetNamedObject(response, "content");
    GetNamedString(content, "error")
  }

  /** A response whose status is a number other than 0. */
  predicate NonZeroStatus(response: Object) {
    GetNamedNumber(response, "status").Success? && GetNamedNumber(response, "status").value != 0
  }

  /** QueryApi's reading of a reply: a body that is not a JSON object is
      "Not JSON"; status 0 is success; a non-zero status is classified by
      content.error, and any code other than NOT_LOGGED_IN and LOGIN_ERROR
      leaves the response to the caller. */
  function Classify(reply: Reply): (v: Verdict)
    ensures v.Done? ==> reply == Body(JObject(v.response))
    ensures v == Relogin <==>
              && reply.Body? && reply.doc.JObject?
              && NonZeroStatus(reply.doc.fields)
              && ErrorCode(reply.doc.fields) == Success(NotLoggedIn)
    ensures v.Done? <==>
              && reply.Body? && reply.doc.JObject?
              && GetNamedNumber(reply.doc.fields, "status").Success?
              && (|| GetNamedNumber(reply.doc.fields, "status").value == 0
                  || (&& ErrorCode(reply.doc.fields).Success?
                      && ErrorCode(reply.doc.fields).value != NotLoggedIn
                      && ErrorCode(reply.doc.fields).value != LoginFailed))
  {
    if !(reply.Body? && reply.doc.JObject?) then Rejected(InvalidConfiguration("Not JSON"))
    else
      var response := reply.doc.fields;
      match GetNamedNumber(response, "status")
      case Failure(e) => Rejected(e)
      case Success(status) =>
        if status == 0 then Done(response)
        else
          match ErrorCode(response)
          case Failure(e) => Rejected(e)
          case Success(code) =>
            if code == NotLoggedIn then Relogin
            else if code == LoginFailed then Rejected(InvalidConfiguration("Login error"))
            else Done(response)
  }

  /** The session may only move forward: replies are consumed from the front
      of the script, requests are appended to the log, and a token once held
      is never dropped. */
  ghost predicate Advances(before: Session, after: Session) {
    && |after.pending| <= |before.pending|
    && after.pending == before.pending[|before.pending| - |after.pending|..]
    && before.sent <= after.sent
    && (before.token.Some? ==> after.token.Some?)
  }

  lemma AdvancesTransitive(a: Session, b: Session, c: Session)
    requires Advances(a, b) && Advances(b, c)
    ensures Advances(a, c)
  {
  }

  /** QueryApi(json): attach the session id, refuse to run without a server
      URI, then send. */
  function Query(settings: Settings, s: Session, json: Object): (r: (Session, Result<Object>))
    ensures Advances(s, r.0)
    decreases |s.pending|, 3
  {
    if settings.instanceUri.None? then (s, Failure(InvalidConfiguration("URI not set")))
    else Send(settings, s, WithSession(s.token, json))
  }

  /** One POST of the request and the reading of its reply. */
  function Send(settings: Settings, s: Session, request: Object): (r: (Session, Result<Object>))
    ensures Advances(s, r.0)
    decreases |s.pending|, 2
  {
    var posted := s.(sent := s.sent + [Posted(request, s.token)]);
    if s.pending == [] then (posted, Failure(NoResponse))
    else
      var s1 := posted.(pending := s.pending[1..]);
      assert Advances(s, s1);
      var r := Respond(settings, s1, request, Classify(s.pending[0]));
      AdvancesTransitive(s, s1, r.0);
      r
  }

  /** What a verdict leads to. NOT_LOGGED_IN logs in, re-sends the request
      once through a recursive call whose response is dropped (its failure is
      not), and then sends it again. */
  function Respond(settings: Settings, s: Session, request: Object, verdict: Verdict): (r: (Session, Result<Object>))
    ensures Advances(s, r.0)
    decreases |s.pending| + 1, 1
  {
    match verdict
    case Done(response) => (s, Success(response))
    case Rejected(e) => (s, Failure(e))
    case Relogin =>
      var (s2, login) := Login(settings, s);
      if login.Failure? then (s2, Failure(login.error))
      else
        var (s3, dropped) := Query(settings, s2, request);
        AdvancesTransitive(s, s2, s3);
        if dropped.Failure? then (s3, Failure(dropped.error))
        else
          var r := Query(settings, s3, request);
          AdvancesTransitive(s, s3, r.0);
          r
  }

  /** The request GetToken sends. */
  function LoginRequest(settings: Settings): Object {
    map["op" := JString("login"), "user" := JString(settings.username), "password" := JString(settings.password)]
  }

  /** content.session_id of a login response. */
  function SessionId(response: Object): Result<string> {
    var content :- GetNamedObject(response, "content");
    GetNamedString(content, "session_id")
  }

  /** GetToken: query "login" with the stored credentials and keep
      content.session_id as the new token. */
  function Login(settings: Settings, s: Session): (r: (Session, Result<string>))
    ensures Advances(s, r.0)
    ensures r.1.Success? ==> r.0.token == Some(r.1.value)
    decreases |s.pending|, 4
  {
    var (s1, response) := Query(settings, s, LoginRequest(settings));
    if response.Failure? then (s1, Failure(response.error))
    else
      match SessionId(response.value)
      case Failure(e) => (s1, Failure(e))
      case Success(id) => (s1.(token := Some(id)), Success(id))
  }
}
