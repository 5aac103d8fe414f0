/** The early-return checks of the complete flow: the callback against the parked session
    (RFC 6749 sections 4.1.2, 4.1.2.1 and 10.12), the code-for-token request (RFC 6749
    section 4.1.3, RFC 7636 section 4.5), and the checks on its response. */
module Exchange {
  import opened AuthTypes
  import opened Strings
  import opened Session

  /** A callback that passed the checks: its authorization code and the session it matched. */
  datatype Accepted = Accepted(code: string, session: AuthSession)

  /** The callback checks of AuthServiceCompleteFlow, in their order: the callback must
      parse; an `error` parameter is reported before the session is looked at; then the
      slot must hold a session whose state equals the callback's `state`. */
  function CheckCallback(env: Env, callbackURL: string, slot: Option<AuthSession>)
    : (r: Result<Accepted, AuthError>)
    ensures env.parseURL(callbackURL).None? ==> r == Failure(CallbackParse)
    ensures env.parseURL(callbackURL).Some? ==>
              var q := env.parseURL(callbackURL).value.query;
              (QueryGet(q, "error") != "" ==>
                 r == Failure(ServerError(Some(ServerDetail(QueryGet(q, "error"),
                                                            QueryGet(q, "error_description"))))))
              && (QueryGet(q, "error") == "" && slot.None? ==> r == Failure(NotInitialized))
              && (QueryGet(q, "error") == "" && slot.Some? ==>
                    (r.Success? <==> slot.value.state == QueryGet(q, "state"))
                    && (r.Failure? ==> r.error == WrongState))
    ensures r.Success? ==>
              && slot == Some(r.value.session)
              && r.value.code == QueryGet(env.parseURL(callbackURL).value.query, "code")
  {
    match env.parseURL(callbackURL)
    case None => Failure(CallbackParse)
    case Some(u) =>
      var e := QueryGet(u.query, "error");
      if e != "" then
        Failure(ServerError(Some(ServerDetail(e, QueryGet(u.query, "error_description")))))
      else
        var code, state := QueryGet(u.query, "code"), QueryGet(u.query, "state");
        match slot
        case None => Failure(NotInitialized)
        case Some(auth) =>
          if auth.state != state then Failure(WrongState)
          else Success(Accepted(code, auth))
  }

  /** A server-reported error in the callback decides the result whatever the slot holds. */
  lemma CallbackErrorBeforeSession(env: Env, callbackURL: string,
                                   a: Option<AuthSession>, b: Option<AuthSession>)
    requires env.parseURL(callbackURL).Some?
    requires QueryGet(env.parseURL(callbackURL).value.query, "error") != ""
    ensures CheckCallback(env, callbackURL, a) == CheckCallback(env, callbackURL, b)
    ensures CheckCallback(env, callbackURL, a).Failure?
    ensures CheckCallback(env, callbackURL, a).error.ServerError?
  {
  }

  /** A callback carrying an earlier session's state is refused once a session with a
      different state has replaced it. */
  lemma SupersededStateRefused(env: Env, callbackURL: string, first: AuthSession, second: AuthSession)
    requires env.parseURL(callbackURL).Some?
    requires QueryGet(env.parseURL(callbackURL).value.query, "error") == ""
    requires QueryGet(env.parseURL(callbackURL).value.query, "state") == first.state
    requires first.state != second.state
    ensures CheckCallback(env, callbackURL, Some(first)).Success?
    ensures CheckCallback(env, callbackURL, Some(second)) == Failure(WrongState)
  {
  }

  /** The form POSTed to the token endpoint. */
  function ExchangeForm(code: string, verifier: string): map<string, seq<string>>
  {
    map["grant_type" := [GrantType], "code" := [code],
        "client_id" := [ClientID], "code_verifier" := [verifier]]
  }

  /** The code-for-token request: posted to the session's base URL followed by the
      token-exchange path, with exactly the four form fields, each with one value. */
  function ExchangeRequestFor(env: Env, auth: AuthSession, code: string): (req: ExchangeRequest)
    ensures req.endpoint == auth.baseURL + env.tokenExchangePath
    ensures req.form.Keys == {"grant_type", "code", "client_id", "code_verifier"}
    ensures forall k :: k in req.form ==> |req.form[k]| == 1
    ensures QueryGet(req.form, "grant_type") == GrantType
    ensures QueryGet(req.form, "code") == code
    ensures QueryGet(req.form, "client_id") == ClientID
    ensures QueryGet(req.form, "code_verifier") == auth.codeVerifier
  {
    ExchangeRequest(auth.baseURL + env.tokenExchangePath, ExchangeForm(code, auth.codeVerifier))
  }

  /** PKCE binding: recomputing the S256 challenge from the verifier the exchange sends
      gives the `code_challenge` parameter of the session's authorization URL. */
  lemma ExchangeVerifierMatchesChallenge(env: Env, auth: AuthSession, code: string)
    ensures
      var sent := QueryGet(ExchangeRequestFor(env, auth, code).form, "code_verifier");
      var ps := AuthorizeParams(env, auth, CodeChallenge(env, auth.codeVerifier));
      ps[4].0 == "code_challenge" && ps[4].1 == CodeChallenge(env, sent)
  {
  }

  /** The same binding read off the authorization URL itself: the fifth parameter its query
      parses to is `code_challenge` with the challenge of the verifier the exchange sends. */
  lemma ExchangeVerifierMatchesURL(env: Env, auth: AuthSession, code: string)
    requires QuerySafe(auth.state) && QuerySafe(CodeChallenge(env, auth.codeVerifier))
    requires QuerySafe(env.queryEscape(Redirect))
    ensures
      var sent := QueryGet(ExchangeRequestFor(env, auth, code).form, "code_verifier");
      var u := AuthorizeURL(env, auth, CodeChallenge(env, auth.codeVerifier));
      var e := AuthorizeEndpoint(env, auth);
      |u| > |e| && |ParseQuery(u[|e| + 1..])| == 6 &&
      ParseQuery(u[|e| + 1..])[4] == ("code_challenge", CodeChallenge(env, sent))
  {
    AuthorizeURLQuery(env, auth, CodeChallenge(env, auth.codeVerifier));
  }

  /** The checks on the token-exchange outcome, in their order: transport error, status of
      300 or more, body read error, decode error, server `error`, empty access token,
      empty services. */
  function CheckExchange(env: Env, outcome: ExchangeOutcome): (r: Result<TokenResponse, AuthError>)
    ensures outcome.TransportError? ==> r == Failure(StreamWrite)
    ensures outcome.HttpResponse? && outcome.status >= 300 ==>
              r == Failure(InvalidResponse(BadStatus(outcome.status)))
    ensures r.Success? ==>
              && outcome.HttpResponse? && outcome.status < 300 && outcome.body.Some?
              && env.unmarshal(outcome.body.value) == Some(r.value)
              && r.value.error == ""
              && r.value.accessToken != ""
              && |r.value.services| > 0
    ensures (outcome.HttpResponse? && outcome.status < 300 && outcome.body.None?) ==>
              r == Failure(StreamRead)
    ensures (outcome.HttpResponse? && outcome.status < 300 && outcome.body.Some?
             && env.unmarshal(outcome.body.value).None?) ==>
              r == Failure(Deserialization)
    ensures (outcome.HttpResponse? && outcome.status < 300 && outcome.body.Some?
             && env.unmarshal(outcome.body.value).Some?
             && env.unmarshal(outcome.body.value).value.error != "") ==>
              r == Failure(ServerError(None))
    ensures (outcome.HttpResponse? && outcome.status < 300 && outcome.body.Some?
             && env.unmarshal(outcome.body.value).Some?
             && env.unmarshal(outcome.body.value).value.error == ""
             && env.unmarshal(outcome.body.value).value.accessToken == "") ==>
              r == Failure(InvalidResponse(MissingAccessToken))
    ensures (outcome.HttpResponse? && outcome.status < 300 && outcome.body.Some?
             && env.unmarshal(outcome.body.value).Some?
             && env.unmarshal(outcome.body.value).value.error == ""
             && env.unmarshal(outcome.body.value).value.accessToken != ""
             && |env.unmarshal(outcome.body.value).value.services| == 0) ==>
              r == Failure(InvalidResponse(NoServices))
    ensures (outcome.HttpResponse? && outcome.status < 300 && outcome.body.Some?
             && env.unmarshal(outcome.body.value).Some?
             && var resp := env.unmarshal(outcome.body.value).value;
                resp.error == "" && resp.accessToken != "" && |resp.services| > 0) ==> r.Success?
  {
    match outcome
    case TransportError => Failure(StreamWrite)
    case HttpResponse(status, body) =>
      if status >= 300 then Failure(InvalidResponse(BadStatus(status)))
      else
        match body
        case None => Failure(StreamRead)
        case Some(bytes) =>
          match env.unmarshal(bytes)
          case None => Failure(Deserialization)
          case Some(resp) =>
            if resp.error != "" then Failure(ServerError(None))
            else if resp.accessToken == "" then Failure(InvalidResponse(MissingAccessToken))
            else if |resp.services| == 0 then Failure(InvalidResponse(NoServices))
            else Success(resp)
  }

  /** A body that decodes with a server `error` is refused as ServerError, and the
      server's message is not carried (the error wrapped is the nil read error). */
  lemma ResponseServerError(env: Env, status: int, bytes: seq<byte>)
    requires status < 300
    requires env.unmarshal(bytes).Some? && env.unmarshal(bytes).value.error != ""
    ensures CheckExchange(env, HttpResponse(status, Some(bytes))) == Failure(ServerError(None))
  {
  }

  /** The missing access token is reported before missing services, whatever the services. */
  lemma MissingTokenBeforeNoServices(env: Env, status: int, bytes: seq<byte>)
    requires status < 300
    requires env.unmarshal(bytes).Some?
    requires env.unmarshal(bytes).value.error == "" && env.unmarshal(bytes).value.accessToken == ""
    ensures CheckExchange(env, HttpResponse(status, Some(bytes)))
            == Failure(InvalidResponse(MissingAccessToken))
  {
  }

  /** Reading the body, decoding it and the content checks are only reached below status 300:
      at 300 and above the status decides, whatever the body. */
  lemma StatusBeforeBody(env: Env, status: int, a: Option<seq<byte>>, b: Option<seq<byte>>)
    requires status >= 300
    ensures CheckExchange(env, HttpResponse(status, a)) == CheckExchange(env, HttpResponse(status, b))
  {
  }
}
