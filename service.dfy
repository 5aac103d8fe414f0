/** The service's process-wide session slot and the entry points that use it: starting a
    flow, completing it from the callback, and the debug path that stores a token directly. */
module ServicesAuth {
  import opened AuthTypes
  import opened Strings
  import opened Session
  import opened Exchange
  import opened Tokens

  /** Reply of the init flow: the URL to open and whether it is an https URL. */
  datatype InitReply = InitReply(url: string, secureURL: bool)

  /** Input of the debug path: a token response to store as it is, with its issuer. */
  datatype DebugTokenRequest = DebugTokenRequest(authenticationURL: string, token: TokenResponse)

  class AuthService {
    /** The library functions and constants the service is built with. */
    const env: Env
    /** The single session slot; every successful init overwrites it, nothing clears it. */
    var session: Option<AuthSession>
    /** Every code-for-token request sent, in order. */
    ghost var exchanges: seq<ExchangeRequest>
    /** Every token handed to the metadata store's append, in order. */
    ghost var appended: seq<ServiceToken>
    /** Every push registration attempt, in order. */
    ghost var pushLog: seq<PushStep>

    constructor (env: Env)
      ensures this.env == env && session == None
      ensures exchanges == [] && appended == [] && pushLog == []
    {
      this.env := env;
      session := None;
      exchanges := [];
      appended := [];
      pushLog := [];
    }

    /** authInitURL: checks the base URL, draws the session, stores it only once every
        step has succeeded, and returns the authorization URL. */
    method AuthInitURL(baseURL: string, stateNonce: Result<seq<byte>, string>,
                       verifierNonce: Result<seq<byte>, string>)
      returns (r: Result<string, AuthError>)
      modifies this`session
      ensures !AcceptableBaseURL(env, baseURL) ==> r == Failure(InvalidURL)
      ensures AcceptableBaseURL(env, baseURL) && stateNonce.Failure? ==>
                r == Failure(RandomSource(stateNonce.error))
      ensures AcceptableBaseURL(env, baseURL) && stateNonce.Success? && verifierNonce.Failure? ==>
                r == Failure(RandomSource(verifierNonce.error))
      ensures r.Failure? ==> session == old(session)
      ensures r.Success? <==> AcceptableBaseURL(env, baseURL) && stateNonce.Success? && verifierNonce.Success?
      ensures r.Success? ==>
                && session == Some(AuthSession(env.base64Url(stateNonce.value),
                                               env.base64Url(verifierNonce.value),
                                               TrimSlash(baseURL)))
                && r.value == AuthorizeURL(env, session.value, CodeChallenge(env, session.value.codeVerifier))
    {
      var checked := CheckBaseURL(env, baseURL);
      if checked.Failure? {
        return Failure(checked.error);
      }
      var trimmed := checked.value;
      var created := NewAuthSession(env, trimmed, stateNonce, verifierNonce);
      if created.Failure? {
        return Failure(created.error);
      }
      var auth, challenge := created.value.0, created.value.1;
      session := Some(auth);
      r := Success(AuthorizeURL(env, auth, challenge));
    }

    /** AuthServiceInitFlow */
    method InitFlow(authURL: string, stateNonce: Result<seq<byte>, string>,
                    verifierNonce: Result<seq<byte>, string>)
      returns (r: Result<InitReply, AuthError>)
      modifies this`session
      ensures !AcceptableBaseURL(env, authURL) ==> r == Failure(InvalidURL)
      ensures AcceptableBaseURL(env, authURL) && stateNonce.Failure? ==>
                r == Failure(RandomSource(stateNonce.error))
      ensures AcceptableBaseURL(env, authURL) && stateNonce.Success? && verifierNonce.Failure? ==>
                r == Failure(RandomSource(verifierNonce.error))
      ensures r.Failure? ==> session == old(session)
      ensures r.Success? <==> AcceptableBaseURL(env, authURL) && stateNonce.Success? && verifierNonce.Success?
      ensures r.Success? ==>
                && session == Some(AuthSession(env.base64Url(stateNonce.value),
                                               env.base64Url(verifierNonce.value),
                                               TrimSlash(authURL)))
                && r.value.url == AuthorizeURL(env, session.value, CodeChallenge(env, session.value.codeVerifier))
                && r.value.secureURL == IsSecureURL(r.value.url)
    {
      var u := AuthInitURL(authURL, stateNonce, verifierNonce);
      if u.Failure? {
        return Failure(u.error);
      }
      r := Success(InitReply(u.value, HasPrefix(u.value, "https://")));
    }

    /** The push loop: for every listed service of the push type, connect, fetch the
        server key and register the server; a failing step is logged and the loop goes on. */
    method RegisterPush(token: ServiceToken, push: PushOracles)
      modifies this`pushLog
      ensures pushLog == old(pushLog) + PushTrace(push, env.pushServiceID, token.token, token.supportedServices)
    {
      var services := token.supportedServices;
      var i := 0;
      while i < |services|
        invariant 0 <= i <= |services|
        invariant pushLog == old(pushLog) + PushTrace(push, env.pushServiceID, token.token, services[..i])
      {
        var service := services[i];
        assert services[..i + 1][..i] == services[..i];
        if service.serviceType != env.pushServiceID {
          i := i + 1;
          continue;
        }
        if !push.connect(service.serviceEndpoint, token.token) {
          pushLog := pushLog + [ConnectFailed(service.serviceEndpoint)];
          i := i + 1;
          continue;
        }
        var info := push.serverInfo(service.serviceEndpoint);
        if info.None? {
          pushLog := pushLog + [InfoFailed(service.serviceEndpoint)];
          i := i + 1;
          continue;
        }
        var server := PushServer(info.value, service.serviceEndpoint);
        var ok := push.setServer(server);
        pushLog := pushLog + [SetServer(server, ok)];
        i := i + 1;
      }
      assert services[..i] == services;
    }

    /** AuthServiceCompleteFlow. `exchange` gives the HTTP outcome of a request, `append`
        the metadata store's answer to a token, `push` the push collaborator's answers.
        The callback checks precede any request; the response checks precede any append;
        once the append succeeds the token ID is returned whatever push does. The slot is
        read and never cleared. */
    method CompleteFlow(callbackURL: string, exchange: ExchangeRequest -> ExchangeOutcome,
                        append: ServiceToken -> Outcome, push: PushOracles)
      returns (r: Result<string, AuthError>)
      modifies this`exchanges, this`appended, this`pushLog
      ensures session == old(session)
      ensures var v := CheckCallback(env, callbackURL, old(session));
              if v.Failure? then
                && r == Failure(v.error)
                && exchanges == old(exchanges) && appended == old(appended) && pushLog == old(pushLog)
              else
                var req := ExchangeRequestFor(env, v.value.session, v.value.code);
                var checked := CheckExchange(env, exchange(req));
                && exchanges == old(exchanges) + [req]
                && if checked.Failure? then
                     && r == Failure(checked.error)
                     && appended == old(appended) && pushLog == old(pushLog)
                   else
                     && |appended| == |old(appended)| + 1
                     && appended[..|old(appended)|] == old(appended)
                     && var t := appended[|old(appended)|];
                        && IssuedToken(t, checked.value.accessToken, v.value.session.baseURL,
                                       checked.value.services)
                        && if append(t).Fail? then
                             r == Failure(Persist(append(t).cause)) && pushLog == old(pushLog)
                           else
                             && r == Success(env.tokenID(t))
                             && pushLog == old(pushLog)
                                           + PushTrace(push, env.pushServiceID, t.token, t.supportedServices)
    {
      var v := CheckCallback(env, callbackURL, session);
      if v.Failure? {
        return Failure(v.error);
      }
      var code, auth := v.value.code, v.value.session;
      var req := ExchangeRequestFor(env, auth, code);
      exchanges := exchanges + [req];
      var checked := CheckExchange(env, exchange(req));
      if checked.Failure? {
        return Failure(checked.error);
      }
      var resp := checked.value;
      var token := MaterializeToken(resp.accessToken, auth.baseURL, resp.services);
      appended := appended + [token];
      var sent := append(token);
      if sent.Fail? {
        return Failure(Persist(sent.cause));
      }
      RegisterPush(token, push);
      r := Success(env.tokenID(token));
    }

    /** DebugAuthServiceSetToken: builds the token from the request without any check
        and appends it. */
    method DebugSetToken(request: DebugTokenRequest, append: ServiceToken -> Outcome)
      returns (r: Result<(), AuthError>)
      modifies this`appended
      ensures |appended| == |old(appended)| + 1 && appended[..|old(appended)|] == old(appended)
      ensures var t := appended[|old(appended)|];
              && IssuedToken(t, request.token.accessToken, request.authenticationURL, request.token.services)
              && r == (if append(t).Fail? then Failure(Persist(append(t).cause)) else Success(()))
    {
      var token := MaterializeToken(request.token.accessToken, request.authenticationURL,
                                    request.token.services);
      appended := appended + [token];
      var sent := append(token);
      if sent.Fail? {
        return Failure(Persist(sent.cause));
      }
      r := Success(());
    }
  }

  /** Two inits in a row, then a callback carrying the first session's state: the callback
      is refused with WrongState, and `sent`, the service's log of exchange requests, is
      empty. */
  method SupersededSessionRefused(env: Env, authURL: string, n1: seq<byte>, n2: seq<byte>,
                                  n3: seq<byte>, n4: seq<byte>, callbackURL: string,
                                  exchange: ExchangeRequest -> ExchangeOutcome,
                                  append: ServiceToken -> Outcome, push: PushOracles)
    returns (r: Result<string, AuthError>, ghost sent: seq<ExchangeRequest>)
    requires AcceptableBaseURL(env, authURL)
    requires env.base64Url(n1) != env.base64Url(n3)
    requires env.parseURL(callbackURL).Some?
    requires QueryGet(env.parseURL(callbackURL).value.query, "error") == ""
    requires QueryGet(env.parseURL(callbackURL).value.query, "state") == env.base64Url(n1)
    ensures r == Failure(WrongState)
    ensures sent == []
  {
    var svc := new AuthService(env);
    var first := svc.InitFlow(authURL, Success(n1), Success(n2));
    var second := svc.InitFlow(authURL, Success(n3), Success(n4));
    r := svc.CompleteFlow(callbackURL, exchange, append, push);
    sent := svc.exchanges;
  }
}
