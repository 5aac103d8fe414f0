/** The PKCE session: the code verifier and its S256 challenge (RFC 7636 sections 4.1 and
    4.2), the session record, the base-URL checks of the init flow, and the authorization
    request URL (RFC 6749 section 4.1.1, RFC 7636 section 4.3). */
module Session {
  import opened AuthTypes
  import opened Strings

  /** The parked state of one authorization flow; `baseURL` carries no trailing slash
      the caller had written once. */
  datatype AuthSession = AuthSession(state: string, codeVerifier: string, baseURL: string)

  /** BASE64URL(SHA256(bytes of the verifier string)): the challenge is taken over the
      encoded verifier the client will later send, not over the raw random bytes. */
  function CodeChallenge(env: Env, verifier: string): string
  {
    env.base64Url(env.sha256(env.utf8(verifier)))
  }

  /** The element-by-element copy of a fixed-size byte array into a fresh slice. */
  method CopyBytes(src: seq<byte>) returns (dst: seq<byte>)
    ensures dst == src
  {
    var a := new byte[|src|];
    var i := 0;
    while i < |src|
      invariant 0 <= i <= |src|
      invariant a[..i] == src[..i]
    {
      a[i] := src[i];
      i := i + 1;
    }
    dst := a[..];
  }

  /** authSessionCodeChallenge */
  method ComputeCodeChallenge(env: Env, verifier: string) returns (challenge: string)
    ensures challenge == env.base64Url(env.sha256(env.utf8(verifier)))
  {
    var digest := env.sha256(env.utf8(verifier));
    var bytes := CopyBytes(digest);
    challenge := env.base64Url(bytes);
  }

  /** authSessionCodeVerifierAndChallenge: `nonce` is what the random source produced. */
  method VerifierAndChallenge(env: Env, nonce: Result<seq<byte>, string>)
    returns (r: Result<(string, string), AuthError>)
    ensures nonce.Failure? ==> r == Failure(RandomSource(nonce.error))
    ensures nonce.Success? ==> r.Success? && r.value.0 == env.base64Url(nonce.value)
    ensures r.Success? ==> r.value.1 == CodeChallenge(env, r.value.0)
  {
    if nonce.Failure? {
      return Failure(RandomSource(nonce.error));
    }
    var bytes := CopyBytes(nonce.value);
    var verifier := env.base64Url(bytes);
    var challenge := ComputeCodeChallenge(env, verifier);
    r := Success((verifier, challenge));
  }

  /** newAuthSession: the state nonce is drawn first, then the verifier nonce; the first
      failure is returned. On success, the session and the challenge of its verifier. */
  method NewAuthSession(env: Env, baseURL: string,
                        stateNonce: Result<seq<byte>, string>,
                        verifierNonce: Result<seq<byte>, string>)
    returns (r: Result<(AuthSession, string), AuthError>)
    ensures stateNonce.Failure? ==> r == Failure(RandomSource(stateNonce.error))
    ensures stateNonce.Success? && verifierNonce.Failure? ==>
              r == Failure(RandomSource(verifierNonce.error))
    ensures stateNonce.Success? && verifierNonce.Success? ==>
              r.Success? &&
              r.value.0 == AuthSession(env.base64Url(stateNonce.value),
                                       env.base64Url(verifierNonce.value), baseURL)
    ensures r.Success? ==> r.value.1 == CodeChallenge(env, r.value.0.codeVerifier)
  {
    if stateNonce.Failure? {
      return Failure(RandomSource(stateNonce.error));
    }
    var vc := VerifierAndChallenge(env, verifierNonce);
    if vc.Failure? {
      return Failure(vc.error);
    }
    var stateBytes := CopyBytes(stateNonce.value);
    var auth := AuthSession(env.base64Url(stateBytes), vc.value.0, baseURL);
    r := Success((auth, vc.value.1));
  }

  /** A base URL the flow accepts: it parses, its scheme is http or https, its host is set. */
  predicate AcceptableBaseURL(env: Env, baseURL: string)
  {
    match env.parseURL(baseURL)
    case None => false
    case Some(u) => (u.scheme == "http" || u.scheme == "https") && u.host != ""
  }

  /** The checks of authInitURL that precede the session: InvalidURL, or the base URL
      with one trailing slash removed. */
  function CheckBaseURL(env: Env, baseURL: string): (r: Result<string, AuthError>)
    ensures r.Success? <==> AcceptableBaseURL(env, baseURL)
    ensures r.Failure? ==> r.error == InvalidURL
    ensures r.Success? ==> r.value == TrimSlash(baseURL)
  {
    match env.parseURL(baseURL)
    case None => Failure(InvalidURL)
    case Some(u) =>
      if u.scheme != "http" && u.scheme != "https" then Failure(InvalidURL)
      else if u.host == "" then Failure(InvalidURL)
      else Success(TrimSlash(baseURL))
  }

  /** The request parameters of RFC 6749 section 4.1.1 and RFC 7636 section 4.3. */
  function AuthorizeParams(env: Env, s: AuthSession, challenge: string): seq<(string, string)>
  {
    [("response_type", ResponseType),
     ("client_id", ClientID),
     ("redirect_uri", env.queryEscape(Redirect)),
     ("state", s.state),
     ("code_challenge", challenge),
     ("code_challenge_method", ChallengeMethod)]
  }

  /** The part of the authorization URL before its query. */
  function AuthorizeEndpoint(env: Env, s: AuthSession): string
  {
    s.baseURL + env.authorizePath
  }

  /** The authorization URL as authInitURL formats it: its format string is the endpoint,
      `?`, and the six parameters above written `key=value` and joined by `&`, in order. */
  function AuthorizeURL(env: Env, s: AuthSession, challenge: string): string
  {
    AuthorizeEndpoint(env, s) + "?" + JoinQuery(AuthorizeParams(env, s, challenge))
  }

  /** The fixed keys and values of the authorization request hold no `&` or `=`. */
  lemma FixedPartsSafe()
    ensures QuerySafe("response_type") && QuerySafe(ResponseType)
    ensures QuerySafe("client_id") && QuerySafe(ClientID)
    ensures QuerySafe("redirect_uri") && QuerySafe("state") && QuerySafe("code_challenge")
    ensures QuerySafe("code_challenge_method") && QuerySafe(ChallengeMethod)
  {
    assert QuerySafe("response_type");
    assert QuerySafe("client_id");
    assert QuerySafe("redirect_uri");
    assert QuerySafe("state");
    assert QuerySafe("code_challenge");
    assert QuerySafe("code_challenge_method");
  }

  lemma AuthorizeParamsSafe(env: Env, s: AuthSession, challenge: string)
    requires QuerySafe(s.state) && QuerySafe(challenge) && QuerySafe(env.queryEscape(Redirect))
    ensures var ps := AuthorizeParams(env, s, challenge);
            forall i :: 0 <= i < |ps| ==> QuerySafe(ps[i].0) && QuerySafe(ps[i].1)
  {
    FixedPartsSafe();
    var ps := AuthorizeParams(env, s, challenge);
    forall i | 0 <= i < |ps| ensures QuerySafe(ps[i].0) && QuerySafe(ps[i].1) {
      if i == 0 { assert ps[i] == ("response_type", ResponseType); }
      else if i == 1 { assert ps[i] == ("client_id", ClientID); }
      else if i == 2 { assert ps[i] == ("redirect_uri", env.queryEscape(Redirect)); }
      else if i == 3 { assert ps[i] == ("state", s.state); }
      else if i == 4 { assert ps[i] == ("code_challenge", challenge); }
      else { assert ps[i] == ("code_challenge_method", ChallengeMethod); }
    }
  }

  /** The authorization URL is the endpoint, `?`, and a query that reads back as exactly
      the six parameters, provided the state, challenge and escaped redirect hold no `&`
      or `=` (base64url and percent-encoding never produce either). */
  lemma AuthorizeURLQuery(env: Env, s: AuthSession, challenge: string)
    requires QuerySafe(s.state) && QuerySafe(challenge) && QuerySafe(env.queryEscape(Redirect))
    ensures var u := AuthorizeURL(env, s, challenge);
            var e := AuthorizeEndpoint(env, s);
            |u| > |e| && u[..|e|] == e && u[|e|] == '?' &&
            ParseQuery(u[|e| + 1..]) == AuthorizeParams(env, s, challenge)
  {
    var ps := AuthorizeParams(env, s, challenge);
    var e := AuthorizeEndpoint(env, s);
    var u := AuthorizeURL(env, s, challenge);
    assert u == e + "?" + JoinQuery(ps);
    assert u[..|e|] == e && u[|e| + 1..] == JoinQuery(ps);
    AuthorizeParamsSafe(env, s, challenge);
    ParseJoinQuery(ps);
  }

  /** SecureURL of the init reply. */
  predicate IsSecureURL(u: string)
  {
    HasPrefix(u, "https://")
  }

  /** The authorization URL is reported secure exactly when the session's base URL starts
      with `https://` (for any base URL of at least that length). */
  lemma SecureURLFollowsBase(env: Env, s: AuthSession, challenge: string)
    ensures HasPrefix(s.baseURL, "https://") ==> IsSecureURL(AuthorizeURL(env, s, challenge))
    ensures |s.baseURL| >= |"https://"| && IsSecureURL(AuthorizeURL(env, s, challenge)) ==>
              HasPrefix(s.baseURL, "https://")
  {
  }
}
