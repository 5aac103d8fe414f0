# Services authentication: a PKCE authorization-code client, modelled in Dafny

This project models the client side of the OAuth 2.0 authorization-code flow with PKCE
(RFC 6749, RFC 7636) that the protocol service of weshnet/berty runs to obtain a
services token (`go/pkg/bertyprotocol/api_services_auth.go`).

- **Init flow** (`authInitURL`, `AuthServiceInitFlow`). The base URL is checked: it must
  parse, its scheme must be `http` or `https`, and its host must be set. One trailing `/`
  is removed. Then a session is drawn: the state and the code verifier are base64url
  encodings of two random nonces, and the challenge is `BASE64URL(SHA256(bytes(verifier)))`.
  Only after every step has succeeded is the session stored in the service's single slot,
  replacing any earlier one. The authorization URL carries `response_type=code`,
  `client_id=berty`, the escaped redirect URI, the state, the challenge and
  `code_challenge_method=S256`. `SecureURL` says whether that URL starts with `https://`.
- **Complete flow** (`AuthServiceCompleteFlow`). The checks run in a fixed order and the
  first failure is returned:
  1. the callback must parse;
  2. an `error` parameter is reported before the slot is consulted;
  3. the slot must hold a session;
  4. the callback's `state` must equal the session's state.

  Only then is the code-for-token request posted. Its response is checked in order:
  transport error, status 300 or more, body read error, decode error, server `error`,
  empty access token, empty services (a JSON `null` body is the one exception, see
  "Left out"). The services map becomes a list, and the token
  (expiration -1) is appended to the metadata store. Push registration is then attempted
  for every push service, best effort, and the token ID is returned.
- **Debug path** (`DebugAuthServiceSetToken`), which builds and appends a token straight
  from its request.

The session slot is a field of the class `ServicesAuth.AuthService`. Ghost logs record
every exchange request sent, every token handed to the metadata store and every push
attempt, so "no request was made" and "nothing was persisted" are statements about the
new state.

The model treats several things as parameters, taken for arbitrary values, so every
proof holds whatever they are:
- the library code the flow composes: `url.Parse`, the string-to-bytes conversion,
  SHA-256, base64 `RawURLEncoding`, `url.QueryEscape`, `json.Unmarshal` and
  `ServiceToken.TokenID`;
- the constants defined outside this file: the authorize path, the token-exchange path
  and `ServicePushID`.

All of these are fields of `AuthTypes.Env`. Per-call outcomes are method parameters:
- the nonces (or the random source's error);
- the HTTP outcome of a request;
- the metadata store's answer to a token;
- the push collaborator's answers.

Behaviour of the code worth knowing, modelled as written:
- The debug path checks nothing: an empty access token or an empty services map is stored
  as given.
- A non-empty `error` field in the token response yields a server error that carries no
  detail. The code wraps the read error there (line 178), which is nil at that point, so
  `ServerError(None)` models it as written.
- A status of 300 or more returns at once. The body is closed by the deferred `Close`,
  not read.

The session is never cleared: `CompleteFlow` ensures the slot is unchanged, so after a
success the same callback passes the callback checks again until the next init replaces
the session.

## Model

| member | source | states |
|---|---|---|
| `Strings.TrimSlash` | go/pkg/bertyprotocol/api_services_auth.go:103 | the result is the input or the input minus one final `/`, and it differs from the input exactly when the input ends in `/` |
| `Strings.ParseJoinQuery` | go/pkg/bertyprotocol/api_services_auth.go:112-121 | a non-empty list of `key=value` parameters free of `&` and `=` reads back, through the reference query parser, as exactly that list in order |
| `Session.CopyBytes` | go/pkg/bertyprotocol/api_services_auth.go:52-55 | the element-by-element copy loop (also at lines 38-41 and 73-76) yields exactly its source bytes |
| `Session.ComputeCodeChallenge` | go/pkg/bertyprotocol/api_services_auth.go:36-44 | the challenge is base64url of the SHA-256 digest of the verifier string's bytes (RFC 7636 section 4.2, S256) |
| `Session.VerifierAndChallenge` | go/pkg/bertyprotocol/api_services_auth.go:46-60 | a random-source error is returned unchanged; otherwise the verifier is base64url of the nonce and the challenge is the S256 challenge of that verifier |
| `Session.NewAuthSession` | go/pkg/bertyprotocol/api_services_auth.go:62-85 | the state nonce's error wins over the verifier nonce's; on success the session holds base64url(state nonce), the verifier and the given base URL, and the challenge belongs to that verifier |
| `Session.CheckBaseURL` | go/pkg/bertyprotocol/api_services_auth.go:88-103 | succeeds exactly when the URL parses with scheme http or https and a non-empty host; every failure is InvalidURL; success gives exactly the URL with its trailing `/` removed when it has one (`strings.TrimSuffix`) |
| `Session.AuthorizeURLQuery` | go/pkg/bertyprotocol/api_services_auth.go:112-121 | the authorization URL is base URL + authorize path, then `?`, then a query that parses to exactly response_type=code, client_id=berty, redirect_uri, state, code_challenge, code_challenge_method=S256 |
| `Session.SecureURLFollowsBase` | go/pkg/bertyprotocol/api_services_auth.go:253 | the reply is secure when the session's base URL starts with `https://`, and for a base URL of at least eight characters only then |
| `Exchange.CheckCallback` | go/pkg/bertyprotocol/api_services_auth.go:125-148 | callback parse failure, then a callback `error` as ServerError with code and description, then NotInitialized on an empty slot, then WrongState unless the states are equal; success exactly otherwise, with the callback's code and the stored session |
| `Exchange.CallbackErrorBeforeSession` | go/pkg/bertyprotocol/api_services_auth.go:130-139 | with a non-empty `error` parameter the result is a ServerError and is the same whatever the slot holds |
| `Exchange.SupersededStateRefused` | go/pkg/bertyprotocol/api_services_auth.go:146-148 | a callback that the first session accepts is refused with WrongState by a replacing session with another state |
| `Exchange.ExchangeRequestFor` | go/pkg/bertyprotocol/api_services_auth.go:150-156 | the POST goes to base URL + token-exchange path with exactly the fields grant_type=authorization_code, the code, client_id=berty and the session's code_verifier |
| `Exchange.ExchangeVerifierMatchesURL` | go/pkg/bertyprotocol/api_services_auth.go:112-121 | the query of the authorization URL, read back, has `code_challenge` as its fifth parameter with the S256 challenge of the verifier the exchange sends, given the same `&`/`=`-free values as `Session.AuthorizeURLQuery` |
| `Exchange.ExchangeVerifierMatchesChallenge` | go/pkg/bertyprotocol/api_services_auth.go:155 | the S256 challenge of the verifier sent in the exchange equals the code_challenge of the session's authorization URL (the RFC 7636 section 4.6 check) |
| `Exchange.CheckExchange` | go/pkg/bertyprotocol/api_services_auth.go:157-187 | the seven refusals in order, each under the failure of every earlier check: transport error is StreamWrite, status 300 or more is InvalidResponse with the status, a failed body read is StreamRead, a failed decode is Deserialization, a server `error` is ServerError without detail, an empty token is the missing-token error, an empty services map is the no-services error; success exactly when none applies, with the decoded response |
| `Exchange.ResponseServerError` | go/pkg/bertyprotocol/api_services_auth.go:177-179 | a decoded body with a server `error` gives ServerError without detail |
| `Exchange.MissingTokenBeforeNoServices` | go/pkg/bertyprotocol/api_services_auth.go:181-187 | an empty access token gives the missing-token error whatever the services |
| `Exchange.StatusBeforeBody` | go/pkg/bertyprotocol/api_services_auth.go:163-169 | at status 300 or more the result does not depend on the body or its read |
| `Tokens.ServicesList` | go/pkg/bertyprotocol/api_services_auth.go:189-197 | the loop yields as many entries as the map has keys, whose types are exactly the keys, each mapped to its value, pairwise distinct |
| `Tokens.ListingsAgree` | go/pkg/bertyprotocol/api_services_auth.go:191-197 | two listings of one map hold the same entries, so map iteration order changes only their order |
| `Tokens.SingleServiceListing` | go/pkg/bertyprotocol/api_services_auth.go:189-197 | a one-service map is listed as exactly that one (type, endpoint) entry |
| `Tokens.MaterializeToken` | go/pkg/bertyprotocol/api_services_auth.go:199-204 | the token has the access token, the given authentication URL, expiration -1 and a listing of the services |
| `Tokens.PushTraceCoversPushServices` | go/pkg/bertyprotocol/api_services_auth.go:211-238 | one push attempt per push-type service, each about that service's endpoint; no attempt when no service is of the push type |
| `ServicesAuth.AuthService.AuthInitURL` | go/pkg/bertyprotocol/api_services_auth.go:87-122 | InvalidURL, then the state nonce's error, then the verifier nonce's, each leaving the slot unchanged; on success the slot holds the new session with the trimmed base URL and the result is its authorization URL with the verifier's challenge |
| `ServicesAuth.AuthService.InitFlow` | go/pkg/bertyprotocol/api_services_auth.go:245-255 | as AuthInitURL, with SecureURL true exactly when the URL starts with `https://` |
| `ServicesAuth.AuthService.RegisterPush` | go/pkg/bertyprotocol/api_services_auth.go:210-238 | the push log grows by one attempt per push service, in list order, each ending at its first failing step |
| `ServicesAuth.AuthService.CompleteFlow` | go/pkg/bertyprotocol/api_services_auth.go:124-243 | slot unchanged; on a callback failure nothing is sent or appended; otherwise exactly the one exchange request; on a response failure nothing is appended; otherwise one issued token is appended, an append error is returned unchanged, and after a successful append the result is the token's ID whatever push does |
| `ServicesAuth.AuthService.DebugSetToken` | go/pkg/bertyprotocol/api_services_auth.go:274-297 | one token with the request's access token, authentication URL, expiration -1 and a listing of its services is appended; the append error is returned unchanged |
| `ServicesAuth.SupersededSessionRefused` | go/pkg/bertyprotocol/api_services_auth.go:110-148 | after two inits with different states, a callback with the first state fails with WrongState, and the returned log of exchange requests is empty |

## Left out

- `ServicesTokenList`: it only streams the metadata store's list through the RPC stream and stops on cancellation, so there is no decision logic to model.
- The HTTP POST (`ctxhttp.PostForm`), reading the body and `json.Unmarshal`: network I/O and a foreign decoder. They are an `ExchangeOutcome` input plus the `Env.unmarshal` function.
- `url.Parse`, `[]byte(s)`, SHA-256, base64 `RawURLEncoding`, `url.QueryEscape` and `TokenID`: library code outside the component. They are arbitrary functions in `Env`, composed as the code composes them.
- The GenerateNonce randomness: the nonces, or the error, are parameters. The nonce size and the SHA-256 size are the lengths of the values given, so each copy loop copies its whole source.
- `SendAccountServiceTokenAdded`, `createAndGetPushClient`, `ServerInfo` and `PushSetServer`: reduced to success or failure answers, with ghost logs of what they were given.
- The atomic `Store` and `Load` of the slot and races between init and complete: the slot is a plain field and calls are sequential. The failed type assertion at line 141 cannot happen, because the slot only ever holds sessions.
- Logging, context deadlines, cancellation and the deferred `Body.Close`.
- `Session.AuthorizeURL` renders the Sprintf format of lines 112-121 as the six `key=value` parameters joined by `&` after `?`, in the same order and with the same constants.
- `Session.AuthorizeURLQuery`: it assumes the state, the challenge and the escaped redirect contain no `&` or `=`. Those strings come from base64url encoding and query escaping, which are not modelled, so the model cannot derive this itself.
- A nil `Token` in the debug request, which would make the Go code panic, is not modelled.
- `Exchange.CheckExchange`: a body of JSON `null` is not modelled. `json.Unmarshal` into the `**AuthExchangeResponse` at line 173 then sets the pointer to nil without an error, and line 177 dereferences it and panics; `Env.unmarshal` yields a response or a decode error only, so the model never reaches that panic.
- `CallbackParse` carries no cause: the flow returns `url.Parse`'s own error at line 127, whose content the model does not represent because the parser is a parameter.
