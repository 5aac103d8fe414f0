/** Shared vocabulary of the services-auth flow: bytes, results, the error kinds the flow
    returns, the values it exchanges with its collaborators, and the library functions it
    composes without looking inside them. */
module AuthTypes {

  newtype byte = b: int | 0 <= b < 256

  datatype Option<+T> = None | Some(value: T)

  datatype Result<+T, +E> = Success(value: T) | Failure(error: E)

  /** Outcome of a collaborator call that returns only an error. */
  datatype Outcome = Pass | Fail(cause: string)

  /** Fixed protocol values of the client (RFC 6749 section 4.1.1, RFC 7636 section 4.3). */
  const ResponseType := "code"
  const GrantType := "authorization_code"
  const Redirect := "berty://services-auth/"
  const ClientID := "berty"
  const ChallengeMethod := "S256"

  /** Expiration sentinel meaning "never expires". */
  const NeverExpires := -1

  /** What the server reported through the callback's `error` and `error_description`. */
  datatype ServerDetail = ServerDetail(code: string, description: string)

  /** Why a token-exchange response is refused as invalid. */
  datatype InvalidReason = BadStatus(status: int) | MissingAccessToken | NoServices

  /** The errors the flow returns. `RandomSource` and `Persist` carry a collaborator's own
      error unchanged. `CallbackParse` stands for url.Parse's error, which the flow returns
      as it is; its content is not modelled, since the parser is a parameter. */
  datatype AuthError =
    | InvalidURL
    | RandomSource(cause: string)
    | CallbackParse
    | ServerError(detail: Option<ServerDetail>)
    | NotInitialized
    | WrongState
    | StreamWrite
    | InvalidResponse(reason: InvalidReason)
    | StreamRead
    | Deserialization
    | Persist(cause: string)

  /** The parts of a parsed URL the flow reads; `query` is url.Values, each key with its values. */
  datatype ParsedURL = ParsedURL(scheme: string, host: string, query: map<string, seq<string>>)

  /** url.Values.Get: the first value stored under `key`, or "" when there is none. */
  function QueryGet(q: map<string, seq<string>>, key: string): string
  {
    if key in q && |q[key]| > 0 then q[key][0] else ""
  }

  /** The decoded body of a token-exchange response. */
  datatype TokenResponse = TokenResponse(accessToken: string, services: map<string, string>, error: string)

  /** The form-encoded POST of the code-for-token exchange. */
  datatype ExchangeRequest = ExchangeRequest(endpoint: string, form: map<string, seq<string>>)

  /** What the HTTP exchange produced: a transport error, or a status and the body as read
      (None when reading the body failed). */
  datatype ExchangeOutcome =
    | TransportError
    | HttpResponse(status: int, body: Option<seq<byte>>)

  datatype SupportedService = SupportedService(serviceType: string, serviceEndpoint: string)

  datatype ServiceToken = ServiceToken(
    token: string,
    authenticationURL: string,
    supportedServices: seq<SupportedService>,
    expiration: int)

  /** The push server registered with PushSetServer. */
  datatype PushServer = PushServer(serverKey: seq<byte>, serviceAddr: string)

  /** One best-effort push registration attempt, ending at its first failing step. */
  datatype PushStep =
    | ConnectFailed(endpoint: string)
    | InfoFailed(endpoint: string)
    | SetServer(server: PushServer, ok: bool)

  /** Outcomes of the push collaborator: connecting to an endpoint with a token, asking
      the endpoint for its public key, and registering a push server. */
  datatype PushOracles = PushOracles(
    connect: (string, string) -> bool,
    serverInfo: string -> Option<seq<byte>>,
    setServer: PushServer -> bool)

  /** Library code and names defined outside the component: url.Parse (None on error),
      the string-to-bytes conversion, SHA-256, base64 RawURLEncoding, url.QueryEscape,
      json.Unmarshal (None on error), ServiceToken.TokenID, and the constants
      AuthHTTPPathAuthorize, AuthHTTPPathTokenExchange and ServicePushID. */
  datatype Env = Env(
    parseURL: string -> Option<ParsedURL>,
    utf8: string -> seq<byte>,
    sha256: seq<byte> -> seq<byte>,
    base64Url: seq<byte> -> string,
    queryEscape: string -> string,
    unmarshal: seq<byte> -> Option<TokenResponse>,
    tokenID: ServiceToken -> string,
    authorizePath: string,
    tokenExchangePath: string,
    pushServiceID: string)
}
